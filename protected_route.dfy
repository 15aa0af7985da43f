/** The route guard: a spinner while the session is read, the login page for visitors, the
    user's own dashboard for a role the route does not admit, and the page itself otherwise. */
module ProtectedRoute {
  import opened Common

  datatype View = LoadingView | Redirect(to: string) | Children

  /** The role test `allowedRoles && userRole && !allowedRoles.includes(userRole)`: a route with
      a role list, a truthy role, and the role not in the list. An empty list still counts as
      given, since an array is truthy. */
  predicate Refuses(userRole: Option<string>, allowedRoles: Option<seq<string>>) {
    allowedRoles.Some? && Truthy(userRole) && userRole.value !in allowedRoles.value
  }

  /** The guard's decision. */
  function Guard(loading: bool, isAuthenticated: bool, userRole: Option<string>,
                 allowedRoles: Option<seq<string>>): (v: View)
    ensures loading ==> v == LoadingView
    ensures !loading && !isAuthenticated ==> v == Redirect(LoginPath)
    ensures !loading && isAuthenticated ==>
              (v == Children <==> allowedRoles.None? || !Truthy(userRole) || userRole.value in allowedRoles.value)
    ensures !loading && isAuthenticated && v != Children ==> v == Redirect(Dashboard(userRole.value))
  {
    if loading then LoadingView
    else if !isAuthenticated then Redirect(LoginPath)
    else if Refuses(userRole, allowedRoles) then Redirect(Dashboard(userRole.value))
    else Children
  }

  /** A logged-in user without a role passes every guard, whatever roles the route lists. */
  lemma NullRolePasses(allowedRoles: Option<seq<string>>)
    ensures Guard(false, true, None, allowedRoles) == Children
    ensures Guard(false, true, Some(""), allowedRoles) == Children
  {
  }

  /** A refused role is sent to its own dashboard, never to the login page, and never to the
      landing page when it is one of the three roles. */
  lemma RefusedRoleGoesToDashboard(role: Role, allowedRoles: seq<string>)
    requires role !in allowedRoles
    ensures Guard(false, true, Some(role), Some(allowedRoles)) == Redirect(Dashboard(role))
    ensures Dashboard(role) != LoginPath && Dashboard(role) != RootPath
  {
  }
}
