/** The landing page `/`: a loading message while the session is read, the two entry links for a
    visitor, and for a logged-in user an element meant to send them to their area. The element
    used is a `<Link>` with no content, which renders an empty anchor and navigates nowhere;
    `IndexAsWritten` models that, `Index` models the evidently intended redirect. */
module IndexPage {
  import opened Common
  import PR = ProtectedRoute
  import R = AppRoutes

  /** What the page renders. */
  datatype IndexView =
    | Loading
    | EmptyLink(to: string)
    | Redirected(to: string)
    | Landing(login: string, register: string)

  /** The client dashboard, also the target of a missing or unknown role. */
  const ClientDashboardPath := "/client"

  /** The area the page means to send a logged-in user to: the dashboard of each of the three
      roles, and the client dashboard for any other value of `userRole`. */
  function IndexTarget(userRole: Option<string>): (path: string)
    ensures userRole.Some? && userRole.value in {"admin", "barber", "client"} ==> path == Dashboard(userRole.value)
    ensures !(userRole.Some? && userRole.value in {"admin", "barber", "client"}) ==> path == ClientDashboardPath
  {
    if userRole == Some("admin") then "/admin"
    else if userRole == Some("barber") then "/barber"
    else ClientDashboardPath
  }

  /** The page as written: a logged-in user gets an empty link to their area. */
  function IndexAsWritten(loading: bool, isAuthenticated: bool, userRole: Option<string>): (v: IndexView)
    ensures loading ==> v == Loading
    ensures !loading && isAuthenticated ==> v == EmptyLink(IndexTarget(userRole))
    ensures !loading && !isAuthenticated ==> v == Landing(LoginPath, RegisterPath)
  {
    if loading then Loading
    else if isAuthenticated then EmptyLink(IndexTarget(userRole))
    else Landing(LoginPath, RegisterPath)
  }

  /** As written, the page never sends anyone anywhere: a logged-in user stays on `/` and sees
      neither the entry links nor their area. */
  lemma AsWrittenStrandsUsers(loading: bool, isAuthenticated: bool, userRole: Option<string>)
    ensures !IndexAsWritten(loading, isAuthenticated, userRole).Redirected?
    ensures !loading && isAuthenticated ==> !IndexAsWritten(loading, isAuthenticated, userRole).Landing?
  {
  }

  /** For instance a logged-in client. */
  lemma AsWrittenStrandsClient()
    ensures IndexAsWritten(false, true, Some("client")) == EmptyLink(ClientDashboardPath)
  {
  }

  /** The page as intended: a logged-in user is redirected to their area. */
  function Index(loading: bool, isAuthenticated: bool, userRole: Option<string>): (v: IndexView)
    ensures loading ==> v == Loading
    ensures !loading && isAuthenticated ==> v == Redirected(IndexTarget(userRole))
    ensures !loading && !isAuthenticated ==> v == Landing(LoginPath, RegisterPath)
  {
    if loading then Loading
    else if isAuthenticated then Redirected(IndexTarget(userRole))
    else Landing(LoginPath, RegisterPath)
  }

  /** The intended page differs from the written one exactly in the view of a logged-in user. */
  lemma IndexCorrectsOnlyLoggedIn(loading: bool, isAuthenticated: bool, userRole: Option<string>)
    ensures Index(loading, isAuthenticated, userRole) != IndexAsWritten(loading, isAuthenticated, userRole)
            <==> !loading && isAuthenticated
  {
  }

  /** The redirect of a logged-in user with one of the three roles, or with no role at all, lands
      on a page whose guard shows them its content. */
  lemma IndexSendsUsersToTheirArea(userRole: Option<string>)
    requires !Truthy(userRole) || userRole.value in {"admin", "barber", "client"}
    ensures var v := Index(false, true, userRole);
            v.Redirected? && R.Screen(R.Resolve(v.to), false, true, userRole) == PR.Children
  {
    var path := IndexTarget(userRole);
    if Truthy(userRole) {
      var role: Role := userRole.value;
      R.DashboardAdmitsOnlyItsRole(role, role, path);
    } else {
      R.ResolveSingle(path, "client", 5);
    }
  }

  /** The client dashboard's guard sends a role that is none of the three to `/`. */
  lemma ClientGuardRefusesUnknown(role: string, r: R.Route)
    requires role != "" && role !in {"admin", "barber", "client"}
    requires r == R.Routes[5]
    ensures R.Screen(r, false, true, Some(role)) == PR.Redirect(RootPath)
  {
  }

  /** A stored role that is none of the three is sent to the client dashboard, whose guard sends
      it back to `/`: the two pages redirect to each other. */
  lemma UnknownRoleBouncesBack(role: string)
    requires role != "" && role !in {"admin", "barber", "client"}
    ensures var v := Index(false, true, Some(role));
            v == Redirected(ClientDashboardPath)
            && R.Screen(R.Resolve(v.to), false, true, Some(role)) == PR.Redirect(RootPath)
  {
    var path := IndexTarget(Some(role));
    R.ResolveSingle(path, "client", 5);
    ClientGuardRefusesUnknown(role, R.Resolve(path));
  }

  /** The two entry links of a visitor open the login and the registration page, which show to
      everyone. */
  lemma LandingLinksArePublic(isAuthenticated: bool, userRole: Option<string>)
    ensures var v := Index(false, false, userRole);
            v.Landing? && R.Resolve(v.login).page == R.Login && R.Resolve(v.register).page == R.Register
            && R.Screen(R.Resolve(v.login), false, isAuthenticated, userRole) == PR.Children
            && R.Screen(R.Resolve(v.register), false, isAuthenticated, userRole) == PR.Children
  {
    var login, register := LoginPath, RegisterPath;
    R.LoginIsPublic(login, false, isAuthenticated, userRole);
    R.RegisterIsPublic(register, false, isAuthenticated, userRole);
  }
}
