/** The login form: an e-mail, a password and a role chosen from a list. No credential is checked:
    a filled-in form logs the chosen role in and goes to that role's dashboard. */
module LoginPage {
  import opened Common
  import Auth = AuthContext
  import PR = ProtectedRoute
  import R = AppRoutes

  /** The roles the "Login as" list offers, and the one chosen at first. */
  const OfferedRoles: seq<Role> := ["client", "barber", "admin"]
  const DefaultRole: Role := "client"

  /** The error toast of an incomplete form. */
  const MissingFields := "Please enter email, password, and select a role."

  /** `handleLogin`'s decision: with an e-mail, a password and a role it goes to that role's
      dashboard; with any of them missing it shows the error and goes nowhere. */
  function Submit(email: string, password: string, role: Option<Role>): (o: Outcome)
    ensures o.Navigate? <==> email != "" && password != "" && role.Some?
    ensures o.Navigate? ==> o.to == Dashboard(role.value)
    ensures o.Refused? ==> o.message == MissingFields
  {
    if email != "" && password != "" && role.Some? then Navigate(Dashboard(role.value))
    else Refused(MissingFields)
  }

  /** Every role of the list leads to its own dashboard, never to the landing page. */
  lemma OfferedRolesReachDashboards(email: string, password: string, role: Role)
    requires email != "" && password != "" && role in OfferedRoles
    ensures Submit(email, password, Some(role)).to != RootPath
    ensures R.Resolve(Submit(email, password, Some(role)).to).page == R.DashboardPage(role)
  {
    R.DashboardResolves(role);
  }

  /** A login from a loaded session lands on a page that shows its content to the session the
      login made, and a reload keeps that session as it is. */
  lemma LoginLandsOnDashboard(s: Auth.Session, email: string, password: string, role: Role)
    requires email != "" && password != "" && !s.loading
    ensures var o := Submit(email, password, Some(role));
            var t := Auth.Login(s, Some(role));
            o.Navigate? && R.Screen(R.Resolve(o.to), t.loading, t.isAuthenticated, t.userRole) == PR.Children
            && Auth.Reload(t) == t
  {
    var path := Dashboard(role);
    R.DashboardAdmitsOnlyItsRole(role, role, path);
  }

  /** The screen's state. */
  class Page {
    var email: string
    var password: string
    var selectedRole: Option<Role>

    /** The choice is always one of the listed roles. */
    predicate Valid()
      reads this
    {
      selectedRole.Some? && selectedRole.value in OfferedRoles
    }

    /** The initial state: empty fields and the client role chosen. */
    constructor ()
      ensures email == "" && password == "" && selectedRole == Some(DefaultRole)
      ensures Valid()
    {
      email, password, selectedRole := "", "", Some(DefaultRole);
    }

    /** Typing in the two fields. */
    method EditCredentials(e: string, p: string)
      modifies this
      ensures email == e && password == p && selectedRole == old(selectedRole)
    {
      email, password := e, p;
    }

    /** Choosing an entry of the list. */
    method SelectRole(r: Role)
      requires r in OfferedRoles
      modifies this
      ensures selectedRole == Some(r) && email == old(email) && password == old(password)
      ensures Valid()
    {
      selectedRole := Some(r);
    }

    /** `handleLogin`: a refused submission leaves the session alone; an accepted one logs the
        chosen role in first. */
    method HandleLogin(auth: Auth.Provider) returns (outcome: Outcome)
      modifies auth
      ensures outcome == Submit(email, password, selectedRole)
      ensures outcome.Navigate? ==> auth.State() == Auth.Login(old(auth.State()), selectedRole)
      ensures outcome.Refused? ==> auth.State() == old(auth.State())
      ensures Valid() ==> (outcome.Navigate? <==> email != "" && password != "")
    {
      if email != "" && password != "" && selectedRole.Some? {
        auth.LogIn(selectedRole);
        outcome := Navigate(Dashboard(selectedRole.value));
      } else {
        outcome := Refused(MissingFields);
      }
    }
  }
}
