/** The registration form: a name, an e-mail, a password and a role chosen from a list that offers
    no administrator. Nothing is stored: a filled-in form logs the chosen role in at once and goes
    to that role's dashboard. */
module RegisterPage {
  import opened Common
  import Auth = AuthContext
  import PR = ProtectedRoute
  import R = AppRoutes

  /** The roles the "Register as" list offers, and the one chosen at first. */
  const OfferedRoles: seq<Role> := ["client", "barber"]
  const DefaultRole: Role := "client"

  /** The error toast of an incomplete form. */
  const MissingFields := "Please fill in all fields and select a role."

  /** `handleRegister`'s decision: with a name, an e-mail, a password and a role it goes to that
      role's dashboard; with any of them missing it shows the error and goes nowhere. */
  function Submit(name: string, email: string, password: string, role: Option<Role>): (o: Outcome)
    ensures o.Navigate? <==> name != "" && email != "" && password != "" && role.Some?
    ensures o.Navigate? ==> o.to == Dashboard(role.value)
    ensures o.Refused? ==> o.message == MissingFields
  {
    if name != "" && email != "" && password != "" && role.Some? then Navigate(Dashboard(role.value))
    else Refused(MissingFields)
  }

  /** The list cannot make an administrator: its choices go to the client or the barber area. */
  lemma OfferedRolesAreNotAdmin(name: string, email: string, password: string, role: Role)
    requires name != "" && email != "" && password != "" && role in OfferedRoles
    ensures role != "admin"
    ensures R.Resolve(Submit(name, email, password, Some(role)).to).page == R.DashboardPage(role)
    ensures R.DashboardPage(role) != R.AdminDashboard
  {
    R.DashboardResolves(role);
  }

  /** A registration from a loaded session lands on a page that shows its content to the session
      it made, and a reload keeps that session as it is. */
  lemma RegisterLandsOnDashboard(s: Auth.Session, name: string, email: string, password: string, role: Role)
    requires name != "" && email != "" && password != "" && !s.loading
    ensures var o := Submit(name, email, password, Some(role));
            var t := Auth.Login(s, Some(role));
            o.Navigate? && R.Screen(R.Resolve(o.to), t.loading, t.isAuthenticated, t.userRole) == PR.Children
            && Auth.Reload(t) == t
  {
    var path := Dashboard(role);
    R.DashboardAdmitsOnlyItsRole(role, role, path);
  }

  /** The screen's state. */
  class Page {
    var name: string
    var email: string
    var password: string
    var selectedRole: Option<Role>

    /** The choice is always one of the listed roles. */
    predicate Valid()
      reads this
    {
      selectedRole.Some? && selectedRole.value in OfferedRoles
    }

    /** The initial state: empty fields and the client role chosen. */
    constructor ()
      ensures name == "" && email == "" && password == "" && selectedRole == Some(DefaultRole)
      ensures Valid()
    {
      name, email, password, selectedRole := "", "", "", Some(DefaultRole);
    }

    /** Typing in the three fields. */
    method EditFields(n: string, e: string, p: string)
      modifies this
      ensures name == n && email == e && password == p && selectedRole == old(selectedRole)
    {
      name, email, password := n, e, p;
    }

    /** Choosing an entry of the list. */
    method SelectRole(r: Role)
      requires r in OfferedRoles
      modifies this
      ensures selectedRole == Some(r) && name == old(name) && email == old(email) && password == old(password)
      ensures Valid()
    {
      selectedRole := Some(r);
    }

    /** `handleRegister`: a refused submission leaves the session alone; an accepted one logs the
        chosen role in first, and from a valid form that role is never the administrator. */
    method HandleRegister(auth: Auth.Provider) returns (outcome: Outcome)
      modifies auth
      ensures outcome == Submit(name, email, password, selectedRole)
      ensures outcome.Navigate? ==> auth.State() == Auth.Login(old(auth.State()), selectedRole)
      ensures outcome.Refused? ==> auth.State() == old(auth.State())
      ensures Valid() ==> (outcome.Navigate? <==> name != "" && email != "" && password != "")
      ensures Valid() ==> auth.userRole != Some("admin") || outcome.Refused?
    {
      if name != "" && email != "" && password != "" && selectedRole.Some? {
        auth.LogIn(selectedRole);
        outcome := Navigate(Dashboard(selectedRole.value));
      } else {
        outcome := Refused(MissingFields);
      }
    }
  }
}
