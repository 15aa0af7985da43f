/** The authentication provider: whether someone is logged in, with which role, whether the
    stored session has been read yet, and the `userRole` entry of the browser's local storage. */
module AuthContext {
  import opened Common

  /** The provider's state together with the stored entry, which outlives a reload. */
  datatype Session = Session(isAuthenticated: bool, userRole: Option<string>, loading: bool,
                             stored: Option<string>)

  /** A fresh provider over a store holding `stored`: logged out, no role, still loading. */
  function Mount(stored: Option<string>): (r: Session)
    ensures !r.isAuthenticated && r.userRole.None? && r.loading && r.stored == stored
  {
    Session(false, None, true, stored)
  }

  /** The mount effect: a truthy stored role logs that role in; a missing or empty one leaves the
      state as it is; loading ends either way and the store is only read. */
  function Init(s: Session): (r: Session)
    ensures !r.loading && r.stored == s.stored
    ensures Truthy(s.stored) ==> r.isAuthenticated && r.userRole == s.stored
    ensures !Truthy(s.stored) ==> r.isAuthenticated == s.isAuthenticated && r.userRole == s.userRole
  {
    match s.stored
    case Some(role) => if role != "" then s.(isAuthenticated := true, userRole := Some(role), loading := false)
                       else s.(loading := false)
    case None => s.(loading := false)
  }

  /** What `login` writes to the store: the role, or the empty string for `null`. */
  function StoredValue(role: Option<string>): (v: string)
    ensures role.Some? ==> v == role.value
    ensures role.None? ==> v == ""
  {
    match role
    case Some(r) => r
    case None => ""
  }

  /** `login(role)`: logged in with exactly that role, which is also written to the store. */
  function Login(s: Session, role: Option<string>): (r: Session)
    ensures r.isAuthenticated && r.userRole == role && r.stored == Some(StoredValue(role))
    ensures r.loading == s.loading
  {
    s.(isAuthenticated := true, userRole := role, stored := Some(StoredValue(role)))
  }

  /** `logout()`: logged out, no role, and the stored entry removed. */
  function Logout(s: Session): (r: Session)
    ensures !r.isAuthenticated && r.userRole.None? && r.stored.None? && r.loading == s.loading
  {
    s.(isAuthenticated := false, userRole := None, stored := None)
  }

  /** A page reload: a new provider over the same store, after its mount effect. */
  function Reload(s: Session): Session {
    Init(Mount(s.stored))
  }

  /** Logging out erases every trace of an earlier login. */
  lemma LogoutAfterLogin(s: Session, role: Option<string>)
    ensures Logout(Login(s, role)) == Logout(s)
  {
  }

  /** A login with a role survives a reload. */
  lemma LoginSurvivesReload(s: Session, role: Role)
    ensures Reload(Login(s, Some(role))) == Session(true, Some(role), false, Some(role))
  {
  }

  /** A login with `null` is authenticated at once but is forgotten by a reload: the store holds
      the empty string, which is falsy. */
  lemma NullLoginForgotten(s: Session)
    ensures Login(s, None).isAuthenticated
    ensures Reload(Login(s, None)) == Session(false, None, false, Some(""))
  {
  }

  /** A logout survives a reload. */
  lemma LogoutSurvivesReload(s: Session)
    ensures Reload(Logout(s)) == Session(false, None, false, None)
  {
  }

  /** Reading the store again changes nothing. */
  lemma InitIdempotent(s: Session)
    ensures Init(Init(s)) == Init(s)
  {
  }

  /** The provider object of the application. */
  class Provider {
    var isAuthenticated: bool
    var userRole: Option<string>
    var loading: bool
    /** The `userRole` entry of local storage. */
    var stored: Option<string>

    /** The provider's state and the store as one value. */
    function State(): Session
      reads this
    {
      Session(isAuthenticated, userRole, loading, stored)
    }

    /** The provider as it is created, before its effect runs, over a store holding `storedRole`. */
    constructor (storedRole: Option<string>)
      ensures State() == Mount(storedRole)
    {
      isAuthenticated, userRole, loading, stored := false, None, true, storedRole;
    }

    /** The mount effect. */
    method InitFromStorage()
      modifies this
      ensures State() == Init(old(State()))
    {
      var storedRole := stored;
      if storedRole.Some? && storedRole.value != "" {
        isAuthenticated := true;
        userRole := storedRole;
      }
      loading := false;
    }

    /** `login`. */
    method LogIn(role: Option<string>)
      modifies this
      ensures State() == Login(old(State()), role)
    {
      isAuthenticated := true;
      userRole := role;
      stored := Some(if role.Some? then role.value else "");
    }

    /** `logout`. */
    method LogOut()
      modifies this
      ensures State() == Logout(old(State()))
    {
      isAuthenticated := false;
      userRole := None;
      stored := None;
    }
  }
}
