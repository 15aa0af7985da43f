/** The admin's user list: ban or unban a user and remove a user; administrators have neither
    button. */
module GerenciarUsuarios {
  import opened Common
  import opened Collections

  datatype UserStatus = Ativo | Banido

  datatype User = User(id: string, nome: string, email: string, role: Role, status: UserStatus)

  /** The users the screen loads. */
  const MockUsers: seq<User> := [
    User("u1", "João Admin", "admin@example.com", "admin", Ativo),
    User("u2", "Maria Cliente", "maria.c@example.com", "client", Ativo),
    User("u3", "Pedro Barbeiro", "pedro.b@example.com", "barber", Ativo),
    User("u4", "Ana Banida", "ana.b@example.com", "client", Banido)
  ]

  /** `currentStatus === 'ativo' ? 'banido' : 'ativo'`. */
  function Toggle(s: UserStatus): (t: UserStatus)
    ensures t != s
  {
    if s == Ativo then Banido else Ativo
  }

  /** Toggling twice gives back the original status. */
  lemma ToggleInvolution(s: UserStatus)
    ensures Toggle(Toggle(s)) == s
  {
  }

  /** The condition `user.id === id`. */
  function HasId(id: string): User -> bool {
    (u: User) => u.id == id
  }

  /** The condition `user.id !== id`. */
  function NotId(id: string): User -> bool {
    (u: User) => u.id != id
  }

  /** The rewrite `{ ...user, status }`. */
  function SetStatus(s: UserStatus): User -> User {
    (u: User) => u.(status := s)
  }

  /** The list after `handleBanUnbanUser(id, currentStatus)`: every user with that id gets the
      toggled status of the clicked user and keeps role, name and e-mail; every other user is
      unchanged. */
  function BanUnban(users: seq<User>, id: string, currentStatus: UserStatus): (r: seq<User>)
    ensures |r| == |users|
    ensures forall i :: 0 <= i < |users| && users[i].id == id ==> r[i] == users[i].(status := Toggle(currentStatus))
    ensures forall i :: 0 <= i < |users| && users[i].id != id ==> r[i] == users[i]
  {
    Update(users, HasId(id), SetStatus(Toggle(currentStatus)))
  }

  /** Every user with id `id` has status `s`. */
  predicate AllHaveStatus(users: seq<User>, id: string, s: UserStatus) {
    forall i :: 0 <= i < |users| && users[i].id == id ==> users[i].status == s
  }

  /** Clicking the button twice restores the list: the second click sees the toggled status. */
  lemma BanUnbanInvolution(users: seq<User>, id: string, s: UserStatus)
    requires AllHaveStatus(users, id, s)
    ensures AllHaveStatus(BanUnban(users, id, s), id, Toggle(s))
    ensures BanUnban(BanUnban(users, id, s), id, Toggle(s)) == users
  {
    var once := BanUnban(users, id, s);
    var twice := BanUnban(once, id, Toggle(s));
    forall i | 0 <= i < |users| ensures twice[i] == users[i] {
      ToggleInvolution(s);
    }
  }

  /** The list after `handleRemoveUser(id)`: exactly the users with another id. */
  function Without(users: seq<User>, id: string): (r: seq<User>)
    ensures forall u :: u in r <==> u in users && u.id != id
    ensures |r| == Count(users, NotId(id))
  {
    KeepCount(users, NotId(id));
    Keep(users, NotId(id))
  }

  /** Removal keeps the remaining users in their original order. */
  lemma WithoutInOrder(users: seq<User>, id: string)
    ensures Subsequence(Without(users, id), users)
  {
    KeepInOrder(users, NotId(id));
  }

  /** "Banir"/"Desbanir" and "Remover" are drawn only for users who are not administrators. */
  predicate ActionsOffered(u: User)
    ensures ActionsOffered(u) <==> u.role == "client" || u.role == "barber"
  {
    u.role != "admin"
  }

  /** A click on one of the two buttons of the user `id`, whose drawn status was `current`. */
  datatype Click = BanUnbanClick(id: string, current: UserStatus) | RemoveClick(id: string)

  /** The click is on a button drawn for a user with its id. */
  predicate Offered(users: seq<User>, c: Click) {
    exists i :: 0 <= i < |users| && users[i].id == c.id && ActionsOffered(users[i]) &&
                (c.BanUnbanClick? ==> users[i].status == c.current)
  }

  /** The list after one click. */
  function Apply(users: seq<User>, c: Click): seq<User> {
    match c
    case BanUnbanClick(id, current) => BanUnban(users, id, current)
    case RemoveClick(id) => Without(users, id)
  }

  /** Every click of the run is offered at the moment it is made. */
  predicate OfferedRun(users: seq<User>, clicks: seq<Click>)
    decreases |clicks|
  {
    clicks == [] || (Offered(users, clicks[0]) && OfferedRun(Apply(users, clicks[0]), clicks[1..]))
  }

  /** The list after a run of clicks. */
  function AfterClicks(users: seq<User>, clicks: seq<Click>): seq<User>
    decreases |clicks|
  {
    if clicks == [] then users else AfterClicks(Apply(users, clicks[0]), clicks[1..])
  }

  /** User ids are unique. */
  ghost predicate UniqueIds(users: seq<User>) {
    Distinct(users, (u: User) => u.id)
  }

  /** With unique ids, an offered click leaves every administrator as they were. */
  lemma OfferedClickSparesAdmins(users: seq<User>, c: Click)
    requires UniqueIds(users) && Offered(users, c)
    ensures forall u :: u in users && u.role == "admin" ==> u in Apply(users, c)
    ensures UniqueIds(Apply(users, c))
  {
    var j :| 0 <= j < |users| && users[j].id == c.id && ActionsOffered(users[j]) &&
             (c.BanUnbanClick? ==> users[j].status == c.current);
    var next := Apply(users, c);
    forall u | u in users && u.role == "admin" ensures u in next {
      var i :| 0 <= i < |users| && users[i] == u;
      assert i != j;
      if c.BanUnbanClick? {
        assert next[i] == u;
      }
    }
    match c {
      case BanUnbanClick(id, current) =>
        UpdateDistinct(users, HasId(id), SetStatus(Toggle(current)), (u: User) => u.id);
      case RemoveClick(id) =>
        KeepDistinct(users, NotId(id), (u: User) => u.id);
    }
  }

  /** No run of offered clicks bans, unbans or removes an administrator. */
  lemma {:induction false} AdminsAreProtected(users: seq<User>, clicks: seq<Click>)
    requires UniqueIds(users) && OfferedRun(users, clicks)
    ensures forall u :: u in users && u.role == "admin" ==> u in AfterClicks(users, clicks)
    decreases |clicks|
  {
    if clicks != [] {
      OfferedClickSparesAdmins(users, clicks[0]);
      AdminsAreProtected(Apply(users, clicks[0]), clicks[1..]);
    }
  }

  /** The screen's state. */
  class Page {
    var users: seq<User>

    /** The initial state: no users. */
    constructor ()
      ensures users == []
    {
      users := [];
    }

    /** The load effect. */
    method FetchUsers()
      modifies this
      ensures users == MockUsers
    {
      users := MockUsers;
    }

    /** `handleBanUnbanUser`. */
    method BanUnbanUser(id: string, currentStatus: UserStatus)
      modifies this
      ensures users == BanUnban(old(users), id, currentStatus)
    {
      users := BanUnban(users, id, currentStatus);
    }

    /** `handleRemoveUser`. */
    method RemoveUser(id: string)
      modifies this
      ensures users == Without(old(users), id)
    {
      users := Without(users, id);
    }
  }
}
