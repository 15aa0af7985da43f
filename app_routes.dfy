/** The application's route table: which page each pathname shows and which roles its guard
    admits. */
module AppRoutes {
  import opened Common
  import opened Collections
  import opened Text
  import opened ProtectedRoute
  import Search = BuscarBarbeiro
  import Profile = PerfilBarbeiro
  import Booking = AgendarHorario
  import Editor = EditarPerfilBarbeiro

  datatype Page =
    | Index | Login | Register
    | AdminDashboard | BarberDashboard | ClientDashboard
    | BuscarBarbeiro | PerfilBarbeiro | AgendarHorario | MeusAgendamentos
    | MinhaDisponibilidade | BarberAgendamentos | EditarPerfilBarbeiro
    | GerenciarBarbeiros | GerenciarUsuarios | VerTodasAgendas
    | NotFound

  /** A piece of a route pattern: a fixed name, or a `:param` that takes any one segment. */
  datatype Segment = Static(name: string) | Param

  /** How a route is reached: directly, or through the guard with the given `allowedRoles`. */
  datatype Access = Public | Guarded(allowedRoles: seq<string>)

  /** A route: its pattern, the page it shows, and its access. */
  datatype Route = Route(pattern: seq<Segment>, page: Page, access: Access)

  /** The routes in the order they are declared. */
  const Routes: seq<Route> := [
    Route([], Index, Public),
    Route([Static("login")], Login, Public),
    Route([Static("register")], Register, Public),
    Route([Static("admin")], AdminDashboard, Guarded(["admin"])),
    Route([Static("barber")], BarberDashboard, Guarded(["barber"])),
    Route([Static("client")], ClientDashboard, Guarded(["client"])),
    Route([Static("buscar")], BuscarBarbeiro, Guarded(["client"])),
    Route([Static("barbeiro"), Param], PerfilBarbeiro, Guarded(["client"])),
    Route([Static("agendar"), Param, Param], AgendarHorario, Guarded(["client"])),
    Route([Static("meus-agendamentos")], MeusAgendamentos, Guarded(["client"])),
    Route([Static("barber"), Static("disponibilidade")], MinhaDisponibilidade, Guarded(["barber"])),
    Route([Static("barber"), Static("agendamentos")], BarberAgendamentos, Guarded(["barber"])),
    Route([Static("barber"), Static("editar-perfil")], EditarPerfilBarbeiro, Guarded(["barber"])),
    Route([Static("admin"), Static("gerenciar-barbeiros")], GerenciarBarbeiros, Guarded(["admin"])),
    Route([Static("admin"), Static("gerenciar-usuarios")], GerenciarUsuarios, Guarded(["admin"])),
    Route([Static("admin"), Static("ver-todas-agendas")], VerTodasAgendas, Guarded(["admin"]))
  ]

  /** The catch-all route `*`. */
  const CatchAll := Route([], NotFound, Public)

  /** The segments of a pathname: the pieces between slashes, empty ones (from the leading
      slash, a trailing slash or a doubled slash) dropped. */
  function PathSegments(path: string): (segs: seq<string>)
    ensures forall i :: 0 <= i < |segs| ==> segs[i] != "" && '/' !in segs[i]
  {
    Keep(Split(path, '/'), NonEmpty)
  }

  predicate SegmentMatches(p: Segment, s: string) {
    p.Param? || p.name == s
  }

  /** A pattern matches the segments of a path one for one. */
  predicate PatternMatches(pattern: seq<Segment>, segs: seq<string>) {
    |pattern| == |segs| && forall i :: 0 <= i < |segs| ==> SegmentMatches(pattern[i], segs[i])
  }

  function MatchesPath(segs: seq<string>): Route -> bool {
    (r: Route) => PatternMatches(r.pattern, segs)
  }

  /** The route the segments of a pathname are shown with: the first declared route whose
      pattern matches them, and the catch-all when none does. */
  function Match(segs: seq<string>): (r: Route)
    ensures (forall i :: 0 <= i < |Routes| ==> !PatternMatches(Routes[i].pattern, segs)) ==> r == CatchAll
    ensures (exists i :: 0 <= i < |Routes| && PatternMatches(Routes[i].pattern, segs)) ==>
              exists i :: FirstAt(Routes, MatchesPath(segs), i) && r == Routes[i]
  {
    FirstMatch(Routes, segs)
  }

  /** The first route of `table` whose pattern matches the segments, and the catch-all when none
      does. */
  function FirstMatch(table: seq<Route>, segs: seq<string>): (r: Route)
    ensures (forall i :: 0 <= i < |table| ==> !PatternMatches(table[i].pattern, segs)) ==> r == CatchAll
    ensures (exists i :: 0 <= i < |table| && PatternMatches(table[i].pattern, segs)) ==>
              exists i :: FirstAt(table, MatchesPath(segs), i) && r == table[i]
  {
    match Find(table, MatchesPath(segs))
    case Some(r) => r
    case None => CatchAll
  }

  /** The route a pathname is shown with: the one the reference router names for its segments,
      and the catch-all when it names none. */
  function Resolve(path: string): (r: Route)
    ensures var segs := PathSegments(path);
            (RouteIndex(segs).None? ==> r == CatchAll) &&
            (RouteIndex(segs).Some? ==> RouteIndex(segs).value < |Routes| && r == Routes[RouteIndex(segs).value])
  {
    var segs := PathSegments(path);
    MatchByIndex(segs);
    Match(segs)
  }

  /** The first declared route of a valid table is found by a direct look at the segments. This
      hand-written router is the reference the table is checked against. */
  function RouteIndex(segs: seq<string>): Option<nat> {
    if |segs| == 0 then Some(0)
    else if |segs| == 1 then
      var s := segs[0];
      if s == "login" then Some(1)
      else if s == "register" then Some(2)
      else if s == "admin" then Some(3)
      else if s == "barber" then Some(4)
      else if s == "client" then Some(5)
      else if s == "buscar" then Some(6)
      else if s == "meus-agendamentos" then Some(9)
      else None
    else if |segs| == 2 then
      var s, t := segs[0], segs[1];
      if s == "barbeiro" then Some(7)
      else if s == "barber" then
        (if t == "disponibilidade" then Some(10)
         else if t == "agendamentos" then Some(11)
         else if t == "editar-perfil" then Some(12)
         else None)
      else if s == "admin" then
        (if t == "gerenciar-barbeiros" then Some(13)
         else if t == "gerenciar-usuarios" then Some(14)
         else if t == "ver-todas-agendas" then Some(15)
         else None)
      else None
    else if |segs| == 3 && segs[0] == "agendar" then Some(8)
    else None
  }

  /** Whenever a declared route matches, the reference router names it. */
  lemma MatchIndex(segs: seq<string>, i: int)
    requires 0 <= i < |Routes| && PatternMatches(Routes[i].pattern, segs)
    ensures RouteIndex(segs) == Some(i)
  {
    assert i == 0 || i == 1 || i == 2 || i == 3 || i == 4 || i == 5 || i == 6 || i == 7 || i == 8
        || i == 9 || i == 10 || i == 11 || i == 12 || i == 13 || i == 14 || i == 15;
  }

  /** A route the reference router names does match. */
  lemma IndexMatches(segs: seq<string>)
    requires RouteIndex(segs).Some?
    ensures RouteIndex(segs).value < |Routes| && PatternMatches(Routes[RouteIndex(segs).value].pattern, segs)
  {
  }

  /** No path matches two declared routes, so the order of the table, and React Router's ranking
      of routes, make no difference. */
  lemma RoutesDisjoint(segs: seq<string>, i: int, j: int)
    requires 0 <= i < |Routes| && 0 <= j < |Routes|
    requires PatternMatches(Routes[i].pattern, segs) && PatternMatches(Routes[j].pattern, segs)
    ensures i == j
  {
    MatchIndex(segs, i);
    MatchIndex(segs, j);
  }

  /** Segments that a declared route matches are shown with that route. */
  lemma MatchDeclared(segs: seq<string>, i: int)
    requires 0 <= i < |Routes| && PatternMatches(Routes[i].pattern, segs)
    ensures Match(segs) == Routes[i]
  {
    var p := MatchesPath(segs);
    forall j | 0 <= j < |Routes| && p(Routes[j]) ensures j == i {
      RoutesDisjoint(segs, i, j);
    }
    FindUnique(Routes, p, i);
  }

  /** Segments the reference router does not know are shown with the catch-all. */
  lemma MatchUndeclared(segs: seq<string>)
    requires RouteIndex(segs).None?
    ensures Match(segs) == CatchAll
  {
    forall k | 0 <= k < |Routes| ensures !PatternMatches(Routes[k].pattern, segs) {
      if PatternMatches(Routes[k].pattern, segs) {
        MatchIndex(segs, k);
      }
    }
  }

  /** The pathname with the given segments, `/` for none. */
  function PathOf(segs: seq<string>): string {
    if segs == [] then "/" else JoinWith([""] + segs, "/")
  }

  /** A pathname is a slash and its first segment, followed by the pathname of the rest. */
  lemma PathOfCons(s: string, rest: seq<string>)
    ensures PathOf([s] + rest) == "/" + s + (if rest == [] then "" else PathOf(rest))
  {
    var parts := [""] + ([s] + rest);
    assert parts[1..] == [s] + rest;
    assert PathOf([s] + rest) == "" + "/" + JoinWith([s] + rest, "/");
    if rest == [] {
      assert JoinWith([s] + rest, "/") == s;
      assert "" + "/" + s == "/" + s + "";
    } else {
      assert ([s] + rest)[1..] == rest;
      assert ([""] + rest)[1..] == rest;
      var tail := JoinWith(rest, "/");
      assert JoinWith([s] + rest, "/") == s + "/" + tail;
      assert PathOf(rest) == "" + "/" + tail;
      assert "" + "/" + (s + "/" + tail) == "/" + s + ("" + "/" + tail);
    }
  }

  /** The segments of a pathname built from segments are those segments. */
  lemma SegmentsOfPath(segs: seq<string>)
    requires forall i :: 0 <= i < |segs| ==> segs[i] != "" && '/' !in segs[i]
    ensures PathSegments(PathOf(segs)) == segs
  {
    if segs == [] {
      SplitConcat("", "", '/');
      assert "" + ['/'] + "" == "/";
      assert Split("", '/') == [""];
      assert Split("/", '/') == ["", ""];
      KeepNone(["", ""], NonEmpty);
    } else {
      var parts := [""] + segs;
      SplitJoin(parts, '/');
      KeepConcat([""], segs, NonEmpty);
      KeepNone([""], NonEmpty);
      KeepAll(segs, NonEmpty);
    }
  }

  /** A one-segment path shows the route that matches its segment. */
  lemma ResolveSingle(path: string, name: string, i: int)
    requires name != "" && '/' !in name && path == "/" + name
    requires 0 <= i < |Routes| && PatternMatches(Routes[i].pattern, [name])
    ensures Resolve(path) == Routes[i]
  {
    PathOfCons(name, []);
    assert [name] + [] == [name];
    assert "/" + name + "" == path;
    SegmentsOfPath([name]);
    MatchDeclared([name], i);
  }

  /** What the route shows to a user in the given state: public pages always show, guarded ones
      as their guard decides. */
  function Screen(r: Route, loading: bool, isAuthenticated: bool, userRole: Option<string>): (v: View)
    ensures r.access == Public ==> v == Children
    ensures r.access.Guarded? ==> v == Guard(loading, isAuthenticated, userRole, Some(r.access.allowedRoles))
  {
    match r.access
    case Public => Children
    case Guarded(roles) => Guard(loading, isAuthenticated, userRole, Some(roles))
  }

  /** A logged-in user with that role sees the route's page. */
  predicate Admits(r: Route, role: string) {
    Screen(r, false, true, Some(role)) == Children
  }

  /** `/` shows the landing page to everyone, logged in or not, loaded or not. */
  lemma RootIsPublic(path: string, loading: bool, isAuthenticated: bool, userRole: Option<string>)
    requires path == RootPath
    ensures Resolve(path).page == Index
    ensures Screen(Resolve(path), loading, isAuthenticated, userRole) == Children
  {
    SegmentsOfPath([]);
    MatchDeclared([], 0);
  }

  /** `/login` shows the login page to everyone. */
  lemma LoginIsPublic(path: string, loading: bool, isAuthenticated: bool, userRole: Option<string>)
    requires path == LoginPath
    ensures Resolve(path).page == Login
    ensures Screen(Resolve(path), loading, isAuthenticated, userRole) == Children
  {
    ResolveSingle(path, "login", 1);
  }

  /** `/register` shows the registration page to everyone. */
  lemma RegisterIsPublic(path: string, loading: bool, isAuthenticated: bool, userRole: Option<string>)
    requires path == RegisterPath
    ensures Resolve(path).page == Register
    ensures Screen(Resolve(path), loading, isAuthenticated, userRole) == Children
  {
    ResolveSingle(path, "register", 2);
  }

  /** The dashboard page of each role. */
  function DashboardPage(role: Role): Page {
    if role == "admin" then AdminDashboard else if role == "barber" then BarberDashboard else ClientDashboard
  }

  /** The place of each role's dashboard in the table. */
  function DashboardIndex(role: Role): (i: nat)
    ensures i < |Routes| && Routes[i].pattern == [Static(role)]
    ensures Routes[i].page == DashboardPage(role) && Routes[i].access == Guarded([role])
  {
    if role == "admin" then 3 else if role == "barber" then 4 else 5
  }

  /** Each role's dashboard path is a slash and the role. */
  lemma DashboardPath(role: Role)
    ensures Dashboard(role) == "/" + role
  {
  }

  /** Each role's dashboard path shows that role's dashboard, guarded by that role alone. */
  lemma DashboardResolves(role: Role)
    ensures Resolve(Dashboard(role)).page == DashboardPage(role)
    ensures Resolve(Dashboard(role)).access == Guarded([role])
  {
    var i := DashboardIndex(role);
    DashboardPath(role);
    ResolveSingle(Dashboard(role), role, i);
  }

  /** A route guarded by one role admits exactly that role. */
  lemma GuardedByOne(r: Route, role: Role, other: Role)
    requires r.access == Guarded([role])
    ensures Admits(r, other) <==> other == role
  {
  }

  /** So each dashboard admits exactly its own role. */
  lemma DashboardAdmitsOnlyItsRole(role: Role, other: Role, path: string)
    requires path == Dashboard(role)
    ensures Admits(Resolve(path), other) <==> other == role
  {
    DashboardResolves(role);
    GuardedByOne(Resolve(path), role, other);
  }

  /** A guard that turns a logged-in user with a role away sends them to that role's dashboard. */
  lemma GuardRedirectTarget(r: Route, role: Role)
    ensures var v := Screen(r, false, true, Some(role));
            v.Redirect? ==> v.to == Dashboard(role)
  {
  }

  /** Whenever a guard turns a user with a role away, it sends them to a page that lets them in. */
  lemma GuardRedirectLandsOnAdmittingPage(r: Route, role: Role)
    ensures var v := Screen(r, false, true, Some(role));
            v.Redirect? ==> Admits(Resolve(v.to), role)
  {
    var v := Screen(r, false, true, Some(role));
    if v.Redirect? {
      GuardRedirectTarget(r, role);
      DashboardAdmitsOnlyItsRole(role, role, v.to);
    }
  }

  predicate ClientPage(p: Page) {
    p in {ClientDashboard, BuscarBarbeiro, PerfilBarbeiro, AgendarHorario, MeusAgendamentos}
  }

  predicate BarberPage(p: Page) {
    p in {BarberDashboard, MinhaDisponibilidade, BarberAgendamentos, EditarPerfilBarbeiro}
  }

  predicate AdminPage(p: Page) {
    p in {AdminDashboard, GerenciarBarbeiros, GerenciarUsuarios, VerTodasAgendas}
  }

  /** The route's access follows its page's area: client pages admit only clients, barber pages
      only barbers, admin pages only admins, and every other page is public. */
  predicate AccessByArea(r: Route) {
    && (ClientPage(r.page) ==> r.access == Guarded(["client"]))
    && (BarberPage(r.page) ==> r.access == Guarded(["barber"]))
    && (AdminPage(r.page) ==> r.access == Guarded(["admin"]))
    && (!ClientPage(r.page) && !BarberPage(r.page) && !AdminPage(r.page) ==> r.access == Public)
  }

  /** Every declared route follows its area. */
  lemma TableFollowsAreas(i: int)
    requires 0 <= i < |Routes|
    ensures AccessByArea(Routes[i])
  {
    assert i == 0 || i == 1 || i == 2 || i == 3 || i == 4 || i == 5 || i == 6 || i == 7 || i == 8
        || i == 9 || i == 10 || i == 11 || i == 12 || i == 13 || i == 14 || i == 15;
  }

  /** The catch-all is public. */
  lemma CatchAllFollowsArea()
    ensures AccessByArea(CatchAll)
  {
  }

  /** The table agrees with the reference router on every list of segments. */
  lemma MatchByIndex(segs: seq<string>)
    ensures RouteIndex(segs).None? ==> Match(segs) == CatchAll
    ensures RouteIndex(segs).Some? ==> RouteIndex(segs).value < |Routes| && Match(segs) == Routes[RouteIndex(segs).value]
  {
    if RouteIndex(segs).None? {
      MatchUndeclared(segs);
    } else {
      IndexMatches(segs);
      MatchDeclared(segs, RouteIndex(segs).value);
    }
  }

  /** So does whatever route the segments of a path match, the catch-all included. */
  lemma MatchFollowsArea(segs: seq<string>)
    ensures AccessByArea(Match(segs))
  {
    match RouteIndex(segs)
    case None =>
      MatchUndeclared(segs);
      CatchAllFollowsArea();
    case Some(i) =>
      IndexMatches(segs);
      MatchDeclared(segs, i);
      TableFollowsAreas(i);
  }

  /** The link of a search result is the path with segments `barbeiro` and the id. */
  lemma ProfileLinkPath(id: string)
    ensures Search.ProfileLink(id) == PathOf(["barbeiro", id])
  {
    PathOfCons("barbeiro", [id]);
    PathOfCons(id, []);
    assert ["barbeiro"] + [id] == ["barbeiro", id];
    assert [id] + [] == [id];
  }

  /** The link of a search result opens that barber's profile, for every id without a slash. */
  lemma ProfileLinkResolves(id: string)
    requires id != "" && '/' !in id
    ensures Resolve(Search.ProfileLink(id)).page == PerfilBarbeiro
  {
    ProfileLinkPath(id);
    SegmentsOfPath(["barbeiro", id]);
    MatchDeclared(["barbeiro", id], 7);
  }

  /** The link of a free slot is the path with segments `agendar`, the barber id and the slot id. */
  lemma BookingLinkPath(barberId: string, slotId: string)
    ensures Profile.BookingLink(barberId, slotId) == PathOf(["agendar", barberId, slotId])
  {
    PathOfCons(slotId, []);
    assert [slotId] + [] == [slotId];
    var t := PathOf([slotId]);
    assert t == "/" + slotId;
    PathOfCons(barberId, [slotId]);
    assert [barberId] + [slotId] == [barberId, slotId];
    var m := PathOf([barberId, slotId]);
    assert m == "/" + barberId + t;
    PathOfCons("agendar", [barberId, slotId]);
    assert ["agendar"] + [barberId, slotId] == ["agendar", barberId, slotId];
    assert PathOf(["agendar", barberId, slotId]) == "/" + "agendar" + m;
    assert "/" + "agendar" + ("/" + barberId + ("/" + slotId)) == "/agendar/" + barberId + "/" + slotId;
  }

  /** The link of a free slot on a profile opens the booking page, for ids without a slash. */
  lemma BookingLinkResolves(barberId: string, slotId: string)
    requires barberId != "" && '/' !in barberId && slotId != "" && '/' !in slotId
    ensures Resolve(Profile.BookingLink(barberId, slotId)).page == AgendarHorario
  {
    BookingLinkPath(barberId, slotId);
    SegmentsOfPath(["agendar", barberId, slotId]);
    MatchDeclared(["agendar", barberId, slotId], 8);
  }

  /** A confirmed booking leads to the client's appointment list, which admits clients. */
  lemma ConfirmLeadsToClientPage(path: string)
    requires path == Booking.MyAppointmentsPath
    ensures Resolve(path).page == MeusAgendamentos && Admits(Resolve(path), "client")
  {
    var name := "meus-agendamentos";
    ClientListSegment(path, name);
    ClientListPattern(name);
    ResolveSingle(path, name, 9);
    ClientListAdmitsClients(Resolve(path));
  }

  /** The appointment list's path is one segment with no slash. */
  lemma ClientListSegment(path: string, name: string)
    requires path == Booking.MyAppointmentsPath && name == "meus-agendamentos"
    ensures name != "" && '/' !in name && path == "/" + name
  {
  }

  /** The appointment list's route matches that segment. */
  lemma ClientListPattern(name: string)
    requires name == "meus-agendamentos"
    ensures PatternMatches(Routes[9].pattern, [name])
  {
  }

  /** The client's appointment list admits clients. */
  lemma ClientListAdmitsClients(r: Route)
    requires r == Routes[9]
    ensures r.page == MeusAgendamentos && Admits(r, "client")
  {
  }

  /** A saved profile leads to the barber dashboard, which admits barbers. */
  lemma SaveLeadsToBarberDashboard(path: string)
    requires path == Editor.BarberDashboardPath
    ensures Resolve(path).page == BarberDashboard && Admits(Resolve(path), "barber")
  {
    ResolveSingle(path, "barber", 4);
    BarberDashboardAdmitsBarbers(Resolve(path));
  }

  /** The barber dashboard admits barbers. */
  lemma BarberDashboardAdmitsBarbers(r: Route)
    requires r == Routes[4]
    ensures r.page == BarberDashboard && Admits(r, "barber")
  {
  }
}
