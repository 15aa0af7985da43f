/** The barber's profile editor: the services list is shown as one comma-separated field and
    parsed back on save; saving needs a name, an e-mail and a description. */
module EditarPerfilBarbeiro {
  import opened Common
  import opened Collections
  import opened Text

  datatype BarberProfile = BarberProfile(id: string, nome: string, email: string, descricao: string,
                                         fotoUrl: string, servicos: seq<string>)

  /** The profile the screen loads, and the base every save starts from. */
  const MockBarberProfile := BarberProfile(
    "b1", "João Barbeiro", "joao.barbeiro@example.com",
    "Especialista em cortes clássicos e modernos. Com mais de 10 anos de experiência, garanto um visual impecável e atendimento de primeira.",
    "https://github.com/shadcn.png",
    ["Corte Masculino", "Barba", "Corte e Barba", "Relaxamento"])

  /** The path the screen navigates to after saving. */
  const BarberDashboardPath := "/barber"

  /** Every piece trimmed, in order. */
  function TrimAll(xs: seq<string>): (r: seq<string>)
    ensures |r| == |xs| && forall i :: 0 <= i < |xs| ==> r[i] == Trim(xs[i])
  {
    Map(xs, Trim)
  }

  /** A service name the field can hold unchanged: not empty, trimmed and free of commas. */
  predicate WellFormedService(x: string) {
    x != "" && Trimmed(x) && ',' !in x
  }

  /** `servicos.split(',').map(s => s.trim()).filter(s => s !== '')`: every parsed service is
      well formed. */
  function ParseServices(s: string): (r: seq<string>)
    ensures forall i :: 0 <= i < |r| ==> WellFormedService(r[i])
  {
    var parts := Split(s, ',');
    var trimmed := TrimAll(parts);
    forall j | 0 <= j < |parts| ensures ',' !in trimmed[j] {
      TrimKeepsOut(parts[j], ',');
    }
    Keep(trimmed, NonEmpty)
  }

  /** `servicos.join(', ')`, the field's initial text. */
  function JoinServices(xs: seq<string>): (r: string)
    ensures forall i, c :: 0 <= i < |xs| && c in xs[i] ==> c in r
    ensures |xs| >= 2 ==> ',' in r
    ensures forall c :: c in r ==> c == ',' || c == ' ' || exists i :: 0 <= i < |xs| && c in xs[i]
  {
    JoinWith(xs, ", ")
  }

  /** A field of nothing but commas and whitespace, the empty field included, parses to no services. */
  lemma ParseBlank(s: string)
    requires forall i :: 0 <= i < |s| ==> s[i] == ',' || IsSpace(s[i])
    ensures ParseServices(s) == []
  {
    var parts := Split(s, ',');
    forall j | 0 <= j < |parts| ensures Trim(parts[j]) == "" {
      forall m | 0 <= m < |parts[j]| ensures IsSpace(parts[j][m]) {
        assert parts[j][m] in parts[j];
      }
      TrimAllSpace(parts[j]);
    }
    KeepNone(TrimAll(parts), NonEmpty);
  }

  /** Each piece with a space in front. */
  function Spaced(ys: seq<string>): (r: seq<string>)
    ensures |r| == |ys| && forall i :: 0 <= i < |ys| ==> r[i] == " " + ys[i]
  {
    seq(|ys|, i requires 0 <= i < |ys| => " " + ys[i])
  }

  /** A space in front of a field adds a space in front of its first piece. */
  lemma SplitSpaced(t: string)
    ensures Split(" " + t, ',') == [" " + Split(t, ',')[0]] + Split(t, ',')[1..]
  {
    assert (" " + t)[1..] == t;
  }

  /** Spacing a non-empty list spaces its head and its tail. */
  lemma SpacedCons(ys: seq<string>)
    requires |ys| >= 1
    ensures Spaced(ys) == [" " + ys[0]] + Spaced(ys[1..])
  {
  }

  /** Splitting the joined field at the commas gives the first service and then every other
      service behind the space of the separator. */
  lemma {:induction false} SplitJoined(xs: seq<string>)
    requires |xs| >= 1 && forall i :: 0 <= i < |xs| ==> ',' !in xs[i]
    ensures Split(JoinServices(xs), ',') == [xs[0]] + Spaced(xs[1..])
  {
    if |xs| == 1 {
      SplitSingle(xs[0], ',');
    } else {
      var tail := JoinServices(xs[1..]);
      SplitJoined(xs[1..]);
      assert JoinServices(xs) == xs[0] + [','] + (" " + tail);
      SplitConcat(xs[0], " " + tail, ',');
      SplitSpaced(tail);
      SpacedCons(xs[1..]);
      assert xs[1..][1..] == xs[2..];
    }
  }

  /** Round trip: joining well-formed services and parsing the field gives them back. */
  lemma ParseJoin(xs: seq<string>)
    requires forall i :: 0 <= i < |xs| ==> WellFormedService(xs[i])
    ensures ParseServices(JoinServices(xs)) == xs
  {
    if xs == [] {
      assert Split("", ',') == [""];
      assert TrimAll([""]) == [""];
      assert Keep([""], NonEmpty) == Keep([], NonEmpty);
    } else {
      SplitJoined(xs);
      TrimSpaced(xs);
      KeepAll(xs, NonEmpty);
    }
  }

  /** Trimming the first service and the others behind their space gives the services back. */
  lemma TrimSpaced(xs: seq<string>)
    requires |xs| >= 1 && forall i :: 0 <= i < |xs| ==> WellFormedService(xs[i])
    ensures TrimAll([xs[0]] + Spaced(xs[1..])) == xs
  {
    var head, tail := xs[0], xs[1..];
    MapCons(head, Spaced(tail), Trim);
    TrimAllSpaced(tail);
    TrimOfTrimmed(head);
    assert xs == [head] + tail;
  }

  /** Trimming services behind their space gives them back. */
  lemma TrimAllSpaced(ys: seq<string>)
    requires forall i :: 0 <= i < |ys| ==> WellFormedService(ys[i])
    ensures TrimAll(Spaced(ys)) == ys
  {
    var spaced := Spaced(ys);
    forall i | 0 <= i < |ys| ensures Trim(spaced[i]) == ys[i] {
      TrimOfTrimmed(ys[i]);
    }
  }

  /** Saving a just-loaded field normalises it once and for all: parsing what a parse joins back
      gives the same services. */
  lemma ParseNormalises(s: string)
    ensures ParseServices(JoinServices(ParseServices(s))) == ParseServices(s)
  {
    ParseJoin(ParseServices(s));
  }

  /** The editor's text fields. */
  datatype Form = Form(nome: string, email: string, descricao: string, fotoUrl: string, servicos: string)

  /** The fields as the load effect fills them from a profile: the text fields copied, and a
      services field that parses back to the services when they are well formed. */
  function FormOf(p: BarberProfile): (r: Form)
    ensures r.nome == p.nome && r.email == p.email && r.descricao == p.descricao && r.fotoUrl == p.fotoUrl
    ensures (forall i :: 0 <= i < |p.servicos| ==> WellFormedService(p.servicos[i])) ==>
              ParseServices(r.servicos) == p.servicos
  {
    var r := Form(p.nome, p.email, p.descricao, p.fotoUrl, JoinServices(p.servicos));
    if forall i :: 0 <= i < |p.servicos| ==> WellFormedService(p.servicos[i]) then
      ParseJoin(p.servicos);
      r
    else r
  }

  /** `handleSaveProfile`'s result: refused when name, e-mail or description is empty; otherwise
      the base profile's id with every other field taken from the form and the services parsed. */
  function Save(base: BarberProfile, f: Form): (r: Option<BarberProfile>)
    ensures r.None? <==> f.nome == "" || f.email == "" || f.descricao == ""
    ensures r.Some? ==> r.value.id == base.id && r.value.nome == f.nome && r.value.email == f.email
                        && r.value.descricao == f.descricao && r.value.fotoUrl == f.fotoUrl
    ensures r.Some? ==> r.value.servicos == ParseServices(f.servicos)
    ensures r.Some? ==> forall i :: 0 <= i < |r.value.servicos| ==> WellFormedService(r.value.servicos[i])
  {
    if f.nome == "" || f.email == "" || f.descricao == "" then None
    else Some(base.(nome := f.nome, email := f.email, descricao := f.descricao,
                    fotoUrl := f.fotoUrl, servicos := ParseServices(f.servicos)))
  }

  /** Saving the form just as it was loaded gives back the loaded profile, provided it has the
      required fields and well-formed services. */
  lemma SaveLoaded(p: BarberProfile)
    requires p.nome != "" && p.email != "" && p.descricao != ""
    requires forall i :: 0 <= i < |p.servicos| ==> WellFormedService(p.servicos[i])
    ensures Save(p, FormOf(p)) == Some(p)
  {
    ParseJoin(p.servicos);
  }

  /** The screen's data meets that condition: an unedited save keeps the mock profile as it is. */
  lemma SaveLoadedMock()
    ensures Save(MockBarberProfile, FormOf(MockBarberProfile)) == Some(MockBarberProfile)
  {
    var xs := MockBarberProfile.servicos;
    assert WellFormedService(xs[0]) && WellFormedService(xs[1]);
    assert WellFormedService(xs[2]) && WellFormedService(xs[3]);
    SaveLoaded(MockBarberProfile);
  }

  /** The screen's state: the saved profile and the editor's fields. */
  class Page {
    var profile: Option<BarberProfile>
    var form: Form

    /** The initial state: no profile, empty fields. */
    constructor ()
      ensures profile.None? && form == Form("", "", "", "", "")
    {
      profile := None;
      form := Form("", "", "", "", "");
    }

    /** The load effect: the profile is set and the fields are filled from it. */
    method FetchProfile()
      modifies this
      ensures profile == Some(MockBarberProfile) && form == FormOf(MockBarberProfile)
    {
      profile := Some(MockBarberProfile);
      form := FormOf(MockBarberProfile);
    }

    /** Typing in the fields. */
    method EditForm(f: Form)
      modifies this
      ensures form == f && profile == old(profile)
    {
      form := f;
    }

    /** `handleSaveProfile`: a refused save changes nothing and stays on the page; an accepted
        one replaces the profile and navigates to the barber's dashboard. */
    method SaveProfile() returns (navigateTo: Option<string>)
      modifies this
      ensures navigateTo.None? <==> Save(MockBarberProfile, old(form)).None?
      ensures navigateTo.None? ==> profile == old(profile)
      ensures navigateTo.Some? ==> navigateTo.value == BarberDashboardPath
                                   && profile == Save(MockBarberProfile, old(form))
      ensures form == old(form)
    {
      var saved := Save(MockBarberProfile, form);
      if saved.None? {
        return None;
      }
      profile := saved;
      return Some(BarberDashboardPath);
    }
  }
}
