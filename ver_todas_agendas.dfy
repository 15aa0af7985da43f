/** The admin's view of every appointment: a pending request can be confirmed or declined, and
    any appointment that is not cancelled can be removed. */
module VerTodasAgendas {
  import opened Common
  import opened Collections
  import opened AppointmentStatus

  datatype Appointment = Appointment(id: string, barberName: string, clientName: string,
                                     date: string, time: string, status: Status)

  /** The statuses the update handler accepts. */
  type NewStatus = s: Status | s != Pendente witness Confirmado

  /** The appointments the screen loads. */
  const MockAllAppointments: seq<Appointment> := [
    Appointment("a1", "João Barbeiro", "Maria Silva", "2024-10-26", "09:00", Confirmado),
    Appointment("a2", "Maria Tesoura", "Carlos Souza", "2024-10-26", "13:00", Pendente),
    Appointment("a3", "Pedro Navalha", "Ana Paula", "2024-10-27", "14:00", Recusado),
    Appointment("a4", "João Barbeiro", "Fernanda Lima", "2024-10-28", "10:00", Confirmado)
  ]

  /** The condition `app.id === id`. */
  function HasId(id: string): Appointment -> bool {
    (a: Appointment) => a.id == id
  }

  /** The condition `app.id !== id`. */
  function NotId(id: string): Appointment -> bool {
    (a: Appointment) => a.id != id
  }

  /** The rewrite `{ ...app, status }`. */
  function SetStatus(s: Status): Appointment -> Appointment {
    (a: Appointment) => a.(status := s)
  }

  /** The list after `handleUpdateAppointmentStatus(id, s)`: only records with that id change,
      and only in their status; the length and the order are kept. */
  function WithStatus(apps: seq<Appointment>, id: string, s: NewStatus): (r: seq<Appointment>)
    ensures |r| == |apps|
    ensures forall i :: 0 <= i < |apps| && apps[i].id == id ==> r[i] == apps[i].(status := s)
    ensures forall i :: 0 <= i < |apps| && apps[i].id != id ==> r[i] == apps[i]
  {
    Update(apps, HasId(id), SetStatus(s))
  }

  /** The number of records with id `id`. */
  function Matches(apps: seq<Appointment>, id: string): nat {
    Count(apps, HasId(id))
  }

  /** The list after `handleRemoveAppointment(id)`: exactly the records with another id, and as
      many fewer records as had that id; no record with that id is left. */
  function Without(apps: seq<Appointment>, id: string): (r: seq<Appointment>)
    ensures forall a :: a in r <==> a in apps && a.id != id
    ensures |r| == |apps| - Matches(apps, id)
  {
    KeepLength(apps, NotId(id), HasId(id));
    Keep(apps, NotId(id))
  }

  /** Removal keeps the remaining records in their original order. */
  lemma WithoutInOrder(apps: seq<Appointment>, id: string)
    ensures Subsequence(Without(apps, id), apps)
  {
    KeepInOrder(apps, NotId(id));
  }

  /** "Confirmar" and "Recusar" are drawn only for pending records: exactly the records from
      which both decisions are answer moves. */
  predicate AnswerOffered(a: Appointment)
    ensures AnswerOffered(a) <==> Answered(a.status, Confirmado) && Answered(a.status, Recusado)
  {
    a.status == Pendente
  }

  /** "Remover" is drawn for every record that is not cancelled, declined ones included. */
  predicate RemoveOffered(a: Appointment)
    ensures RemoveOffered(a) <==> a.status == Pendente || a.status == Confirmado || a.status == Recusado
  {
    a.status != Cancelado
  }

  /** A click on one of the admin's buttons. The buttons only ever send confirmado or recusado,
      although the handler accepts cancelado as well. */
  datatype Click = Answer(id: string, decision: Decision) | Remove(id: string)

  /** The click is on a button the screen shows for some record with its id. */
  predicate Offered(apps: seq<Appointment>, c: Click) {
    exists i :: 0 <= i < |apps| && apps[i].id == c.id &&
                (if c.Answer? then AnswerOffered(apps[i]) else RemoveOffered(apps[i]))
  }

  /** The list after one click. */
  function Apply(apps: seq<Appointment>, c: Click): seq<Appointment> {
    match c
    case Answer(id, d) => WithStatus(apps, id, d)
    case Remove(id) => Without(apps, id)
  }

  /** Every click of the run is offered at the moment it is made. */
  predicate OfferedRun(apps: seq<Appointment>, clicks: seq<Click>)
    decreases |clicks|
  {
    clicks == [] || (Offered(apps, clicks[0]) && OfferedRun(Apply(apps, clicks[0]), clicks[1..]))
  }

  /** The list after a run of clicks. */
  function AfterClicks(apps: seq<Appointment>, clicks: seq<Click>): seq<Appointment>
    decreases |clicks|
  {
    if clicks == [] then apps else AfterClicks(Apply(apps, clicks[0]), clicks[1..])
  }

  /** Record ids are unique. */
  ghost predicate UniqueIds(apps: seq<Appointment>) {
    Distinct(apps, (a: Appointment) => a.id)
  }

  /** `b` is the record `a` with its status at most answered. */
  predicate Evolved(a: Appointment, b: Appointment) {
    b == a.(status := b.status) && Answered(a.status, b.status)
  }

  /** `b` is an answered form of some record of `before`. */
  ghost predicate HasAncestor(before: seq<Appointment>, b: Appointment) {
    exists i :: 0 <= i < |before| && Evolved(before[i], b)
  }

  /** Every record of `after` is an answered form of a record of `before`, and every cancelled
      record of `before` is still in `after`. */
  ghost predicate Descends(before: seq<Appointment>, after: seq<Appointment>) {
    && (forall k :: 0 <= k < |after| ==> HasAncestor(before, after[k]))
    && (forall a :: a in before && a.status == Cancelado ==> a in after)
  }

  /** One offered click, with unique ids, keeps the ids unique and makes a descendant. */
  lemma OfferedStep(apps: seq<Appointment>, c: Click)
    requires UniqueIds(apps) && Offered(apps, c)
    ensures UniqueIds(Apply(apps, c)) && Descends(apps, Apply(apps, c))
  {
    var j :| 0 <= j < |apps| && apps[j].id == c.id &&
             (if c.Answer? then AnswerOffered(apps[j]) else RemoveOffered(apps[j]));
    var next := Apply(apps, c);
    forall i | 0 <= i < |apps| && apps[i].id == c.id ensures i == j {
    }
    forall a | a in apps && a.status == Cancelado ensures a in next {
      var i :| 0 <= i < |apps| && apps[i] == a;
      assert i != j;
      if c.Answer? {
        assert next[i] == a;
      }
    }
    match c {
      case Answer(id, d) =>
        UpdateDistinct(apps, HasId(id), SetStatus(d), (a: Appointment) => a.id);
        forall k | 0 <= k < |next| ensures HasAncestor(apps, next[k]) {
          assert Evolved(apps[k], next[k]);
        }
      case Remove(id) =>
        KeepDistinct(apps, NotId(id), (a: Appointment) => a.id);
        forall k | 0 <= k < |next| ensures HasAncestor(apps, next[k]) {
          var i :| 0 <= i < |apps| && apps[i] == next[k];
          assert Evolved(apps[i], next[k]);
        }
    }
  }

  /** Descending twice is descending. */
  lemma DescendsTransitive(a: seq<Appointment>, b: seq<Appointment>, c: seq<Appointment>)
    requires Descends(a, b) && Descends(b, c)
    ensures Descends(a, c)
  {
    forall k | 0 <= k < |c| ensures HasAncestor(a, c[k]) {
      var j :| 0 <= j < |b| && Evolved(b[j], c[k]);
      var i :| 0 <= i < |a| && Evolved(a[i], b[j]);
      AnsweredTransitive(a[i].status, b[j].status, c[k].status);
      assert Evolved(a[i], c[k]);
    }
  }

  /** Over any run of offered clicks: no record is invented, each surviving record changed at most
      in its status and only from pendente to confirmado or recusado, so nothing returns to
      pendente, and no cancelled appointment is ever removed. */
  lemma {:induction false} OfferedRunsDescend(apps: seq<Appointment>, clicks: seq<Click>)
    requires UniqueIds(apps) && OfferedRun(apps, clicks)
    ensures Descends(apps, AfterClicks(apps, clicks))
    decreases |clicks|
  {
    if clicks == [] {
      forall k | 0 <= k < |apps| ensures HasAncestor(apps, apps[k]) {
        assert Evolved(apps[k], apps[k]);
      }
    } else {
      var next := Apply(apps, clicks[0]);
      OfferedStep(apps, clicks[0]);
      OfferedRunsDescend(next, clicks[1..]);
      DescendsTransitive(apps, next, AfterClicks(next, clicks[1..]));
    }
  }

  /** The screen's state. */
  class Page {
    var appointments: seq<Appointment>

    /** The initial state: no records. */
    constructor ()
      ensures appointments == []
    {
      appointments := [];
    }

    /** The load effect. */
    method FetchAllAppointments()
      modifies this
      ensures appointments == MockAllAppointments
    {
      appointments := MockAllAppointments;
    }

    /** `handleUpdateAppointmentStatus`. */
    method UpdateAppointmentStatus(id: string, s: NewStatus)
      modifies this
      ensures appointments == WithStatus(old(appointments), id, s)
    {
      appointments := WithStatus(appointments, id, s);
    }

    /** `handleRemoveAppointment`. */
    method RemoveAppointment(id: string)
      modifies this
      ensures appointments == Without(old(appointments), id)
    {
      appointments := Without(appointments, id);
    }
  }
}
