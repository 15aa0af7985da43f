/** The barber's appointment requests: a pending request can be confirmed or declined. */
module BarberAgendamentos {
  import opened Common
  import opened Collections
  import opened AppointmentStatus

  datatype Appointment = Appointment(id: string, clienteNome: string, data: string, horario: string, status: Status)

  /** The requests the screen loads. */
  const MockBarberAppointments: seq<Appointment> := [
    Appointment("app1", "Maria Silva", "2024-10-26", "10:00", Pendente),
    Appointment("app2", "Carlos Souza", "2024-10-25", "11:00", Confirmado),
    Appointment("app3", "Ana Paula", "2024-10-27", "14:00", Pendente),
    Appointment("app4", "João Pedro", "2024-10-24", "09:00", Recusado)
  ]

  /** The condition `app.id === id`. */
  function HasId(id: string): Appointment -> bool {
    (a: Appointment) => a.id == id
  }

  /** The rewrite `{ ...app, status }`. */
  function SetStatus(s: Status): Appointment -> Appointment {
    (a: Appointment) => a.(status := s)
  }

  /** The list after `handleUpdateAppointmentStatus(id, s)`: every record with that id gets the
      new status and keeps its other fields; every other record, the length and the order are
      unchanged. */
  function WithStatus(apps: seq<Appointment>, id: string, s: Decision): (r: seq<Appointment>)
    ensures |r| == |apps|
    ensures forall i :: 0 <= i < |apps| && apps[i].id == id ==> r[i] == apps[i].(status := s)
    ensures forall i :: 0 <= i < |apps| && apps[i].id != id ==> r[i] == apps[i]
  {
    Update(apps, HasId(id), SetStatus(s))
  }

  /** Giving the same answer twice is giving it once. */
  lemma WithStatusIdempotent(apps: seq<Appointment>, id: string, s: Decision)
    ensures WithStatus(WithStatus(apps, id, s), id, s) == WithStatus(apps, id, s)
  {
    UpdateIdempotent(apps, HasId(id), SetStatus(s));
  }

  /** Answering an id no record has changes nothing. */
  lemma WithStatusAbsent(apps: seq<Appointment>, id: string, s: Decision)
    requires forall i :: 0 <= i < |apps| ==> apps[i].id != id
    ensures WithStatus(apps, id, s) == apps
  {
    UpdateNoMatch(apps, HasId(id), SetStatus(s));
  }

  /** The "Confirmar" and "Recusar" buttons are drawn only for pending records: exactly the
      records from which both decisions are answer moves. */
  predicate AnswerOffered(a: Appointment)
    ensures AnswerOffered(a) <==> Answered(a.status, Confirmado) && Answered(a.status, Recusado)
  {
    a.status == Pendente
  }

  /** A click on one of the two buttons of the record `id`. */
  datatype Answer = Answer(id: string, decision: Decision)

  /** Every click of the run is on a button the screen showed at that moment. */
  predicate OfferedRun(apps: seq<Appointment>, clicks: seq<Answer>)
    decreases |clicks|
  {
    clicks == [] ||
    ((exists i :: 0 <= i < |apps| && apps[i].id == clicks[0].id && AnswerOffered(apps[i])) &&
     OfferedRun(WithStatus(apps, clicks[0].id, clicks[0].decision), clicks[1..]))
  }

  /** The list after a run of clicks. */
  function AfterAnswers(apps: seq<Appointment>, clicks: seq<Answer>): (r: seq<Appointment>)
    ensures |r| == |apps|
    decreases |clicks|
  {
    if clicks == [] then apps
    else AfterAnswers(WithStatus(apps, clicks[0].id, clicks[0].decision), clicks[1..])
  }

  /** Record ids are unique. */
  ghost predicate UniqueIds(apps: seq<Appointment>) {
    Distinct(apps, (a: Appointment) => a.id)
  }

  /** `after` is `before` with, at every position, the same record whose status was at most answered. */
  ghost predicate AnsweredFrom(before: seq<Appointment>, after: seq<Appointment>) {
    |after| == |before| &&
    forall i :: 0 <= i < |before| ==>
      after[i] == before[i].(status := after[i].status) && Answered(before[i].status, after[i].status)
  }

  /** One offered click, with unique ids, answers a pending record and touches nothing else. */
  lemma OfferedAnswerStep(apps: seq<Appointment>, id: string, s: Decision)
    requires UniqueIds(apps)
    requires exists i :: 0 <= i < |apps| && apps[i].id == id && AnswerOffered(apps[i])
    ensures AnsweredFrom(apps, WithStatus(apps, id, s))
    ensures UniqueIds(WithStatus(apps, id, s))
  {
    var j :| 0 <= j < |apps| && apps[j].id == id && AnswerOffered(apps[j]);
    forall i | 0 <= i < |apps| && apps[i].id == id ensures apps[i].status == Pendente {
      assert i == j;
    }
    UpdateDistinct(apps, HasId(id), SetStatus(s), (a: Appointment) => a.id);
  }

  /** Over any run of offered clicks, every record keeps its place and its fields, and its status
      only moves from pendente to confirmado or recusado. */
  lemma {:induction false} OnlyPendingRequestsAreAnswered(apps: seq<Appointment>, clicks: seq<Answer>)
    requires UniqueIds(apps) && OfferedRun(apps, clicks)
    ensures AnsweredFrom(apps, AfterAnswers(apps, clicks))
    decreases |clicks|
  {
    if clicks != [] {
      var next := WithStatus(apps, clicks[0].id, clicks[0].decision);
      OfferedAnswerStep(apps, clicks[0].id, clicks[0].decision);
      OnlyPendingRequestsAreAnswered(next, clicks[1..]);
      var last := AfterAnswers(next, clicks[1..]);
      forall i | 0 <= i < |apps| ensures Answered(apps[i].status, last[i].status) {
        AnsweredTransitive(apps[i].status, next[i].status, last[i].status);
      }
    }
  }

  /** The screen's state. */
  class Page {
    var appointments: seq<Appointment>

    /** The initial state: no records. */
    constructor ()
      ensures appointments == []
    {
      appointments := [];
    }

    /** The load effect. */
    method FetchAppointments()
      modifies this
      ensures appointments == MockBarberAppointments
    {
      appointments := MockBarberAppointments;
    }

    /** `handleUpdateAppointmentStatus`. */
    method UpdateAppointmentStatus(id: string, s: Decision)
      modifies this
      ensures appointments == WithStatus(old(appointments), id, s)
    {
      appointments := WithStatus(appointments, id, s);
    }
  }
}
