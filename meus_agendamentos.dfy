/** The client's appointments: any appointment that is not yet cancelled can be cancelled. */
module MeusAgendamentos {
  import opened Common
  import opened Collections
  import opened AppointmentStatus

  /** The statuses this screen's records can have: a declined request is not among them. */
  type ClientStatus = s: Status | s != Recusado witness Pendente

  datatype Appointment = Appointment(id: string, barberName: string, date: string, time: string, status: ClientStatus)

  /** The appointments the screen loads. */
  const MockAppointments: seq<Appointment> := [
    Appointment("app1", "João Barbeiro", "2024-10-26", "09:00", Confirmado),
    Appointment("app2", "Maria Tesoura", "2024-10-28", "13:00", Pendente),
    Appointment("app3", "Pedro Navalha", "2024-10-25", "10:30", Cancelado)
  ]

  /** The condition `app.id === id`. */
  function HasId(id: string): Appointment -> bool {
    (a: Appointment) => a.id == id
  }

  /** The rewrite `{ ...app, status: 'cancelado' }`. */
  function SetCancelled(): Appointment -> Appointment {
    (a: Appointment) => a.(status := Cancelado)
  }

  /** The list after `handleCancelAppointment(id)`: every record with that id is cancelled and
      keeps its other fields; the other records, the length and the order are unchanged. */
  function Cancel(apps: seq<Appointment>, id: string): (r: seq<Appointment>)
    ensures |r| == |apps|
    ensures forall i :: 0 <= i < |apps| && apps[i].id == id ==> r[i] == apps[i].(status := Cancelado)
    ensures forall i :: 0 <= i < |apps| && apps[i].id != id ==> r[i] == apps[i]
  {
    Update(apps, HasId(id), SetCancelled())
  }

  /** Cancelling twice is cancelling once. */
  lemma CancelIdempotent(apps: seq<Appointment>, id: string)
    ensures Cancel(Cancel(apps, id), id) == Cancel(apps, id)
  {
    UpdateIdempotent(apps, HasId(id), SetCancelled());
  }

  /** The "Cancelar" button is drawn for every record that is not cancelled, that is exactly for
      the records a cancel would change. */
  predicate CancelOffered(a: Appointment)
    ensures CancelOffered(a) <==> SetCancelled()(a) != a
  {
    a.status != Cancelado
  }

  /** The status changes cancelling can make: none, or a live appointment cancelled. */
  predicate CancelledFrom(before: ClientStatus, after: ClientStatus) {
    before == after || (before != Cancelado && after == Cancelado)
  }


  /** The list after cancelling the given ids in turn. */
  function AfterCancels(apps: seq<Appointment>, ids: seq<string>): (r: seq<Appointment>)
    ensures |r| == |apps|
    decreases |ids|
  {
    if ids == [] then apps else AfterCancels(Cancel(apps, ids[0]), ids[1..])
  }

  /** Over any run of cancellations every record keeps its place and its fields, and its status
      only moves to cancelado; a cancelled record stays cancelled. */
  lemma {:induction false} CancelsOnlyCancel(apps: seq<Appointment>, ids: seq<string>)
    ensures forall i :: 0 <= i < |apps| ==>
              var after := AfterCancels(apps, ids)[i];
              after == apps[i].(status := after.status) && CancelledFrom(apps[i].status, after.status)
    decreases |ids|
  {
    if ids != [] {
      CancelsOnlyCancel(Cancel(apps, ids[0]), ids[1..]);
    }
  }

  /** Cancellation is final: a record that is cancelled before a run of cancellations is
      unchanged after it, and still offers no button. */
  lemma CancelledIsTerminal(apps: seq<Appointment>, ids: seq<string>, i: int)
    requires 0 <= i < |apps| && apps[i].status == Cancelado
    ensures AfterCancels(apps, ids)[i] == apps[i]
    ensures !CancelOffered(AfterCancels(apps, ids)[i])
  {
    CancelsOnlyCancel(apps, ids);
  }

  /** The screen's state. */
  class Page {
    var appointments: seq<Appointment>

    /** The initial state: no records. */
    constructor ()
      ensures appointments == []
    {
      appointments := [];
    }

    /** The load effect. */
    method FetchAppointments()
      modifies this
      ensures appointments == MockAppointments
    {
      appointments := MockAppointments;
    }

    /** `handleCancelAppointment`. */
    method CancelAppointment(id: string)
      modifies this
      ensures appointments == Cancel(old(appointments), id)
    {
      appointments := Cancel(appointments, id);
    }
  }
}
