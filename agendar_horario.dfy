/** The booking screen: the `(barberId, timeSlotId)` pair of the route is checked against the
    barbers and slots before the booking can be confirmed. */
module AgendarHorario {
  import opened Common
  import opened Collections
  import opened Schedule

  datatype Barber = Barber(id: string, nome: string)

  /** The barbers the screen searches. */
  const MockBarbers: seq<Barber> := [
    Barber("b1", "João Barbeiro"),
    Barber("b2", "Maria Tesoura"),
    Barber("b3", "Pedro Navalha")
  ]

  /** The slots the screen searches. */
  const MockTimeSlots: seq<TimeSlot> := [
    TimeSlot("ts1", "b1", "2024-10-26", "09:00", true),
    TimeSlot("ts2", "b1", "2024-10-26", "10:00", false),
    TimeSlot("ts3", "b1", "2024-10-26", "11:00", true),
    TimeSlot("ts4", "b1", "2024-10-27", "14:00", true),
    TimeSlot("ts5", "b1", "2024-10-27", "15:00", true)
  ]

  /** The message shown when the pair does not lead to a free slot. */
  const DetailsNotFound := "Detalhes do agendamento não encontrados ou horário indisponível."

  /** The message shown when confirming without loaded details. */
  const IncompleteDetails := "Dados do agendamento incompletos."

  /** The path the screen navigates to after a confirmation. */
  const MyAppointmentsPath := "/meus-agendamentos"

  /** The condition of the barber search. */
  function HasId(id: string): Barber -> bool {
    (b: Barber) => b.id == id
  }

  /** The condition of the slot search: both the slot id and the barber id must match. */
  function IsSlotOf(slotId: string, barberId: string): TimeSlot -> bool {
    (s: TimeSlot) => s.id == slotId && s.barberId == barberId
  }

  /** The details a valid pair loads. */
  datatype Booking = Booking(barber: Barber, slot: TimeSlot)

  /** `fetchData`'s check: the first barber with the id and the first slot with both ids, provided
      the slot is free; no booking otherwise. */
  function ValidateBooking(barbers: seq<Barber>, slots: seq<TimeSlot>, barberId: string, slotId: string): (r: Option<Booking>)
    ensures r.Some? <==>
              (exists i :: 0 <= i < |barbers| && barbers[i].id == barberId) &&
              (exists j :: FirstAt(slots, IsSlotOf(slotId, barberId), j) && slots[j].disponivel)
    ensures r.Some? ==> r.value.barber in barbers && r.value.barber.id == barberId
    ensures r.Some? ==> r.value.slot in slots && r.value.slot.id == slotId
                        && r.value.slot.barberId == barberId && r.value.slot.disponivel
    ensures r.Some? ==> exists i :: FirstAt(barbers, HasId(barberId), i) && r.value.barber == barbers[i]
    ensures r.Some? ==> exists j :: FirstAt(slots, IsSlotOf(slotId, barberId), j) && r.value.slot == slots[j]
  {
    var foundBarber := Find(barbers, HasId(barberId));
    var foundSlot := Find(slots, IsSlotOf(slotId, barberId));
    FindIsFirst(barbers, HasId(barberId));
    FindIsFirst(slots, IsSlotOf(slotId, barberId));
    if foundBarber.Some? && foundSlot.Some? && foundSlot.value.disponivel then
      Some(Booking(foundBarber.value, foundSlot.value))
    else None
  }

  /** A slot of another barber is never booked, whatever its id and availability. */
  lemma OtherBarbersSlotRejected(barbers: seq<Barber>, slots: seq<TimeSlot>, barberId: string, slotId: string)
    requires forall j :: 0 <= j < |slots| && slots[j].id == slotId ==> slots[j].barberId != barberId
    ensures ValidateBooking(barbers, slots, barberId, slotId).None?
  {
  }

  /** On the screen's data: `ts2` is taken, so the pair `(b1, ts2)` is rejected, while `(b1, ts1)`
      loads barber `b1` and slot `ts1`, and `ts1` asked for under barber `b2` is rejected. */
  lemma MockPairs()
    ensures ValidateBooking(MockBarbers, MockTimeSlots, "b1", "ts2").None?
    ensures ValidateBooking(MockBarbers, MockTimeSlots, "b1", "ts1") == Some(Booking(MockBarbers[0], MockTimeSlots[0]))
    ensures ValidateBooking(MockBarbers, MockTimeSlots, "b2", "ts1").None?
  {
    assert FirstAt(MockTimeSlots, IsSlotOf("ts2", "b1"), 1);
    assert FirstAt(MockBarbers, HasId("b1"), 0);
    assert FirstAt(MockTimeSlots, IsSlotOf("ts1", "b1"), 0);
  }

  /** The screen's state. */
  class Page {
    var barber: Option<Barber>
    var timeSlot: Option<TimeSlot>
    var error: Option<string>

    /** The initial state: nothing loaded. */
    constructor ()
      ensures barber.None? && timeSlot.None? && error.None?
    {
      barber := None;
      timeSlot := None;
      error := None;
    }

    /** `fetchData` for the route's pair: the details are set only for a valid pair; otherwise
        the error is set and the previous details stay as they were. */
    method FetchData(barberId: string, timeSlotId: string)
      modifies this
      ensures ValidateBooking(MockBarbers, MockTimeSlots, barberId, timeSlotId).Some? ==>
                var b := ValidateBooking(MockBarbers, MockTimeSlots, barberId, timeSlotId).value;
                barber == Some(b.barber) && timeSlot == Some(b.slot) && error.None?
      ensures ValidateBooking(MockBarbers, MockTimeSlots, barberId, timeSlotId).None? ==>
                barber == old(barber) && timeSlot == old(timeSlot) && error == Some(DetailsNotFound)
    {
      error := None;
      match ValidateBooking(MockBarbers, MockTimeSlots, barberId, timeSlotId)
      case Some(b) =>
        barber := Some(b.barber);
        timeSlot := Some(b.slot);
      case None =>
        error := Some(DetailsNotFound);
    }

    /** `handleConfirmAppointment`: refused unless both details are loaded, otherwise it navigates
        to the client's appointments. It changes no state and no slot: the slot list is a
        constant the screen never writes. */
    method ConfirmAppointment() returns (outcome: Outcome)
      ensures outcome.Refused? <==> barber.None? || timeSlot.None?
      ensures outcome.Refused? ==> outcome.message == IncompleteDetails
      ensures outcome.Navigate? ==> outcome.to == MyAppointmentsPath
    {
      if barber.None? || timeSlot.None? {
        return Refused(IncompleteDetails);
      }
      return Navigate(MyAppointmentsPath);
    }
  }
}
