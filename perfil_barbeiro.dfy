/** A barber's public profile: the barber looked up by the route id, the barber's free slots on
    the chosen day, and the booking link of each slot. */
module PerfilBarbeiro {
  import opened Common
  import opened Collections
  import opened Schedule
  import Text

  datatype Barber = Barber(id: string, nome: string, descricao: string, fotoUrl: string,
                           rating: real, servicos: seq<string>)

  /** The barbers the screen searches. */
  const MockBarbers: seq<Barber> := [
    Barber("b1", "João Barbeiro",
           "Especialista em cortes clássicos e modernos. Com mais de 10 anos de experiência, garanto um visual impecável e atendimento de primeira.", "https://github.com/shadcn.png",
           4.8, ["Corte Masculino", "Barba", "Corte e Barba", "Relaxamento"]),
    Barber("b2", "Maria Tesoura",
           "Cortes femininos e masculinos, coloração e tratamentos. Minha paixão é transformar e realçar a beleza de cada cliente.",
           "https://api.dicebear.com/7.x/lorelei/svg?seed=Maria", 4.9,
           ["Corte Feminino", "Corte Masculino", "Coloração", "Hidratação"]),
    Barber("b3", "Pedro Navalha",
           "Barbas impecáveis e design de sobrancelhas. Detalhista e preciso, meu foco é a satisfação total do cliente.",
           "https://api.dicebear.com/7.x/lorelei/svg?seed=Pedro", 4.5,
           ["Barba", "Design de Sobrancelhas", "Corte Masculino"]),
    Barber("b4", "Ana Estilosa",
           "Últimas tendências em cortes e penteados. Sempre atualizada com o que há de novo no mundo da beleza.",
           "https://api.dicebear.com/7.x/lorelei/svg?seed=Ana", 4.7,
           ["Corte Feminino", "Penteados", "Mechas", "Maquiagem"])
  ]

  /** The slots the screen filters. */
  const MockTimeSlots: seq<TimeSlot> := [
    TimeSlot("ts1", "b1", "2024-10-26", "09:00", true),
    TimeSlot("ts2", "b1", "2024-10-26", "10:00", false),
    TimeSlot("ts3", "b1", "2024-10-26", "11:00", true),
    TimeSlot("ts4", "b1", "2024-10-27", "14:00", true),
    TimeSlot("ts5", "b1", "2024-10-27", "15:00", true),
    TimeSlot("ts6", "b2", "2024-10-26", "13:00", true),
    TimeSlot("ts7", "b2", "2024-10-26", "14:00", true),
    TimeSlot("ts8", "b3", "2024-10-28", "09:30", true)
  ]

  /** The message shown when no barber has the route id. */
  const BarberNotFound := "Barbeiro não encontrado."

  /** The condition of `find(b => b.id === id)`. */
  function HasId(id: string): Barber -> bool {
    (b: Barber) => b.id == id
  }

  /** The outcome of the profile lookup. */
  datatype Lookup = Found(barber: Barber) | NotFound(message: string)

  /** `fetchBarberProfile`: the first barber with the route id, or the not-found message. */
  function LookupBarber(barbers: seq<Barber>, id: string): (r: Lookup)
    ensures r.Found? ==> r.barber in barbers && r.barber.id == id
    ensures r.Found? ==> exists i :: FirstAt(barbers, HasId(id), i) && barbers[i] == r.barber
    ensures r.NotFound? <==> forall i :: 0 <= i < |barbers| ==> barbers[i].id != id
    ensures r.NotFound? ==> r.message == BarberNotFound
  {
    match Find(barbers, HasId(id))
    case Some(b) => Found(b)
    case None => NotFound(BarberNotFound)
  }

  /** The slot filter's condition: the barber's slot, on the formatted day, still free. */
  function IsFreeSlotOf(barberId: string, date: string): TimeSlot -> bool {
    (s: TimeSlot) => s.barberId == barberId && s.data == date && s.disponivel
  }

  /** The slots shown: none without a barber or a day, otherwise the barber's free slots on that day. */
  function AvailableSlots(slots: seq<TimeSlot>, barber: Option<Barber>, date: Option<string>): (r: seq<TimeSlot>)
    ensures barber.None? || date.None? ==> r == []
    ensures barber.Some? && date.Some? ==>
              forall s :: s in r <==> s in slots && s.barberId == barber.value.id && s.data == date.value && s.disponivel
    ensures barber.Some? && date.Some? ==> |r| == Count(slots, IsFreeSlotOf(barber.value.id, date.value))
  {
    if barber.Some? && date.Some? then
      KeepCount(slots, IsFreeSlotOf(barber.value.id, date.value));
      Keep(slots, IsFreeSlotOf(barber.value.id, date.value))
    else []
  }

  /** The shown slots keep the order of the slot list. */
  lemma AvailableSlotsInOrder(slots: seq<TimeSlot>, barber: Option<Barber>, date: Option<string>)
    ensures Subsequence(AvailableSlots(slots, barber, date), slots)
  {
    if barber.Some? && date.Some? {
      KeepInOrder(slots, IsFreeSlotOf(barber.value.id, date.value));
    } else {
      assert EmbeddedAt([], slots, []);
    }
  }

  /** Filtering the shown slots again changes nothing. */
  lemma AvailableSlotsIdempotent(slots: seq<TimeSlot>, barber: Option<Barber>, date: Option<string>)
    ensures AvailableSlots(AvailableSlots(slots, barber, date), barber, date) == AvailableSlots(slots, barber, date)
  {
    if barber.Some? && date.Some? {
      KeepIdempotent(slots, IsFreeSlotOf(barber.value.id, date.value));
    }
  }

  /** The target of a slot's button: `/agendar/{barber id}/{slot id}`. */
  function BookingLink(barberId: string, slotId: string): (r: string)
    ensures '/' !in barberId && '/' !in slotId ==> Text.Split(r, '/') == ["", "agendar", barberId, slotId]
  {
    var r := "/agendar/" + barberId + "/" + slotId;
    if '/' !in barberId && '/' !in slotId then
      var name := "agendar";
      ThreeSegments(name, barberId, slotId);
      assert r == "/" + name + "/" + barberId + "/" + slotId;
      r
    else r
  }

  /** A slash followed by three slash-free pieces joined by slashes splits into those pieces
      after an empty first one. */
  lemma ThreeSegments(a: string, b: string, c: string)
    requires '/' !in a && '/' !in b && '/' !in c
    ensures Text.Split("/" + a + "/" + b + "/" + c, '/') == ["", a, b, c]
  {
    var bc := b + ['/'] + c;
    var abc := a + ['/'] + bc;
    SlashesNest(a, b, c);
    NestedSplit(a, b, c, bc, abc);
  }

  /** The link's text, regrouped around its slashes. */
  lemma SlashesNest(a: string, b: string, c: string)
    ensures "/" + a + "/" + b + "/" + c == "" + ['/'] + (a + ['/'] + (b + ['/'] + c))
  {
  }

  /** Splitting the regrouped text peels off one piece per slash. */
  lemma NestedSplit(a: string, b: string, c: string, bc: string, abc: string)
    requires '/' !in a && '/' !in b && '/' !in c
    requires bc == b + ['/'] + c && abc == a + ['/'] + bc
    ensures Text.Split("" + ['/'] + abc, '/') == ["", a, b, c]
  {
    Text.SplitSingle(c, '/');
    Text.SplitConcat(b, c, '/');
    Text.SplitConcat(a, bc, '/');
    Text.SplitConcat("", abc, '/');
  }


  /** The screen's state. The barber and error are set by the lookup; the shown slots follow the
      barber and the selected day. */
  class Page {
    var barber: Option<Barber>
    var error: Option<string>
    var availableTimeSlots: seq<TimeSlot>
    var selectedDate: Option<string>

    /** The initial state: no barber, no error, no slots, today selected. */
    constructor (today: string)
      ensures barber.None? && error.None? && availableTimeSlots == [] && selectedDate == Some(today)
    {
      barber := None;
      error := None;
      availableTimeSlots := [];
      selectedDate := Some(today);
    }

    /** The lookup effect for route id `id`: the error is cleared, then either the barber is set
        or the not-found message is; a failed lookup leaves the previous barber in place. */
    method FetchBarberProfile(id: string)
      modifies this
      ensures LookupBarber(MockBarbers, id).Found? ==>
                barber == Some(LookupBarber(MockBarbers, id).barber) && error.None?
      ensures LookupBarber(MockBarbers, id).NotFound? ==>
                barber == old(barber) && error == Some(BarberNotFound)
      ensures availableTimeSlots == old(availableTimeSlots) && selectedDate == old(selectedDate)
    {
      ShowLookup(LookupBarber(MockBarbers, id));
    }

    /** Showing the outcome of a lookup. */
    method ShowLookup(lookup: Lookup)
      modifies this
      ensures lookup.Found? ==> barber == Some(lookup.barber) && error.None?
      ensures lookup.NotFound? ==> barber == old(barber) && error == Some(lookup.message)
      ensures availableTimeSlots == old(availableTimeSlots) && selectedDate == old(selectedDate)
    {
      error := None;
      if lookup.Found? {
        barber := Some(lookup.barber);
      } else {
        error := Some(lookup.message);
      }
    }

    /** The calendar's `onSelect`. */
    method SelectDate(date: Option<string>)
      modifies this
      ensures selectedDate == date
      ensures barber == old(barber) && error == old(error) && availableTimeSlots == old(availableTimeSlots)
    {
      selectedDate := date;
    }

    /** The effect that runs when the barber or the day changes. */
    method RefreshSlots()
      modifies this
      ensures availableTimeSlots == AvailableSlots(MockTimeSlots, barber, selectedDate)
      ensures barber == old(barber) && error == old(error) && selectedDate == old(selectedDate)
    {
      availableTimeSlots := AvailableSlots(MockTimeSlots, barber, selectedDate);
    }
  }
}
