/** The barber's availability screen: the barber's own time slots, the slots of the chosen day
    sorted by time, adding a slot for the chosen day and removing a free slot. */
module MinhaDisponibilidade {
  import opened Common
  import opened Collections
  import opened Text

  /** A slot of the barber's own agenda; `data` is `yyyy-MM-dd`, `horario` is `HH:MM`. */
  datatype TimeSlot = TimeSlot(id: string, data: string, horario: string, disponivel: bool)

  /** The slots the screen loads. */
  const MockBarberTimeSlots: seq<TimeSlot> := [
    TimeSlot("ts1", "2024-10-26", "09:00", true),
    TimeSlot("ts2", "2024-10-26", "10:00", true),
    TimeSlot("ts3", "2024-10-27", "14:00", true),
    TimeSlot("ts4", "2024-10-27", "15:00", false)
  ]

  /** The condition of `filter(slot => slot.id !== id)`. */
  function NotId(id: string): TimeSlot -> bool {
    (s: TimeSlot) => s.id != id
  }

  /** The condition of the day filter, with the selected day already formatted. */
  function OnDate(date: string): TimeSlot -> bool {
    (s: TimeSlot) => s.data == date
  }

  /** The slot list after removing `id`: exactly the slots with another id. */
  function WithoutSlot(slots: seq<TimeSlot>, id: string): (r: seq<TimeSlot>)
    ensures forall s :: s in r <==> s in slots && s.id != id
    ensures (forall i :: 0 <= i < |slots| ==> slots[i].id != id) ==> r == slots
    ensures |r| == Count(slots, NotId(id))
  {
    KeepCount(slots, NotId(id));
    var r := Keep(slots, NotId(id));
    if forall i :: 0 <= i < |slots| ==> slots[i].id != id then
      KeepAll(slots, NotId(id));
      r
    else r
  }

  /** Removal keeps the remaining slots in their original order. */
  lemma WithoutSlotInOrder(slots: seq<TimeSlot>, id: string)
    ensures Subsequence(WithoutSlot(slots, id), slots)
  {
    KeepInOrder(slots, NotId(id));
  }

  /** Consecutive slots are in ascending `horario` order. */
  predicate SortedByTime(s: seq<TimeSlot>) {
    forall i :: 0 < i < |s| ==> LessEq(s[i - 1].horario, s[i].horario)
  }

  /** Inserts `x` before the first slot whose time is later than its own. */
  function InsertByTime(x: TimeSlot, s: seq<TimeSlot>): (r: seq<TimeSlot>)
    requires SortedByTime(s)
    ensures SortedByTime(r)
    ensures multiset(r) == multiset(s) + multiset{x}
    ensures r != [] && (r[0] == x || (s != [] && r[0] == s[0]))
  {
    if s == [] then [x]
    else if !LessEq(s[0].horario, x.horario) then
      LessEqTotal(s[0].horario, x.horario);
      [x] + s
    else
      var rest := InsertByTime(x, s[1..]);
      assert s == [s[0]] + s[1..];
      [s[0]] + rest
  }

  /** `sort((a, b) => a.horario.localeCompare(b.horario))`: the same slots, ascending by time. */
  function SortByTime(s: seq<TimeSlot>): (r: seq<TimeSlot>)
    ensures SortedByTime(r)
    ensures multiset(r) == multiset(s)
  {
    if s == [] then []
    else
      assert s == s[..|s| - 1] + [s[|s| - 1]];
      InsertByTime(s[|s| - 1], SortByTime(s[..|s| - 1]))
  }

  /** `slotsForSelectedDate`: nothing without a selected day, otherwise that day's slots by time. */
  function SlotsForDate(slots: seq<TimeSlot>, selected: Option<string>): (r: seq<TimeSlot>)
    ensures selected.None? ==> r == []
    ensures selected.Some? ==> multiset(r) == multiset(Keep(slots, OnDate(selected.value)))
    ensures SortedByTime(r)
  {
    if selected.None? then [] else SortByTime(Keep(slots, OnDate(selected.value)))
  }

  /** The day view holds exactly the slots of the selected day. */
  lemma SlotsForDateMembers(slots: seq<TimeSlot>, selected: Option<string>)
    ensures forall s :: s in SlotsForDate(slots, selected) <==>
                        selected.Some? && s in slots && s.data == selected.value
  {
    if selected.Some? {
      var kept := Keep(slots, OnDate(selected.value));
      forall s ensures s in SlotsForDate(slots, selected) <==> s in kept {
        assert s in SlotsForDate(slots, selected) <==> s in multiset(SlotsForDate(slots, selected));
      }
    }
  }

  /** The removal button is shown for a slot of the day view only when it is free. */
  predicate RemovalOffered(slots: seq<TimeSlot>, selected: Option<string>, id: string)
    ensures RemovalOffered(slots, selected, id) <==>
              selected.Some? && exists s :: s in slots && s.id == id && s.disponivel && s.data == selected.value
  {
    SlotsForDateMembers(slots, selected);
    exists s :: s in SlotsForDate(slots, selected) && s.id == id && s.disponivel
  }

  /** A click on "Remover" in the day of `date`, for the slot `id`. */
  datatype RemoveClick = RemoveClick(date: Option<string>, id: string)

  /** Every click of the run hits a removal button the screen offered at that moment. */
  predicate OfferedRun(slots: seq<TimeSlot>, clicks: seq<RemoveClick>)
    decreases |clicks|
  {
    clicks == [] ||
    (RemovalOffered(slots, clicks[0].date, clicks[0].id) &&
     OfferedRun(WithoutSlot(slots, clicks[0].id), clicks[1..]))
  }

  /** The slot list after the removals of a run of clicks. */
  function AfterRemovals(slots: seq<TimeSlot>, clicks: seq<RemoveClick>): seq<TimeSlot>
    decreases |clicks|
  {
    if clicks == [] then slots else AfterRemovals(WithoutSlot(slots, clicks[0].id), clicks[1..])
  }

  /** Slot ids are unique. */
  ghost predicate UniqueIds(slots: seq<TimeSlot>) {
    Distinct(slots, (s: TimeSlot) => s.id)
  }

  /** With unique ids, an offered removal never removes an occupied slot. */
  lemma OfferedRemovalKeepsOccupied(slots: seq<TimeSlot>, selected: Option<string>, id: string)
    requires UniqueIds(slots) && RemovalOffered(slots, selected, id)
    ensures forall s :: s in slots && !s.disponivel ==> s in WithoutSlot(slots, id)
    ensures UniqueIds(WithoutSlot(slots, id))
  {
    var t :| t in SlotsForDate(slots, selected) && t.id == id && t.disponivel;
    SlotsForDateMembers(slots, selected);
    forall s | s in slots && !s.disponivel ensures s.id != id {
      var i :| 0 <= i < |slots| && slots[i] == s;
      var j :| 0 <= j < |slots| && slots[j] == t;
      assert i != j;
    }
    KeepDistinct(slots, NotId(id), (s: TimeSlot) => s.id);
  }

  /** Occupied slots survive every run of offered removals: this screen cannot delete them. */
  lemma {:induction false} OccupiedSlotsSurvive(slots: seq<TimeSlot>, clicks: seq<RemoveClick>)
    requires UniqueIds(slots) && OfferedRun(slots, clicks)
    ensures forall s :: s in slots && !s.disponivel ==> s in AfterRemovals(slots, clicks)
    decreases |clicks|
  {
    if clicks != [] {
      OfferedRemovalKeepsOccupied(slots, clicks[0].date, clicks[0].id);
      OccupiedSlotsSurvive(WithoutSlot(slots, clicks[0].id), clicks[1..]);
    }
  }

  /** The screen's state: its copy of the slot list, the selected day (as `yyyy-MM-dd`, absent
      when the calendar has no selection) and the time typed for a new slot. */
  class Page {
    var timeSlots: seq<TimeSlot>
    var selectedDate: Option<string>
    var newTime: string

    /** The initial state: no slots yet, today selected, no time typed. */
    constructor (today: string)
      ensures timeSlots == [] && selectedDate == Some(today) && newTime == ""
    {
      timeSlots := [];
      selectedDate := Some(today);
      newTime := "";
    }

    /** The load effect: the slot list becomes the loaded list. */
    method FetchAvailability()
      modifies this
      ensures timeSlots == MockBarberTimeSlots
      ensures selectedDate == old(selectedDate) && newTime == old(newTime)
    {
      timeSlots := MockBarberTimeSlots;
    }

    /** The calendar's `onSelect`. */
    method SelectDate(date: Option<string>)
      modifies this
      ensures selectedDate == date
      ensures timeSlots == old(timeSlots) && newTime == old(newTime)
    {
      selectedDate := date;
    }

    /** The time input's `onChange`. */
    method SetNewTime(time: string)
      modifies this
      ensures newTime == time
      ensures timeSlots == old(timeSlots) && selectedDate == old(selectedDate)
    {
      newTime := time;
    }

    /** `handleAddTimeSlot`: refused without a selected day or a typed time; otherwise one free
        slot for that day and time is appended, with no check for an equal slot, and the typed
        time is cleared. `freshId` stands for the generated id. */
    method AddTimeSlot(freshId: string) returns (added: bool)
      modifies this
      ensures added <==> old(selectedDate).Some? && old(newTime) != ""
      ensures added ==> timeSlots == old(timeSlots) + [TimeSlot(freshId, old(selectedDate).value, old(newTime), true)]
      ensures added ==> newTime == ""
      ensures !added ==> timeSlots == old(timeSlots) && newTime == old(newTime)
      ensures selectedDate == old(selectedDate)
    {
      if selectedDate.None? || newTime == "" {
        return false;
      }
      var slot := TimeSlot(freshId, selectedDate.value, newTime, true);
      timeSlots := timeSlots + [slot];
      newTime := "";
      return true;
    }

    /** `handleRemoveTimeSlot`. */
    method RemoveTimeSlot(id: string)
      modifies this
      ensures timeSlots == WithoutSlot(old(timeSlots), id)
      ensures selectedDate == old(selectedDate) && newTime == old(newTime)
    {
      timeSlots := WithoutSlot(timeSlots, id);
    }
  }
}
