/** The barber's availability table (`src/app/barber/schedule/page.tsx`):
    a map from a date text "yyyy-MM-dd" to that day's list of slots
    `{time, available, customer?}`, edited by toggling a slot and by adding
    a time slot. */
module Schedule {
  import opened Common
  import opened Clock

  /** One entry of a day's list. `customer` is the optional booked customer's name. */
  datatype Slot = Slot(time: string, available: bool, customer: Option<string>)

  /** The condition `slot => slot.time === time` of `findIndex` and `some`. */
  function TimeIs(time: string): Slot -> bool
  {
    (s: Slot) => s.time == time
  }

  /** The week view's filter `slot => !slot.available && slot.customer`
      (an empty name is falsy in JavaScript). */
  predicate IsBooked(s: Slot)
  {
    !s.available && s.customer.Some? && s.customer.value != ""
  }

  // ---- what a well-formed day looks like ----

  /** Ascending by time, duplicates allowed: what the sort in `handleAddTimeSlot` produces. */
  predicate SortedByTime(day: seq<Slot>)
  {
    forall i, j :: 0 <= i < j < |day| ==> !Before(day[j].time, day[i].time)
  }

  /** Ascending by time and no time twice. */
  predicate StrictlyOrdered(day: seq<Slot>)
  {
    forall i, j :: 0 <= i < j < |day| ==> Before(day[i].time, day[j].time)
  }

  /** An available slot never names a customer. */
  predicate Consistent(day: seq<Slot>)
  {
    forall i :: 0 <= i < |day| ==> day[i].available ==> day[i].customer == None
  }

  predicate ValidDay(day: seq<Slot>)
  {
    StrictlyOrdered(day) && Consistent(day)
  }

  predicate ValidTable(table: map<string, seq<Slot>>)
  {
    forall date :: date in table ==> ValidDay(table[date])
  }

  predicate HasTime(day: seq<Slot>, time: string)
  {
    exists i :: 0 <= i < |day| && day[i].time == time
  }

  // ---- getSlotsForDate ----

  /** `availability[dateStr] || []`: the stored list, or the empty list for a date without an entry. */
  function SlotsFor(table: map<string, seq<Slot>>, date: string): (r: seq<Slot>)
    ensures date in table ==> r == table[date]
    ensures date !in table ==> r == []
  {
    if date in table then table[date] else []
  }

  // ---- handleToggleAvailability ----

  /** Flip `available`; a slot that becomes available loses its customer. */
  function ToggleSlot(s: Slot): (r: Slot)
    ensures r.time == s.time && r.available == !s.available
    ensures r.available ==> r.customer == None
    ensures !r.available ==> r.customer == s.customer
  {
    if s.available then s.(available := false) else Slot(s.time, true, None)
  }

  /** The day after a toggle of `time`: the first slot with that time is toggled. */
  function ToggleDay(day: seq<Slot>, time: string): seq<Slot>
  {
    var k := FindIndex(day, TimeIs(time));
    if k < 0 then day else day[k := ToggleSlot(day[k])]
  }

  /** A time the day does not hold changes no slot. */
  lemma ToggleAbsent(day: seq<Slot>, time: string)
    requires !HasTime(day, time)
    ensures ToggleDay(day, time) == day
  {
    assert forall i :: 0 <= i < |day| ==> !TimeIs(time)(day[i]);
  }

  /** Toggle flips exactly the first slot whose time matches; every other slot is kept. */
  lemma ToggleFirstMatch(day: seq<Slot>, time: string, k: nat)
    requires k < |day| && day[k].time == time
    requires forall i :: 0 <= i < k ==> day[i].time != time
    ensures |ToggleDay(day, time)| == |day|
    ensures ToggleDay(day, time)[k] == ToggleSlot(day[k])
    ensures forall i :: 0 <= i < |day| && i != k ==> ToggleDay(day, time)[i] == day[i]
  {
    var f := FindIndex(day, TimeIs(time));
    assert TimeIs(time)(day[k]);
    assert f >= 0 ==> TimeIs(time)(day[f]);
  }

  /** Toggling never moves or renames a slot. */
  lemma ToggleKeepsTimes(day: seq<Slot>, time: string)
    ensures |ToggleDay(day, time)| == |day|
    ensures forall i :: 0 <= i < |day| ==> ToggleDay(day, time)[i].time == day[i].time
  {
  }

  /** "Available means no customer" survives a toggle, and so does the time order. */
  lemma ToggleKeepsValid(day: seq<Slot>, time: string)
    requires ValidDay(day)
    ensures ValidDay(ToggleDay(day, time))
  {
    var r := ToggleDay(day, time);
    ToggleKeepsTimes(day, time);
    assert forall i, j :: 0 <= i < j < |r| ==> r[i].time == day[i].time && r[j].time == day[j].time;
  }

  /** Toggling a customer-less slot twice restores the day. */
  lemma ToggleTwiceRestores(day: seq<Slot>, time: string)
    requires forall i :: 0 <= i < |day| && day[i].time == time ==> day[i].customer == None
    ensures ToggleDay(ToggleDay(day, time), time) == day
  {
    var k := FindIndex(day, TimeIs(time));
    if k >= 0 {
      var once := ToggleDay(day, time);
      ToggleFirstMatch(day, time, k);
      ToggleFirstMatch(once, time, k);
    } else {
      ToggleAbsent(day, time);
    }
  }

  /** Toggling a booked slot twice does not restore it: the slot comes back
      unavailable with its customer gone. */
  lemma ToggleTwiceDropsCustomer(day: seq<Slot>, time: string, k: nat)
    requires k < |day| && day[k].time == time && IsBooked(day[k])
    requires forall i :: 0 <= i < k ==> day[i].time != time
    ensures ToggleDay(ToggleDay(day, time), time)[k] == Slot(time, false, None)
    ensures ToggleDay(ToggleDay(day, time), time) != day
  {
    var once := ToggleDay(day, time);
    ToggleFirstMatch(day, time, k);
    ToggleFirstMatch(once, time, k);
    assert ToggleDay(once, time)[k] != day[k];
  }

  // ---- week overview (lines 343-357) ----

  /** What a day's cell in the weekly overview shows: the first three booked
      slots (all of them when there are fewer), and `more` > 0 for the
      "+more" line. */
  datatype DayPreview = DayPreview(shown: seq<Slot>, more: nat)

  function BookedSlots(day: seq<Slot>): seq<Slot>
  {
    Filter(day, IsBooked)
  }

  function WeekCell(day: seq<Slot>): (p: DayPreview)
    ensures |p.shown| == if |BookedSlots(day)| > 3 then 3 else |BookedSlots(day)|
    ensures |p.shown| + p.more == |BookedSlots(day)|
    ensures p.shown == BookedSlots(day)[..|p.shown|]
    ensures p.more > 0 <==> |BookedSlots(day)| > 3
    ensures forall i :: 0 <= i < |p.shown| ==> IsBooked(p.shown[i])
  {
    var booked := BookedSlots(day);
    if |booked| > 3 then DayPreview(booked[..3], |booked| - 3) else DayPreview(booked, 0)
  }

  /** In a consistent day, toggling a booked slot frees it (one booking fewer
      in the overview) and toggling any other slot leaves the count alone. */
  lemma ToggleBookedCount(day: seq<Slot>, time: string, k: nat)
    requires Consistent(day)
    requires k < |day| && day[k].time == time
    requires forall i :: 0 <= i < k ==> day[i].time != time
    ensures |BookedSlots(ToggleDay(day, time))|
         == |BookedSlots(day)| - (if IsBooked(day[k]) then 1 else 0)
  {
    ToggleFirstMatch(day, time, k);
    assert ToggleDay(day, time) == day[k := ToggleSlot(day[k])];
    FilterCountUpdate(day, k, ToggleSlot(day[k]), IsBooked);
  }

  /** The week cell after a toggle: in a consistent day, toggling a booked slot
      takes one booking out of the cell (shown plus "+more"); toggling any
      other slot keeps the cell's total. */
  lemma WeekCellAfterToggle(day: seq<Slot>, time: string, k: nat)
    requires Consistent(day)
    requires k < |day| && day[k].time == time
    requires forall i :: 0 <= i < k ==> day[i].time != time
    ensures var before := WeekCell(day);
      var after := WeekCell(ToggleDay(day, time));
      |after.shown| + after.more == |before.shown| + before.more - (if IsBooked(day[k]) then 1 else 0)
  {
    ToggleBookedCount(day, time, k);
  }

  // ---- handleAddTimeSlot ----

  /** The slot `handleAddTimeSlot` pushes: `{time, available: true}`. */
  function NewSlot(time: string): (s: Slot)
    ensures s.time == time && s.available && s.customer == None
  {
    Slot(time, true, None)
  }

  /** What adding `time` does to a day: a time already present leaves the list as
      it is; a new time is pushed as an available slot and the list re-sorted,
      so the result is sorted and holds the old slots plus the new one. */
  predicate AddedSlot(day: seq<Slot>, time: string, r: seq<Slot>)
  {
    if HasTime(day, time) then r == day
    else SortedByTime(r) && multiset(r) == multiset(day) + multiset{NewSlot(time)}
  }

  /** Reference definition of "put the slot where it belongs": insert before
      the first later slot. */
  function InsertByTime(day: seq<Slot>, s: Slot): seq<Slot>
  {
    if |day| == 0 then [s]
    else if Before(s.time, day[0].time) then [s] + day
    else [day[0]] + InsertByTime(day[1..], s)
  }

  lemma OrderedTail(day: seq<Slot>)
    requires |day| > 0 && StrictlyOrdered(day)
    ensures StrictlyOrdered(day[1..])
  {
    forall i, j | 0 <= i < j < |day[1..]| ensures Before(day[1..][i].time, day[1..][j].time) {
      assert day[1..][i] == day[i + 1] && day[1..][j] == day[j + 1];
    }
  }

  lemma SortedTail(day: seq<Slot>)
    requires |day| > 0 && SortedByTime(day)
    ensures SortedByTime(day[1..])
  {
    forall i, j | 0 <= i < j < |day[1..]| ensures !Before(day[1..][j].time, day[1..][i].time) {
      assert day[1..][i] == day[i + 1] && day[1..][j] == day[j + 1];
    }
  }

  /** Insertion adds exactly the one slot. */
  lemma {:induction false} InsertByTimeElements(day: seq<Slot>, s: Slot)
    ensures multiset(InsertByTime(day, s)) == multiset(day) + multiset{s}
  {
    if |day| > 0 && !Before(s.time, day[0].time) {
      InsertByTimeElements(day[1..], s);
      assert day == [day[0]] + day[1..];
    }
  }

  /** A slot before every slot of an ordered list can go in front of it. */
  lemma ConsOrdered(x: Slot, rest: seq<Slot>)
    requires StrictlyOrdered(rest)
    requires forall j :: 0 <= j < |rest| ==> Before(x.time, rest[j].time)
    ensures StrictlyOrdered([x] + rest)
  {
    var r := [x] + rest;
    forall i, j | 0 <= i < j < |r| ensures Before(r[i].time, r[j].time) {
      assert r[j] == rest[j - 1];
      if i > 0 {
        assert r[i] == rest[i - 1];
      }
    }
  }

  /** The head of an ordered day comes before everything inserting a later
      slot into its tail gives. */
  lemma HeadBeforeInserted(day: seq<Slot>, s: Slot)
    requires |day| > 0 && StrictlyOrdered(day)
    requires day[0].time != s.time && !Before(s.time, day[0].time)
    ensures forall j :: 0 <= j < |InsertByTime(day[1..], s)| ==>
      Before(day[0].time, InsertByTime(day[1..], s)[j].time)
  {
    var tail := day[1..];
    var rest := InsertByTime(tail, s);
    InsertByTimeElements(tail, s);
    BeforeTotal(day[0].time, s.time);
    forall j | 0 <= j < |rest| ensures Before(day[0].time, rest[j].time) {
      assert rest[j] in multiset(tail) + multiset{s};
      if rest[j] != s {
        var m :| 0 <= m < |tail| && tail[m] == rest[j];
        assert day[m + 1] == rest[j];
      }
    }
  }

  /** Inserting a new time into an ordered, duplicate-free day keeps it ordered
      and duplicate-free. */
  lemma {:induction false} InsertByTimeOrdered(day: seq<Slot>, s: Slot)
    requires StrictlyOrdered(day) && !HasTime(day, s.time)
    ensures StrictlyOrdered(InsertByTime(day, s))
  {
    if |day| == 0 {
    } else if Before(s.time, day[0].time) {
      forall j | 0 <= j < |day| ensures Before(s.time, day[j].time) {
        if j > 0 {
          BeforeTransitive(s.time, day[0].time, day[j].time);
        }
      }
      ConsOrdered(s, day);
    } else {
      var tail := day[1..];
      forall i | 0 <= i < |tail| ensures tail[i].time != s.time {
        assert tail[i] == day[i + 1];
      }
      OrderedTail(day);
      InsertByTimeOrdered(tail, s);
      assert day[0].time != s.time;
      HeadBeforeInserted(day, s);
      ConsOrdered(day[0], InsertByTime(tail, s));
    }
  }

  /** Two lists with the same slots, the first ordered without duplicates and the
      second sorted, start with the same slot. */
  lemma SameHead(a: seq<Slot>, b: seq<Slot>)
    requires |a| > 0 && StrictlyOrdered(a) && SortedByTime(b)
    requires multiset(a) == multiset(b)
    ensures |b| > 0 && a[0] == b[0]
  {
    assert a[0] in multiset(b);
    var j :| 0 <= j < |b| && b[j] == a[0];
    assert b[0] in multiset(a);
    var i :| 0 <= i < |a| && a[i] == b[0];
    BeforeIrreflexive(a[0].time);
    assert i > 0 ==> Before(a[0].time, a[i].time);
    assert j > 0 ==> !Before(b[j].time, b[0].time);
  }

  /** An ordered, duplicate-free list is the only sorted arrangement of its slots. */
  lemma {:induction false} OrderedIsUnique(a: seq<Slot>, b: seq<Slot>)
    requires StrictlyOrdered(a) && SortedByTime(b)
    requires multiset(a) == multiset(b)
    ensures a == b
  {
    if |a| == 0 {
      assert |multiset(b)| == 0;
    } else {
      SameHead(a, b);
      assert a == [a[0]] + a[1..] && b == [b[0]] + b[1..];
      assert multiset(a[1..]) == multiset(a) - multiset{a[0]};
      assert multiset(b[1..]) == multiset(b) - multiset{b[0]};
      OrderedTail(a);
      SortedTail(b);
      OrderedIsUnique(a[1..], b[1..]);
    }
  }

  /** On an ordered, duplicate-free day, adding a new time is exactly inserting
      `{time, available: true}` in its place, and the day stays ordered without
      duplicates; adding a present time changes nothing. */
  lemma AddedSlotOrdered(day: seq<Slot>, time: string, r: seq<Slot>)
    requires StrictlyOrdered(day) && AddedSlot(day, time, r)
    ensures r == if HasTime(day, time) then day else InsertByTime(day, NewSlot(time))
    ensures StrictlyOrdered(r)
    ensures |r| == if HasTime(day, time) then |day| else |day| + 1
  {
    if !HasTime(day, time) {
      InsertByTimeOrdered(day, NewSlot(time));
      InsertByTimeElements(day, NewSlot(time));
      OrderedIsUnique(InsertByTime(day, NewSlot(time)), r);
      assert |multiset(r)| == |multiset(day)| + 1;
    }
  }

  /** Adding a slot keeps "available means no customer". */
  lemma AddedSlotConsistent(day: seq<Slot>, time: string, r: seq<Slot>)
    requires Consistent(day) && AddedSlot(day, time, r)
    ensures Consistent(r)
  {
    if !HasTime(day, time) {
      forall i | 0 <= i < |r| && r[i].available ensures r[i].customer == None {
        assert r[i] in multiset(day) + multiset{NewSlot(time)};
        if r[i] != NewSlot(time) {
          assert r[i] in day;
        }
      }
    }
  }

  /** Exchange two neighbouring slots of an array. */
  method SwapDown(a: array<Slot>, j: nat)
    requires 0 < j < a.Length
    modifies a
    ensures a[j - 1] == old(a[j]) && a[j] == old(a[j - 1])
    ensures forall m :: 0 <= m < a.Length && m != j - 1 && m != j ==> a[m] == old(a[m])
    ensures multiset(a[..]) == multiset(old(a[..]))
  {
    a[j - 1], a[j] := a[j], a[j - 1];
    assert a[..] == old(a[..])[j - 1 := old(a[j])][j := old(a[j - 1])];
  }

  /** One insertion-sort step: sink `a[i]` into the sorted prefix `a[..i]`. */
  method SinkInto(a: array<Slot>, i: nat)
    requires i < a.Length && SortedByTime(a[..i])
    modifies a
    ensures SortedByTime(a[..i + 1])
    ensures multiset(a[..]) == multiset(old(a[..]))
  {
    var j := i;
    while j > 0 && Before(a[j].time, a[j - 1].time)
      invariant 0 <= j <= i
      invariant multiset(a[..]) == multiset(old(a[..]))
      invariant forall p, q :: 0 <= p < q <= i && p != j && q != j ==> !Before(a[q].time, a[p].time)
      invariant forall q :: j < q <= i ==> Before(a[j].time, a[q].time)
    {
      SwapDown(a, j);
      j := j - 1;
    }
    forall p | 0 <= p < j ensures !Before(a[j].time, a[p].time) {
      if p < j - 1 {
        NotAfterTransitive(a[p].time, a[j - 1].time, a[j].time);
      }
    }
    forall q | j < q <= i ensures !Before(a[q].time, a[j].time) {
      BeforeAsymmetric(a[j].time, a[q].time);
    }
  }

  /** `slots.sort((a, b) => a.time.localeCompare(b.time))`, in place, as an
      insertion sort. */
  method SortByTime(a: array<Slot>)
    modifies a
    ensures SortedByTime(a[..])
    ensures multiset(a[..]) == multiset(old(a[..]))
  {
    var i := 0;
    while i < a.Length
      invariant 0 <= i <= a.Length
      invariant SortedByTime(a[..i])
      invariant multiset(a[..]) == multiset(old(a[..]))
    {
      SinkInto(a, i);
      i := i + 1;
    }
    assert a[..a.Length] == a[..];
  }

  /** The list update inside `handleAddTimeSlot`: `some` finds the time, or the
      new slot is pushed onto a copy of the day and the copy sorted in place. */
  method AddToDay(day: seq<Slot>, time: string) returns (r: seq<Slot>)
    ensures AddedSlot(day, time, r)
  {
    if HasTime(day, time) {
      return day;
    }
    var a := new Slot[|day| + 1](i requires 0 <= i <= |day| => if i < |day| then day[i] else NewSlot(time));
    assert a[..] == day + [NewSlot(time)];
    SortByTime(a);
    r := a[..];
  }

  // ---- the time-option grid (lines 257-261) ----

  /** The "Add Time Slot" choices: `Array.from({length: 18}, (_, i) => ...)`. */
  function TimeOptions(): seq<string>
  {
    seq(18, i requires 0 <= i < 18 => Pad2(i / 2 + 9) + ":" + (if i % 2 == 0 then "00" else "30"))
  }

  /** Each option is a zero-padded "HH:MM" time, 30 minutes after the one before,
      from 09:00 (540 minutes) on. */
  lemma TimeOptionMinutes(i: nat)
    requires i < 18
    ensures PaddedClock(TimeOptions()[i])
    ensures PaddedMinutes(TimeOptions()[i]) == 540 + 30 * i
  {
    var h := i / 2 + 9;
    var m := if i % 2 == 0 then "00" else "30";
    Pad2Value(h);
    var s := Pad2(h) + ":" + m;
    assert TimeOptions()[i] == s;
    TwoDigits(m);
    ClockMinutesOf(Pad2(h), m, h, if i % 2 == 0 then 0 else 30);
    assert i == 2 * (i / 2) + i % 2;
  }

  /** There are 18 options, from "09:00" to "17:30", strictly increasing. */
  lemma TimeOptionsOrdered()
    ensures |TimeOptions()| == 18
    ensures TimeOptions()[0] == "09:00" && TimeOptions()[17] == "17:30"
    ensures forall i, j :: 0 <= i < j < 18 ==> Before(TimeOptions()[i], TimeOptions()[j])
  {
    var o := TimeOptions();
    forall i, j | 0 <= i < j < 18 ensures Before(o[i], o[j]) {
      TimeOptionMinutes(i);
      TimeOptionMinutes(j);
      PaddedBeforeIsEarlier(o[i], o[j]);
    }
    assert NatText(9) == "9";
    assert NatText(17) == "17";
  }

  // ---- the page state ----

  /** The state of the schedule page: the availability table and the
      "Add Time Slot" dialog. `selectedDate` holds the selected day already
      formatted as "yyyy-MM-dd". */
  class SchedulePage {
    var availability: map<string, seq<Slot>>
    var selectedDate: string
    var newTimeSlot: string
    var isAddingSlot: bool

    constructor (today: string, initial: map<string, seq<Slot>>)
      ensures availability == initial && selectedDate == today
      ensures newTimeSlot == "" && !isAddingSlot
    {
      availability := initial;
      selectedDate := today;
      newTimeSlot := "";
      isAddingSlot := false;
    }

    /** `getSlotsForDate`. */
    function GetSlotsForDate(date: string): (r: seq<Slot>)
      reads this
      ensures date in availability ==> r == availability[date]
      ensures date !in availability ==> r == []
    {
      SlotsFor(availability, date)
    }

    /** `handleToggleAvailability(date, time)`. A date without an entry gains
        an empty list; otherwise the first slot with that time is toggled. */
    method ToggleAvailability(date: string, time: string)
      modifies this
      ensures availability == old(availability)[date := ToggleDay(old(GetSlotsForDate(date)), time)]
      ensures selectedDate == old(selectedDate) && newTimeSlot == old(newTimeSlot)
      ensures isAddingSlot == old(isAddingSlot)
      ensures old(ValidTable(availability)) ==> ValidTable(availability)
    {
      var day := GetSlotsForDate(date);
      ghost var before := day;
      var k := FindIndex(day, TimeIs(time));
      if k != -1 {
        day := day[k := ToggleSlot(day[k])];
      }
      if ValidTable(availability) {
        ToggleKeepsValid(before, time);
      }
      availability := availability[date := day];
    }

    /** `handleAddTimeSlot`. An empty choice does nothing. Otherwise the selected
        day gets the chosen time (see `AddedSlot`), and the dialog is cleared
        and closed. */
    method AddTimeSlot()
      modifies this
      ensures selectedDate == old(selectedDate)
      ensures old(newTimeSlot) == "" ==>
        availability == old(availability) && newTimeSlot == "" && isAddingSlot == old(isAddingSlot)
      ensures old(newTimeSlot) != "" ==>
        && newTimeSlot == "" && !isAddingSlot
        && selectedDate in availability
        && availability == old(availability)[selectedDate := availability[selectedDate]]
        && AddedSlot(old(GetSlotsForDate(selectedDate)), old(newTimeSlot), availability[selectedDate])
      ensures old(ValidTable(availability)) ==> ValidTable(availability)
    {
      if newTimeSlot == "" {
        return;
      }
      var day := GetSlotsForDate(selectedDate);
      var added := AddToDay(day, newTimeSlot);
      if ValidTable(availability) {
        AddedSlotOrdered(day, newTimeSlot, added);
        AddedSlotConsistent(day, newTimeSlot, added);
      }
      availability := availability[selectedDate := added];
      newTimeSlot := "";
      isAddingSlot := false;
    }
  }

  // ---- the mock availability (lines 43-84) ----

  function Open(time: string): Slot { Slot(time, true, None) }
  function Closed(time: string): Slot { Slot(time, false, None) }
  function Taken(time: string, who: string): Slot { Slot(time, false, Some(who)) }

  /** The table the page starts with: two days, 09:00 to 17:30, lunch at 13:00 and 13:30. */
  function MockAvailability(): map<string, seq<Slot>>
  {
    map["2023-06-12" := MockJune12(), "2023-06-13" := MockJune13()]
  }

  function MockJune12(): seq<Slot>
  {
    [ Open("09:00"), Open("09:30"), Taken("10:00", "John Doe"), Open("10:30"),
      Open("11:00"), Taken("11:30", "Jane Smith"), Open("12:00"), Open("12:30"),
      Closed("13:00"), Closed("13:30"), Open("14:00"), Open("14:30"),
      Taken("15:00", "Robert Brown"), Open("15:30"), Open("16:00"), Open("16:30"),
      Taken("17:00", "Emily Davis"), Open("17:30") ]
  }

  function MockJune13(): seq<Slot>
  {
    [ Open("09:00"), Open("09:30"), Open("10:00"), Open("10:30"),
      Open("11:00"), Open("11:30"), Open("12:00"), Open("12:30"),
      Closed("13:00"), Closed("13:30"), Open("14:00"), Open("14:30"),
      Open("15:00"), Open("15:30"), Open("16:00"), Open("16:30"),
      Open("17:00"), Open("17:30") ]
  }

  /** The times of `day` are the zero-padded texts "09:00", "09:30", ... in list order. */
  predicate OnHalfHourGrid(day: seq<Slot>)
  {
    forall i :: 0 <= i < |day| ==>
      PaddedClock(day[i].time) && PaddedMinutes(day[i].time) == 540 + 30 * i
  }

  /** A day on the half-hour grid is strictly ordered. */
  lemma HalfHourGridOrdered(day: seq<Slot>)
    requires OnHalfHourGrid(day)
    ensures StrictlyOrdered(day)
  {
    forall i, j | 0 <= i < j < |day| ensures Before(day[i].time, day[j].time) {
      PaddedBeforeIsEarlier(day[i].time, day[j].time);
    }
  }

  /** The `i`-th text of the half-hour grid from 09:00, character by character:
      two digits of the hour `9 + i / 2`, a colon, then "00" or "30". */
  predicate GridText(t: string, i: int)
  {
    && |t| == 5
    && t[0] as int == '0' as int + (9 + i / 2) / 10
    && t[1] as int == '0' as int + (9 + i / 2) % 10
    && t[2] == ':' && t[3] == (if i % 2 == 0 then '0' else '3') && t[4] == '0'
  }

  /** Such a text is padded and reads as `540 + 30 * i` minutes. */
  lemma GridTextMinutes(t: string, i: int)
    requires 0 <= i < 18 && GridText(t, i)
    ensures PaddedClock(t) && PaddedMinutes(t) == 540 + 30 * i
  {
  }

  lemma MockJune12Grid(d: seq<Slot>)
    requires d == MockJune12()
    ensures forall i :: 0 <= i < 18 ==>
      PaddedClock(d[i].time) && PaddedMinutes(d[i].time) == 540 + 30 * i
  {
    MockJune12Morning(d);
    MockJune12Afternoon(d);
    forall i | 0 <= i < 18 ensures PaddedClock(d[i].time) && PaddedMinutes(d[i].time) == 540 + 30 * i {
      GridTextMinutes(d[i].time, i);
    }
  }

  lemma MockJune12Morning(d: seq<Slot>)
    requires d == MockJune12()
    ensures forall i :: 0 <= i < 9 ==> GridText(d[i].time, i)
  {
    forall i | 0 <= i < 9 ensures GridText(d[i].time, i) {
      if i == 0 {
        assert d[0].time == "09:00";
      } else if i == 1 {
        assert d[1].time == "09:30";
      } else if i == 2 {
        assert d[2].time == "10:00";
      } else if i == 3 {
        assert d[3].time == "10:30";
      } else if i == 4 {
        assert d[4].time == "11:00";
      } else if i == 5 {
        assert d[5].time == "11:30";
      } else if i == 6 {
        assert d[6].time == "12:00";
      } else if i == 7 {
        assert d[7].time == "12:30";
      } else {
        assert d[8].time == "13:00";
      }
    }
  }

  lemma MockJune12Afternoon(d: seq<Slot>)
    requires d == MockJune12()
    ensures forall i :: 9 <= i < 18 ==> GridText(d[i].time, i)
  {
    forall i | 9 <= i < 18 ensures GridText(d[i].time, i) {
      if i == 9 {
        assert d[9].time == "13:30";
      } else if i == 10 {
        assert d[10].time == "14:00";
      } else if i == 11 {
        assert d[11].time == "14:30";
      } else if i == 12 {
        assert d[12].time == "15:00";
      } else if i == 13 {
        assert d[13].time == "15:30";
      } else if i == 14 {
        assert d[14].time == "16:00";
      } else if i == 15 {
        assert d[15].time == "16:30";
      } else if i == 16 {
        assert d[16].time == "17:00";
      } else {
        assert d[17].time == "17:30";
      }
    }
  }

  lemma MockJune13Grid(d: seq<Slot>)
    requires d == MockJune13()
    ensures forall i :: 0 <= i < 18 ==>
      PaddedClock(d[i].time) && PaddedMinutes(d[i].time) == 540 + 30 * i
  {
    MockJune13Morning(d);
    MockJune13Afternoon(d);
    forall i | 0 <= i < 18 ensures PaddedClock(d[i].time) && PaddedMinutes(d[i].time) == 540 + 30 * i {
      GridTextMinutes(d[i].time, i);
    }
  }

  lemma MockJune13Morning(d: seq<Slot>)
    requires d == MockJune13()
    ensures forall i :: 0 <= i < 9 ==> GridText(d[i].time, i)
  {
    forall i | 0 <= i < 9 ensures GridText(d[i].time, i) {
      if i == 0 {
        assert d[0].time == "09:00";
      } else if i == 1 {
        assert d[1].time == "09:30";
      } else if i == 2 {
        assert d[2].time == "10:00";
      } else if i == 3 {
        assert d[3].time == "10:30";
      } else if i == 4 {
        assert d[4].time == "11:00";
      } else if i == 5 {
        assert d[5].time == "11:30";
      } else if i == 6 {
        assert d[6].time == "12:00";
      } else if i == 7 {
        assert d[7].time == "12:30";
      } else {
        assert d[8].time == "13:00";
      }
    }
  }

  lemma MockJune13Afternoon(d: seq<Slot>)
    requires d == MockJune13()
    ensures forall i :: 9 <= i < 18 ==> GridText(d[i].time, i)
  {
    forall i | 9 <= i < 18 ensures GridText(d[i].time, i) {
      if i == 9 {
        assert d[9].time == "13:30";
      } else if i == 10 {
        assert d[10].time == "14:00";
      } else if i == 11 {
        assert d[11].time == "14:30";
      } else if i == 12 {
        assert d[12].time == "15:00";
      } else if i == 13 {
        assert d[13].time == "15:30";
      } else if i == 14 {
        assert d[14].time == "16:00";
      } else if i == 15 {
        assert d[15].time == "16:30";
      } else if i == 16 {
        assert d[16].time == "17:00";
      } else {
        assert d[17].time == "17:30";
      }
    }
  }

  /** No available mock slot names a customer. */
  lemma MockConsistent()
    ensures Consistent(MockJune12()) && Consistent(MockJune13())
  {
  }

  /** The table the page starts with is well formed: both days list the
      half-hour grid 09:00 to 17:30 in order, and no available slot names a
      customer. */
  lemma MockAvailabilityValid()
    ensures ValidTable(MockAvailability())
  {
    MockJune12Grid(MockJune12());
    HalfHourGridOrdered(MockJune12());
    MockJune13Grid(MockJune13());
    HalfHourGridOrdered(MockJune13());
    MockConsistent();
    var t := MockAvailability();
    assert t.Keys == {"2023-06-12", "2023-06-13"};
  }
}
