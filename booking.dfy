/** The customer's booking form (`src/app/customer/book/page.tsx`): the list of
    start times offered once a date is picked, the all-fields-present gate of
    "Confirm Appointment", and the total shown for the chosen service. */
module Booking {
  import opened Common
  import opened Clock
  import Schedule

  // ---- the offered start times (lines 110-120) ----

  /** Entry `i` of the offered times: hour `9 + i / 2` without zero padding,
      then ":00" on even positions and ":30" on odd ones. */
  function GridEntry(i: nat): string
  {
    NatText(9 + i / 2) + (if i % 2 == 0 then ":00" else ":30")
  }

  /** The times the loop produces: "9:00", "9:30", ..., "17:30", "18:00". */
  function BookingGrid(): seq<string>
  {
    seq(19, i requires 0 <= i < 19 => GridEntry(i))
  }

  /** The loop `for (hour = 9; hour <= 18; hour++)` pushing "H:00", and "H:30"
      while the hour is below 18. */
  method GenerateTimes() returns (times: seq<string>)
    ensures times == BookingGrid()
  {
    times := [];
    var hour := 9;
    while hour <= 18
      invariant 9 <= hour <= 19
      invariant |times| == if hour <= 18 then 2 * (hour - 9) else 19
      invariant forall i :: 0 <= i < |times| ==> times[i] == GridEntry(i)
    {
      times := times + [NatText(hour) + ":00"];
      if hour < 18 {
        times := times + [NatText(hour) + ":30"];
      }
      hour := hour + 1;
    }
  }

  /** Entry `i` reads as 9:00 plus `30 * i` minutes. */
  lemma GridEntryMinutes(i: nat)
    requires i < 19
    ensures ClockMinutes(GridEntry(i)) == Some(540 + 30 * i)
  {
    var h := 9 + i / 2;
    if i % 2 == 0 {
      OnTheHour(h);
      assert GridEntry(i) == NatText(h) + ":00";
      assert i == 2 * (i / 2);
    } else {
      HalfPast(h);
      assert GridEntry(i) == NatText(h) + ":30";
      assert i == 2 * (i / 2) + 1;
    }
  }

  /** 19 times from "9:00" to "18:00"; read as minutes since midnight they start
      at 540 and go up in steps of 30, so they are strictly increasing. */
  lemma BookingGridMinutes()
    ensures |BookingGrid()| == 19
    ensures BookingGrid()[0] == "9:00" && BookingGrid()[18] == "18:00"
    ensures forall i :: 0 <= i < 19 ==> ClockMinutes(BookingGrid()[i]) == Some(540 + 30 * i)
    ensures forall i, j :: 0 <= i < j < 19 ==>
      ClockMinutes(BookingGrid()[i]).value < ClockMinutes(BookingGrid()[j]).value
  {
    forall i | 0 <= i < 19 ensures ClockMinutes(BookingGrid()[i]) == Some(540 + 30 * i) {
      GridEntryMinutes(i);
    }
    assert NatText(9) == "9";
    assert NatText(18) == "18";
  }

  /** A time outside 9:00..18:00 is not offered. */
  lemma OutsideGrid(t: string, m: int)
    requires ClockMinutes(t) == Some(m) && (m < 540 || m > 1080)
    ensures t !in BookingGrid()
  {
    var g := BookingGrid();
    forall i | 0 <= i < 19 ensures g[i] != t {
      GridEntryMinutes(i);
    }
  }

  lemma GridHasHour(h: nat)
    requires 9 <= h <= 18
    ensures NatText(h) + ":00" in BookingGrid()
    ensures h < 18 ==> NatText(h) + ":30" in BookingGrid()
  {
    var g := BookingGrid();
    var k := 2 * (h - 9);
    assert k / 2 == h - 9 && k % 2 == 0;
    assert GridEntry(k) == NatText(h) + ":00";
    assert g[k] == GridEntry(k);
    if h < 18 {
      assert (k + 1) / 2 == h - 9 && (k + 1) % 2 == 1;
      assert GridEntry(k + 1) == NatText(h) + ":30";
      assert g[k + 1] == GridEntry(k + 1);
    }
  }

  lemma NoHalfPastSix()
    ensures NatText(18) + ":30" !in BookingGrid()
  {
    HalfPast(18);
    OutsideGrid(NatText(18) + ":30", 1110);
  }

  /** For each hour 9..18 the grid holds "H:00", and it holds "H:30" exactly
      when the hour is below 18. */
  lemma BookingGridHours(h: nat)
    requires 9 <= h <= 18
    ensures NatText(h) + ":00" in BookingGrid()
    ensures NatText(h) + ":30" in BookingGrid() <==> h < 18
  {
    GridHasHour(h);
    NoHalfPastSix();
  }

  /** Entry `i < 18` of both grids reads as the same time; the texts agree
      exactly from 10:00 on, where the padded hour has two digits anyway. */
  lemma GridEntryAgainstOption(i: nat)
    requires i < 18
    ensures ClockMinutes(BookingGrid()[i]) == ClockMinutes(Schedule.TimeOptions()[i])
    ensures BookingGrid()[i] == Schedule.TimeOptions()[i] <==> i >= 2
  {
    var g, o := BookingGrid(), Schedule.TimeOptions();
    GridEntryMinutes(i);
    Schedule.TimeOptionMinutes(i);
    var h := 9 + i / 2;
    assert g[i] == NatText(h) + (if i % 2 == 0 then ":00" else ":30");
    if i >= 2 {
      assert Pad2(h) == NatText(h);
      assert o[i] == Pad2(h) + ":" + (if i % 2 == 0 then "00" else "30");
    } else {
      assert NatText(9) == "9";
      assert |g[i]| == 4 && |o[i]| == 5;
    }
  }

  /** The booking times and the schedule's time options name the same moments
      position by position, but the schedule pads the hour: the texts agree only
      from 10:00 on, so "9:00" and "9:30" are keys the schedule never uses, and
      "18:00" has no schedule option at all. */
  lemma GridsDisagreeBeforeTen()
    ensures forall i :: 0 <= i < 18 ==>
      ClockMinutes(BookingGrid()[i]) == ClockMinutes(Schedule.TimeOptions()[i])
    ensures forall i :: 0 <= i < 18 ==> (BookingGrid()[i] == Schedule.TimeOptions()[i] <==> i >= 2)
    ensures "9:00" !in Schedule.TimeOptions() && "9:30" !in Schedule.TimeOptions()
    ensures "18:00" in BookingGrid() && "18:00" !in Schedule.TimeOptions()
  {
    var o := Schedule.TimeOptions();
    forall i | 0 <= i < 18
      ensures ClockMinutes(BookingGrid()[i]) == ClockMinutes(o[i])
      ensures BookingGrid()[i] == o[i] <==> i >= 2
    {
      GridEntryAgainstOption(i);
    }
    OptionShapes();
    BookingGridMinutes();
  }

  /** Every schedule option has five characters and none is "18:00". */
  lemma OptionShapes()
    ensures forall i :: 0 <= i < 18 ==>
      |Schedule.TimeOptions()[i]| == 5 && Schedule.TimeOptions()[i] != "18:00"
  {
    assert ClockMinutes("18:00") == Some(1080) by {
      TwoDigits("18");
      TwoDigits("00");
      ClockMinutesOf("18", "00", 18, 0);
      assert "18" + ":" + "00" == "18:00";
    }
    forall i | 0 <= i < 18
      ensures |Schedule.TimeOptions()[i]| == 5 && Schedule.TimeOptions()[i] != "18:00"
    {
      Schedule.TimeOptionMinutes(i);
    }
  }

  // ---- the service total (lines 334-339) ----

  /** An entry of `mockServices`. */
  datatype Service = Service(id: int, name: string, price: int, duration: int)

  function ServiceIdIs(id: int): Service -> bool
  {
    (s: Service) => s.id == id
  }

  /** The "Total" row: hidden, or shown with the price `find` returned
      (`None` when no service has the selected id, shown as an empty amount). */
  datatype TotalRow = Hidden | Shown(price: Option<int>)

  /** `selectedService && mockServices.find(s => s.id === selectedService)?.price`. */
  function Total(services: seq<Service>, selected: Option<int>): (r: TotalRow)
    ensures r.Shown? <==> Chosen(selected)
    ensures r.Shown? && r.price.Some? ==>
      exists k :: 0 <= k < |services| && services[k].id == selected.value && r.price.value == services[k].price
    ensures r.Shown? && r.price.None? ==>
      forall k :: 0 <= k < |services| ==> services[k].id != selected.value
  {
    if !Chosen(selected) then Hidden
    else
      var k := FindIndex(services, ServiceIdIs(selected.value));
      if k < 0 then Shown(None) else Shown(Some(services[k].price))
  }

  /** Ids are unique in a service list. */
  predicate UniqueIds(services: seq<Service>)
  {
    forall i, j :: 0 <= i < j < |services| ==> services[i].id != services[j].id
  }

  /** With unique ids, the total is the price of the one service carrying the selected id. */
  lemma TotalIsSelectedPrice(services: seq<Service>, k: nat)
    requires UniqueIds(services) && k < |services| && services[k].id != 0
    ensures Total(services, Some(services[k].id)) == Shown(Some(services[k].price))
  {
    var f := FindIndex(services, ServiceIdIs(services[k].id));
    assert ServiceIdIs(services[k].id)(services[k]);
    assert f >= 0 ==> ServiceIdIs(services[k].id)(services[f]);
  }

  function MockServices(): seq<Service>
  {
    [ Service(1, "Haircut", 25, 30),
      Service(2, "Beard Trim", 15, 20),
      Service(3, "Hair & Beard", 35, 50),
      Service(4, "Hot Towel Shave", 20, 30),
      Service(5, "Hair Coloring", 50, 60) ]
  }

  /** The offered services show totals 25, 15, 35, 20 and 50; an id outside 1..5
      shows the row with no amount. */
  lemma MockTotals(id: int)
    requires id != 0
    ensures 1 <= id <= 5 ==> Total(MockServices(), Some(id)) == Shown(Some([25, 15, 35, 20, 50][id - 1]))
    ensures !(1 <= id <= 5) ==> Total(MockServices(), Some(id)) == Shown(None)
  {
    var s := MockServices();
    var prices := [25, 15, 35, 20, 50];
    assert forall k :: 0 <= k < 5 ==> s[k].id == k + 1 && s[k].price == prices[k];
    if 1 <= id <= 5 {
      assert UniqueIds(s);
      TotalIsSelectedPrice(s, id - 1);
    }
  }

  // ---- the selection state and the gate ----

  /** JavaScript truthiness of a `number | null` selection: null and 0 are falsy. */
  predicate Chosen(x: Option<int>)
  {
    x.Some? && x.value != 0
  }

  /** Truthiness of the `string | null` time: null and "" are falsy. */
  predicate TimeChosen(t: Option<string>)
  {
    t.Some? && t.value != ""
  }

  /** The state of the booking page. `selectedDate` is the picked day (a `Date`
      object, always truthy when present) kept as an opaque text. */
  class BookingPage {
    var selectedBarber: Option<int>
    var selectedService: Option<int>
    var selectedDate: Option<string>
    var selectedTime: Option<string>
    var availableTimes: seq<string>
    var isBooking: bool

    /** The page after mounting: today selected, so the date effect has filled the times. */
    constructor (today: string)
      ensures selectedBarber == None && selectedService == None && selectedTime == None
      ensures selectedDate == Some(today) && availableTimes == BookingGrid() && !isBooking
    {
      selectedBarber := None;
      selectedService := None;
      selectedDate := Some(today);
      selectedTime := None;
      var times := GenerateTimes();
      availableTimes := times;
      isBooking := false;
    }

    /** The check at the top of `handleBookAppointment`: all four fields are truthy. */
    predicate ReadyToBook()
      reads this
    {
      Chosen(selectedBarber) && Chosen(selectedService) && selectedDate.Some? && TimeChosen(selectedTime)
    }

    /** The `disabled` condition of "Confirm Appointment": the button can be
        clicked only when a click would start a booking and none is running. */
    function ConfirmDisabled(): (r: bool)
      reads this
      ensures !r <==> ReadyToBook() && !isBooking
    {
      !Chosen(selectedBarber) || !Chosen(selectedService) || selectedDate.None?
        || !TimeChosen(selectedTime) || isBooking
    }

    /** Picking a date (or clearing it). The effect on `selectedDate` refills the
        times with the fixed grid whenever a date is present; it reads no other field. */
    method SelectDate(date: Option<string>)
      modifies this
      ensures selectedDate == date
      ensures availableTimes == if date.Some? then BookingGrid() else old(availableTimes)
      ensures selectedBarber == old(selectedBarber) && selectedService == old(selectedService)
      ensures selectedTime == old(selectedTime) && isBooking == old(isBooking)
    {
      selectedDate := date;
      if date.Some? {
        var times := GenerateTimes();
        availableTimes := times;
      }
    }

    /** Clicking a barber, a service or a time sets that field and nothing else;
        in particular the offered times do not depend on them. */
    method SelectBarber(id: int)
      modifies this
      ensures selectedBarber == Some(id)
      ensures selectedService == old(selectedService) && selectedDate == old(selectedDate)
      ensures selectedTime == old(selectedTime) && availableTimes == old(availableTimes)
      ensures isBooking == old(isBooking)
    {
      selectedBarber := Some(id);
    }

    method SelectService(id: int)
      modifies this
      ensures selectedService == Some(id)
      ensures selectedBarber == old(selectedBarber) && selectedDate == old(selectedDate)
      ensures selectedTime == old(selectedTime) && availableTimes == old(availableTimes)
      ensures isBooking == old(isBooking)
    {
      selectedService := Some(id);
    }

    method SelectTime(time: string)
      modifies this
      ensures selectedTime == Some(time)
      ensures selectedBarber == old(selectedBarber) && selectedService == old(selectedService)
      ensures selectedDate == old(selectedDate) && availableTimes == old(availableTimes)
      ensures isBooking == old(isBooking)
    {
      selectedTime := Some(time);
    }

    /** `handleBookAppointment`: rejected (the error toast), leaving `isBooking`
        as it was, when a field is unset; otherwise the booking starts. Nothing
        is written to any schedule: the only effect is the `isBooking` flag. */
    method BookAppointment() returns (accepted: bool)
      modifies this
      ensures accepted <==> old(ReadyToBook())
      ensures isBooking == (accepted || old(isBooking))
      ensures selectedBarber == old(selectedBarber) && selectedService == old(selectedService)
      ensures selectedDate == old(selectedDate) && selectedTime == old(selectedTime)
      ensures availableTimes == old(availableTimes)
    {
      if !Chosen(selectedBarber) || !Chosen(selectedService) || selectedDate.None? || !TimeChosen(selectedTime) {
        return false;
      }
      isBooking := true;
      return true;
    }

    /** The timer callback 1500 ms later: the booking is over (the success toast
        and the navigation are not modelled). */
    method FinishBooking()
      modifies this
      ensures !isBooking
      ensures selectedBarber == old(selectedBarber) && selectedService == old(selectedService)
      ensures selectedDate == old(selectedDate) && selectedTime == old(selectedTime)
      ensures availableTimes == old(availableTimes)
    {
      isBooking := false;
    }

  }
}
