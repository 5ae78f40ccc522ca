/** The customer's appointment list (`src/app/customer/appointments/page.tsx`):
    a status filter over the module-level appointment array, cancellation by
    id, and which actions each row offers. */
module Appointments {
  import opened Common
  import Schedule

  /** One entry of `mockAppointments`; `date` and `time` are display texts. */
  datatype Appointment = Appointment(
    id: int, barber: string, service: string, date: string, time: string,
    status: string, price: int)

  function StatusIs(status: string): Appointment -> bool
  {
    (a: Appointment) => a.status == status
  }

  function IdIs(id: int): Appointment -> bool
  {
    (a: Appointment) => a.id == id
  }

  // ---- the status filter (lines 118-124) ----

  /** The list the filter effect shows: everything for "all", otherwise the
      appointments with exactly that status, each as often as in `all`, in
      their original order. */
  function FilterByStatus(all: seq<Appointment>, filter: string): (r: seq<Appointment>)
    ensures filter == "all" ==> r == all
    ensures filter != "all" ==> forall i :: 0 <= i < |r| ==> r[i].status == filter
    ensures filter != "all" ==> forall a ::
      multiset(r)[a] == if a.status == filter then multiset(all)[a] else 0
    ensures filter != "all" ==> Subsequence(r, all)
  {
    if filter == "all" then all
    else
      var r := Filter(all, StatusIs(filter));
      FilterSubsequence(all, StatusIs(filter));
      assert forall a :: multiset(r)[a] == if a.status == filter then multiset(all)[a] else 0 by {
        forall a ensures multiset(r)[a] == if a.status == filter then multiset(all)[a] else 0 {
          FilterMultiset(all, StatusIs(filter), a);
        }
      }
      r
  }

  // ---- cancellation (lines 126-137) ----

  function Cancelled(a: Appointment): (r: Appointment)
    ensures r.status == "cancelled"
    ensures r.(status := a.status) == a
  {
    a.(status := "cancelled")
  }

  /** `appointments.map(apt => apt.id === id ? {...apt, status: "cancelled"} : apt)`. */
  function CancelById(list: seq<Appointment>, id: int): (r: seq<Appointment>)
    ensures |r| == |list|
    ensures forall i :: 0 <= i < |list| ==>
      if list[i].id == id then r[i] == Cancelled(list[i]) else r[i] == list[i]
  {
    MapWhere(list, IdIs(id), Cancelled)
  }

  /** Cancelling keeps every appointment's id and every field but the status,
      and the status changes only on the rows with that id. */
  lemma CancelOnlyStatus(list: seq<Appointment>, id: int, i: nat)
    requires i < |list|
    ensures CancelById(list, id)[i].(status := list[i].status) == list[i]
    ensures CancelById(list, id)[i].status != list[i].status ==> list[i].id == id
  {
  }

  /** Cancelling the same id twice gives the same list as cancelling it once. */
  lemma CancelIdempotent(list: seq<Appointment>, id: int)
    ensures CancelById(CancelById(list, id), id) == CancelById(list, id)
  {
    var once := CancelById(list, id);
    var twice := CancelById(once, id);
    assert forall i :: 0 <= i < |list| ==> twice[i] == once[i];
  }

  /** No two appointments share an id. */
  predicate UniqueIds(list: seq<Appointment>)
  {
    forall i, j :: 0 <= i < j < |list| ==> list[i].id != list[j].id
  }

  /** With unique ids, the shown-list `map` and the backing-array `find(...)!`
      write agree: both change exactly the one appointment with that id. */
  lemma CancelUniqueIsOneUpdate(list: seq<Appointment>, id: int)
    requires UniqueIds(list)
    ensures FindIndex(list, IdIs(id)) >= 0 ==>
      CancelById(list, id) == list[FindIndex(list, IdIs(id)) := Cancelled(list[FindIndex(list, IdIs(id))])]
    ensures FindIndex(list, IdIs(id)) < 0 ==> CancelById(list, id) == list
  {
    var k := FindIndex(list, IdIs(id));
    if k >= 0 {
      assert IdIs(id)(list[k]);
    } else {
      assert forall i :: 0 <= i < |list| ==> !IdIs(id)(list[i]);
    }
  }

  // ---- the row actions (lines 237-265) ----

  /** A row offers "Reschedule" and "Cancel", or only "Book Again". */
  datatype Actions = RescheduleAndCancel | BookAgain

  function OfferedActions(status: string): (r: Actions)
    ensures r == RescheduleAndCancel <==> status == "confirmed" || status == "pending"
  {
    if status == "confirmed" || status == "pending" then RescheduleAndCancel else BookAgain
  }

  /** After a cancel the cancelled rows offer only "Book Again", so they cannot
      be cancelled again from the list; the other rows offer what they did. */
  lemma CancelledRowsBookAgain(list: seq<Appointment>, id: int, i: nat)
    requires i < |list|
    ensures list[i].id == id ==> OfferedActions(CancelById(list, id)[i].status) == BookAgain
    ensures list[i].id != id ==> OfferedActions(CancelById(list, id)[i].status) == OfferedActions(list[i].status)
  {
  }

  // ---- the page state ----

  /** The page: `backing` is the module-level `mockAppointments` array, which
      the cancel handler writes into; `appointments` is the list on screen. */
  class AppointmentsPage {
    var backing: array<Appointment>
    var filter: string
    var appointments: seq<Appointment>

    /** The page after mounting: filter "all", showing the whole backing array. */
    constructor (data: seq<Appointment>)
      ensures fresh(backing) && backing[..] == data
      ensures filter == "all" && appointments == data
    {
      backing := new Appointment[|data|](i requires 0 <= i < |data| => data[i]);
      filter := "all";
      appointments := data;
    }

    /** Choosing a filter value. The effect runs only when the value changes,
        and then re-reads the backing array. */
    method SetFilter(f: string)
      modifies this
      ensures filter == f && backing == old(backing)
      ensures f == old(filter) ==> appointments == old(appointments)
      ensures f != old(filter) ==> appointments == FilterByStatus(backing[..], f)
    {
      if f != filter {
        filter := f;
        appointments := FilterByStatus(backing[..], f);
      }
    }

    /** `handleCancelAppointment(id)`. The shown list is rewritten by `map`;
        the backing array gets "cancelled" on its first appointment with that id,
        which the `!` requires to exist. Nothing else changes. */
    method Cancel(id: int)
      requires exists k :: 0 <= k < backing.Length && backing[k].id == id
      modifies this, backing
      ensures backing == old(backing) && filter == old(filter)
      ensures appointments == CancelById(old(appointments), id)
      ensures var k := FindIndex(old(backing[..]), IdIs(id));
        0 <= k && backing[..] == old(backing[..])[k := Cancelled(old(backing[..])[k])]
      ensures old(filter == "all" && appointments == backing[..] && UniqueIds(backing[..])) ==>
        appointments == backing[..]
    {
      appointments := CancelById(appointments, id);
      var k := FindIndex(backing[..], IdIs(id));
      assert k >= 0 by {
        var j :| 0 <= j < backing.Length && backing[j].id == id;
        assert IdIs(id)(backing[..][j]);
      }
      ghost var before := backing[..];
      backing[k] := Cancelled(backing[k]);
      if UniqueIds(before) {
        CancelUniqueIsOneUpdate(before, id);
      }
    }
  }

  /** A cancel writes only the appointment list and its backing array: the
      barber's schedule is the same object with the same table afterwards. */
  method CancelLeavesSchedule(page: AppointmentsPage, schedule: Schedule.SchedulePage, id: int)
    requires exists k :: 0 <= k < page.backing.Length && page.backing[k].id == id
    modifies page, page.backing
    ensures schedule.availability == old(schedule.availability)
    ensures schedule.selectedDate == old(schedule.selectedDate)
    ensures page.appointments == CancelById(old(page.appointments), id)
  {
    page.Cancel(id);
  }

  // ---- the mock data (lines 33-88) ----

  function MockAppointments(): seq<Appointment>
  {
    [ Appointment(1, "John Smith", "Haircut & Beard Trim", "2023-06-15", "10:00 AM", "completed", 35),
      Appointment(2, "Mike Johnson", "Haircut", "2023-06-20", "2:30 PM", "confirmed", 25),
      Appointment(3, "David Wilson", "Beard Trim", "2023-06-25", "11:00 AM", "pending", 15),
      Appointment(4, "John Smith", "Hot Towel Shave", "2023-05-10", "3:00 PM", "completed", 20),
      Appointment(5, "Mike Johnson", "Hair Coloring", "2023-05-15", "1:00 PM", "completed", 50),
      Appointment(6, "David Wilson", "Haircut", "2023-05-20", "9:30 AM", "cancelled", 25) ]
  }

  /** The mock ids are unique, so a cancel from the "all" view keeps the list
      and the array in step; only appointments 2 and 3 can be cancelled. */
  lemma MockAppointmentsFacts()
    ensures UniqueIds(MockAppointments())
    ensures forall i :: 0 <= i < 6 ==>
      (OfferedActions(MockAppointments()[i].status) == RescheduleAndCancel <==> i == 1 || i == 2)
  {
  }
}
