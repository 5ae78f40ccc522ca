# Barber-shop scheduling pages in Dafny

This project models the logic inside five pages of a Next.js barber-shop demo. All state is in memory and every operation is a React event handler.

- **Barber schedule** (`src/app/barber/schedule/page.tsx`):
  - State: a table from a date text "yyyy-MM-dd" to that day's slots `{time, available, customer?}`.
  - The barber toggles a slot's availability, or adds a time picked from a grid of 18 half-hour options ("09:00" … "17:30").
  - Adding a time pushes a slot and re-sorts the day with `localeCompare`.
  - A weekly overview shows up to three booked slots per day, plus a "+N more" line.
- **Booking form** (`src/app/customer/book/page.tsx`):
  - Picking a date fills a second, unpadded grid of 19 start times ("9:00" … "18:00").
  - "Confirm Appointment" is gated on barber, service, date and time all being chosen.
  - The summary shows the chosen service's price.
- **Appointment list** (`src/app/customer/appointments/page.tsx`):
  - A status filter re-reads the module-level appointment array.
  - Cancelling rewrites the shown list and also writes into that array.
  - Rows offer "Reschedule"/"Cancel" or "Book Again" by status.
- **Admin barber and service lists** (`src/app/admin/barbers/page.tsx`, `src/app/admin/services/page.tsx`):
  - Add, with required fields and `id = length + 1`.
  - Edit, which loads a record into the form.
  - Update by the remembered id.
  - Delete after confirmation.
  - The active/inactive switch.

Each page's state is a class whose fields are the page's `useState` variables, with one method per handler. Each list transformation is a function over `seq`, with lemmas. The step-by-step code is imperative Dafny:
- on the schedule page, the push and the in-place sort of `handleAddTimeSlot` work on an array holding the day's slots and the new one; the sort is an insertion sort, proved sorted and a permutation;
- on the booking page, the `for` loop that fills the time grid is a method with a loop.

`localeCompare` is modelled as code-point lexicographic order (`Clock.Before`). On the zero-padded "HH:MM" texts of the schedule, this order is proved to equal the order of the times.

Facts about the pages that the model records:
- **Slot states.** A slot has only `available` plus an optional customer; there are no further slot states.
- **Booking.** The booking form writes nothing to any schedule; it only sets `isBooking`. It books one time and never checks for conflicts.
- **Toggling a booked slot.** The toggle frees it and drops the customer (`Schedule.ToggleTwiceDropsCustomer`).
- **Cancelling.** A cancel changes only the appointment's status and frees no barber slot (`Appointments.CancelLeavesSchedule`).
- **Ids.** The admin lists do not keep ids unique (`AdminBarbers.DuplicateIdAfterDelete`).

Modules:
- **`Common`**: `findIndex`, `filter` and conditional `map`, and the admin status switch.
- **`Clock`**: string order, decimal text, and reading "H:MM" as minutes.
- **`Schedule`**, **`Booking`** and **`Appointments`**: one module per customer or barber page.
- **`AdminBarbers`** and **`AdminServices`**: one module per admin page.

## Model

| member | source | states |
|---|---|---|
| Common.FindIndex | src/app/barber/schedule/page.tsx:131 | -1 exactly when no element satisfies the condition; otherwise the element at the index satisfies it and no earlier one does |
| Common.Filter | src/app/customer/appointments/page.tsx:122 | the result is no longer than the input and holds only input elements that satisfy the condition |
| Common.FilterAppend | src/app/customer/appointments/page.tsx:122 | filtering a concatenation is the concatenation of the filtered parts, so relative order is kept |
| Common.FilterSubsequence | src/app/customer/appointments/page.tsx:122 | the filtered list is a subsequence of the input: its elements appear there in the same order |
| Common.FilterMultiset | src/app/customer/appointments/page.tsx:122 | each value occurs in the result as often as in the input if it satisfies the condition, and never otherwise |
| Common.FilterMembership | src/app/customer/appointments/page.tsx:122 | a value is in the result exactly when it is in the input and satisfies the condition |
| Common.FilterAll | src/app/admin/barbers/page.tsx:187 | a filter every element passes returns the list unchanged |
| Common.MapWhere | src/app/customer/appointments/page.tsx:128-130 | same length; each element is rewritten exactly when the condition holds for it, the rest are kept |
| Common.FilterCountUpdate | src/app/barber/schedule/page.tsx:354-357 | replacing one element changes the number of kept elements by (new one kept) minus (old one kept) |
| Common.FlipStatus | src/app/admin/barbers/page.tsx:193 | the result is "active" or "inactive", and it is "inactive" exactly when the input was "active" |
| Clock.Before | src/app/barber/schedule/page.tsx:163-164 | definition of the comparator `a.time.localeCompare(b.time) < 0` as code-point lexicographic order; properties in the `Before*` lemmas below and `Clock.PaddedBeforeIsEarlier` |
| Clock.BeforeIrreflexive | src/app/barber/schedule/page.tsx:163-164 | no time text sorts before itself |
| Clock.BeforeTransitive | src/app/barber/schedule/page.tsx:163-164 | the sort comparator's strict order is transitive |
| Clock.BeforeTotal | src/app/barber/schedule/page.tsx:163-164 | of two different texts one sorts before the other |
| Clock.BeforeAsymmetric | src/app/barber/schedule/page.tsx:163-164 | if a sorts before b, b does not sort before a |
| Clock.NotAfterTransitive | src/app/barber/schedule/page.tsx:163-164 | "compare <= 0" is transitive, so an ascending sort is well defined |
| Clock.NatText | src/app/customer/book/page.tsx:115 | `${hour}` is a non-empty digit string, one digit exactly below 10 and two digits from 10 to 99 |
| Clock.ParseNatText | src/app/customer/book/page.tsx:115 | reading the decimal text of n back gives n |
| Clock.Pad2 | src/app/barber/schedule/page.tsx:260 | definition of `hour.toString().padStart(2, "0")`; properties in `Clock.Pad2Value` |
| Clock.Pad2Value | src/app/barber/schedule/page.tsx:260 | `padStart(2, "0")` keeps the value and gives two digits below 100 |
| Clock.ClockMinutesOf | src/app/customer/book/page.tsx:115-116 | an hour text, ":" and a minute text read as hours * 60 + minutes |
| Clock.PaddedMinutes | src/app/barber/schedule/page.tsx:260 | a zero-padded "HH:MM" text reads as a time of day in minutes |
| Clock.PaddedBeforeIsEarlier | src/app/barber/schedule/page.tsx:163-164 | on zero-padded "HH:MM" texts, sorting with the string comparator is sorting by time of day |
| Schedule.SlotsFor | src/app/barber/schedule/page.tsx:175-178 | the stored list for a date, or the empty list when the date has no entry |
| Schedule.ToggleDay | src/app/barber/schedule/page.tsx:131-137 | definition of the toggle of a day: the first slot with the time is toggled; properties in `Schedule.ToggleFirstMatch`, `Schedule.ToggleAbsent`, `Schedule.ToggleKeepsTimes`, `Schedule.ToggleKeepsValid` and `Schedule.ToggleTwiceRestores` |
| Schedule.ToggleSlot | src/app/barber/schedule/page.tsx:133-137 | the time is kept and `available` flips; a slot that becomes available has no customer, and one that becomes unavailable keeps its customer (none is added) |
| Schedule.ToggleAbsent | src/app/barber/schedule/page.tsx:131-132 | toggling a time the day does not hold changes nothing |
| Schedule.ToggleFirstMatch | src/app/barber/schedule/page.tsx:131-133 | exactly the first slot with the time is toggled; every other slot is unchanged |
| Schedule.ToggleKeepsTimes | src/app/barber/schedule/page.tsx:131-137 | a toggle keeps the length and every slot's time |
| Schedule.ToggleKeepsValid | src/app/barber/schedule/page.tsx:133-137 | a day ordered without duplicate times, where no available slot names a customer, stays so after a toggle |
| Schedule.ToggleTwiceRestores | src/app/barber/schedule/page.tsx:133-137 | toggling a customer-less time twice restores the day |
| Schedule.ToggleTwiceDropsCustomer | src/app/barber/schedule/page.tsx:135-136 | toggling a booked slot twice does not restore it: it comes back unavailable with no customer |
| Schedule.IsBooked | src/app/barber/schedule/page.tsx:345 | definition of the overview's condition `!slot.available && slot.customer`; used by `Schedule.BookedSlots` |
| Schedule.BookedSlots | src/app/barber/schedule/page.tsx:344-345 | definition: the day's booked slots in day order; properties in `Schedule.WeekCell` and `Schedule.ToggleBookedCount` |
| Schedule.WeekCell | src/app/barber/schedule/page.tsx:343-357 | the first three booked slots are shown in day order (all of them when there are fewer); the "+more" count is the rest and is positive exactly when there are more than three |
| Schedule.WeekCellAfterToggle | src/app/barber/schedule/page.tsx:343-357 | in a consistent day, toggling a booked slot removes one booking from the cell (shown plus "+more"), toggling any other slot leaves the cell's total alone |
| Schedule.ToggleBookedCount | src/app/barber/schedule/page.tsx:343-357 | in a consistent day, a toggle lowers the overview's booked count by one exactly when it hits a booked slot, and otherwise keeps it |
| Schedule.NewSlot | src/app/barber/schedule/page.tsx:157-160 | the pushed slot has the chosen time, is available and names no customer |
| Schedule.InsertByTimeElements | src/app/barber/schedule/page.tsx:157-165 | inserting adds exactly the one new slot to the day's slots |
| Schedule.InsertByTimeOrdered | src/app/barber/schedule/page.tsx:157-165 | inserting a new time into a day ordered without duplicates keeps it ordered without duplicates |
| Schedule.OrderedIsUnique | src/app/barber/schedule/page.tsx:163-165 | an ordered day without duplicate times is the only sorted arrangement of its slots, so any correct sort gives it |
| Schedule.AddedSlotOrdered | src/app/barber/schedule/page.tsx:154-166 | on an ordered day without duplicates, adding a present time changes nothing; adding a new one inserts it in place, one slot longer, still without duplicates |
| Schedule.AddedSlotConsistent | src/app/barber/schedule/page.tsx:157-160 | adding a slot keeps "an available slot names no customer" |
| Schedule.SinkInto | src/app/barber/schedule/page.tsx:163-165 | one insertion step extends the sorted prefix by one element and permutes the array |
| Schedule.SortByTime | src/app/barber/schedule/page.tsx:163-165 | the in-place sort leaves the array ascending by time and a permutation of its old contents |
| Schedule.AddToDay | src/app/barber/schedule/page.tsx:154-166 | a present time leaves the list as it is; otherwise the result is sorted and holds the old slots plus the new one |
| Schedule.TimeOptions | src/app/barber/schedule/page.tsx:257-261 | definition of the 18 time options; properties in `Schedule.TimeOptionMinutes` and `Schedule.TimeOptionsOrdered` |
| Schedule.TimeOptionMinutes | src/app/barber/schedule/page.tsx:257-260 | option i is a zero-padded "HH:MM" text reading 09:00 plus 30 * i minutes |
| Schedule.TimeOptionsOrdered | src/app/barber/schedule/page.tsx:257-261 | there are 18 options, from "09:00" to "17:30", in strictly increasing order |
| Schedule.SchedulePage.constructor | src/app/barber/schedule/page.tsx:97-101 | the page starts with the given table and date, an empty time choice and the dialog closed |
| Schedule.SchedulePage.GetSlotsForDate | src/app/barber/schedule/page.tsx:175-178 | the stored list for the date, or the empty list |
| Schedule.SchedulePage.ToggleAvailability | src/app/barber/schedule/page.tsx:124-142 | only the date's entry changes (a missing date gains an empty list); the first matching slot is toggled; a valid table stays valid |
| Schedule.SchedulePage.AddTimeSlot | src/app/barber/schedule/page.tsx:144-173 | an empty choice does nothing; otherwise only the selected date's entry changes as described by `AddedSlot`, the choice is cleared and the dialog closed; a valid table stays valid |
| Schedule.HalfHourGridOrdered | src/app/barber/schedule/page.tsx:43-84 | a day whose times are the padded half-hour steps from 09:00 in list order is strictly ordered |
| Schedule.MockAvailability | src/app/barber/schedule/page.tsx:43-84 | definition of the initial table (two days of 18 slots); properties in `Schedule.MockAvailabilityValid` |
| Schedule.MockJune12Grid | src/app/barber/schedule/page.tsx:44-63 | the first mock day lists 09:00 … 17:30 in half-hour steps |
| Schedule.MockJune13Grid | src/app/barber/schedule/page.tsx:64-83 | the second mock day lists 09:00 … 17:30 in half-hour steps |
| Schedule.MockAvailabilityValid | src/app/barber/schedule/page.tsx:43-84 | the initial table is valid: each day strictly ordered, and no available slot names a customer |
| Booking.GridEntry | src/app/customer/book/page.tsx:115-116 | definition of entry `i`: hour `9 + i / 2` unpadded, then ":00" or ":30"; properties in `Booking.GridEntryMinutes` |
| Booking.BookingGrid | src/app/customer/book/page.tsx:113-117 | definition: the 19 entries in order; properties in `Booking.BookingGridMinutes` and `Booking.BookingGridHours` |
| Booking.GenerateTimes | src/app/customer/book/page.tsx:113-117 | the loop produces exactly the booking grid |
| Booking.GridEntryMinutes | src/app/customer/book/page.tsx:114-116 | entry i reads as 9:00 plus 30 * i minutes |
| Booking.BookingGridMinutes | src/app/customer/book/page.tsx:113-117 | 19 entries from "9:00" to "18:00", 30 minutes apart, strictly increasing as times of day |
| Booking.OutsideGrid | src/app/customer/book/page.tsx:114-116 | a time before 9:00 or after 18:00 is never offered |
| Booking.GridHasHour | src/app/customer/book/page.tsx:114-116 | each hour 9..18 has its ":00" entry, and hours below 18 their ":30" entry |
| Booking.NoHalfPastSix | src/app/customer/book/page.tsx:116 | "18:30" is not offered |
| Booking.BookingGridHours | src/app/customer/book/page.tsx:114-116 | for each hour 9..18 "H:00" is offered, and "H:30" is offered exactly when the hour is below 18 |
| Booking.GridEntryAgainstOption | src/app/customer/book/page.tsx:115 | position i of the booking grid and of the schedule options name the same time, and the texts are equal exactly from position 2 (10:00) on |
| Booking.GridsDisagreeBeforeTen | src/app/customer/book/page.tsx:113-117 | the two grids agree on times but "9:00" and "9:30" are not schedule keys, and "18:00" is offered for booking but is no schedule option |
| Booking.OptionShapes | src/app/barber/schedule/page.tsx:257-261 | every schedule option has five characters, and none is "18:00" |
| Booking.Total | src/app/customer/book/page.tsx:334-339 | the total row is shown exactly when a service is chosen; its amount is the price of a service with that id, or empty when no service has it |
| Booking.TotalIsSelectedPrice | src/app/customer/book/page.tsx:337-339 | with unique ids, the total is the price of the selected service |
| Booking.MockServices | src/app/customer/book/page.tsx:61-97 | definition of the five services the form offers; properties in `Booking.MockTotals` |
| Booking.MockTotals | src/app/customer/book/page.tsx:61-97 | services 1 to 5 show totals 25, 15, 35, 20 and 50; other ids show no amount |
| Booking.BookingPage.constructor | src/app/customer/book/page.tsx:102-120 | after mounting nothing is chosen but today's date, the grid is filled and no booking runs |
| Booking.BookingPage.ReadyToBook | src/app/customer/book/page.tsx:144 | definition of the gate: barber, service, date and time all truthy; used by `Booking.BookingPage.ConfirmDisabled` and `Booking.BookingPage.BookAppointment` |
| Booking.BookingPage.ConfirmDisabled | src/app/customer/book/page.tsx:348 | the button is enabled exactly when the booking gate would pass and no booking is in progress |
| Booking.BookingPage.SelectDate | src/app/customer/book/page.tsx:110-120 | a picked date refills the times with the fixed grid; no other field is read or changed |
| Booking.BookingPage.SelectBarber | src/app/customer/book/page.tsx:188 | sets the barber only; the offered times are unchanged |
| Booking.BookingPage.SelectService | src/app/customer/book/page.tsx:230 | sets the service only; the offered times are unchanged |
| Booking.BookingPage.SelectTime | src/app/customer/book/page.tsx:284 | sets the time only; the offered times are unchanged |
| Booking.BookingPage.BookAppointment | src/app/customer/book/page.tsx:143-150 | accepted exactly when barber, service, date and time are all set; a rejection leaves `isBooking` as it was, an acceptance sets it; nothing else changes |
| Booking.BookingPage.FinishBooking | src/app/customer/book/page.tsx:152-156 | the timer ends the booking and changes nothing else |
| Appointments.FilterByStatus | src/app/customer/appointments/page.tsx:118-124 | "all" gives the whole list; any other value gives exactly the appointments with that status, each as often as before and in their original order (a subsequence of the input) |
| Appointments.Cancelled | src/app/customer/appointments/page.tsx:129 | the copy has status "cancelled" and every other field unchanged |
| Appointments.CancelById | src/app/customer/appointments/page.tsx:128-130 | same length; rows with the id become cancelled, the other rows are unchanged |
| Appointments.CancelOnlyStatus | src/app/customer/appointments/page.tsx:128-130 | a cancel changes no field but the status, and the status only on rows with that id |
| Appointments.CancelIdempotent | src/app/customer/appointments/page.tsx:128-130 | cancelling the same id twice equals cancelling it once |
| Appointments.CancelUniqueIsOneUpdate | src/app/customer/appointments/page.tsx:128-133 | with unique ids, the list `map` and the array write change the same single appointment |
| Appointments.OfferedActions | src/app/customer/appointments/page.tsx:237-265 | "Reschedule" and "Cancel" exactly for "confirmed" and "pending", otherwise only "Book Again" |
| Appointments.CancelledRowsBookAgain | src/app/customer/appointments/page.tsx:237-265 | after a cancel the cancelled rows offer only "Book Again", and other rows offer what they did |
| Appointments.AppointmentsPage.constructor | src/app/customer/appointments/page.tsx:93-94 | the page starts on "all" showing the whole backing array |
| Appointments.AppointmentsPage.SetFilter | src/app/customer/appointments/page.tsx:118-124 | an unchanged value changes nothing; a new value shows the backing array filtered by it |
| Appointments.AppointmentsPage.Cancel | src/app/customer/appointments/page.tsx:126-137 | the shown list is cancelled by id; the array changes only at its first appointment with the id; under "all" with unique ids, list and array stay equal |
| Appointments.CancelLeavesSchedule | src/app/customer/appointments/page.tsx:126-137 | a cancel leaves the barber's availability table untouched |
| Appointments.MockAppointments | src/app/customer/appointments/page.tsx:33-88 | definition of the six initial appointments; properties in `Appointments.MockAppointmentsFacts` |
| Appointments.MockAppointmentsFacts | src/app/customer/appointments/page.tsx:33-88 | the mock ids are unique and only appointments 2 and 3 offer cancelling |
| AdminBarbers.NewBarber | src/app/admin/barbers/page.tsx:133-139 | the new record has the given id, the form's fields, rating 0, status "active" and 0 appointments |
| AdminBarbers.WithForm | src/app/admin/barbers/page.tsx:171 | the form's fields replace the record's; id, rating, status and appointments are kept |
| AdminBarbers.UpdateById | src/app/admin/barbers/page.tsx:170-172 | same length; records with the id take the form, all others are unchanged |
| AdminBarbers.DeleteById | src/app/admin/barbers/page.tsx:187 | no record with the id is left, every other record is kept as often as before, and the result keeps the input's order (a subsequence of it) |
| AdminBarbers.ToggleById | src/app/admin/barbers/page.tsx:192-194 | same length; records with the id get the flipped status, all others are unchanged |
| AdminBarbers.AddKeepsDenseIds | src/app/admin/barbers/page.tsx:133-141 | if ids are 1..n, adding keeps them 1..n+1 and unique |
| AdminBarbers.DeleteAbsent | src/app/admin/barbers/page.tsx:187 | deleting an id no record has changes nothing |
| AdminBarbers.DeleteSecondOfFour | src/app/admin/barbers/page.tsx:187 | deleting the id held only by the second of four records keeps the other three in order |
| AdminBarbers.DuplicateIdAfterDelete | src/app/admin/barbers/page.tsx:134 | with ids 1..4 and barber 4 active, deleting barber 2 and adding one gives the new record id 4 again, ids are no longer unique, and toggling id 4 flips both records to "inactive" |
| AdminBarbers.MockBarbers | src/app/admin/barbers/page.tsx:44-89 | definition of the four initial barbers; properties in `AdminBarbers.MockBarbersDense` |
| AdminBarbers.MockBarbersDense | src/app/admin/barbers/page.tsx:44-89 | the initial four barbers have ids 1..4 and barber 4 is active, so the duplicate-id run above happens on the initial list |
| AdminBarbers.UpdateWithOwnForm | src/app/admin/barbers/page.tsx:152-172 | with unique ids, saving the form an edit loaded gives the list back |
| AdminBarbers.ToggleTwice | src/app/admin/barbers/page.tsx:192-194 | toggling an id twice restores "active" and "inactive" records; any other status ends "inactive" |
| AdminBarbers.BarbersPage.constructor | src/app/admin/barbers/page.tsx:94-104 | the page starts with the list, an empty form, nothing remembered and both dialogs closed |
| AdminBarbers.BarbersPage.AddBarber | src/app/admin/barbers/page.tsx:127-150 | rejected, changing nothing, when name or email is empty; otherwise appends one record with id length + 1, resets the form, closes the dialog, and keeps dense ids dense |
| AdminBarbers.BarbersPage.EditBarber | src/app/admin/barbers/page.tsx:152-162 | remembers the record, loads its five fields into the form and opens the edit dialog |
| AdminBarbers.BarbersPage.UpdateBarber | src/app/admin/barbers/page.tsx:164-183 | rejected when name or email is empty; fails without change when nothing is remembered and the list is non-empty; otherwise updates by the remembered id and resets form, record and dialog |
| AdminBarbers.BarbersPage.DeleteBarber | src/app/admin/barbers/page.tsx:185-189 | a confirmed delete removes the id; a declined one changes nothing |
| AdminBarbers.BarbersPage.ToggleStatus | src/app/admin/barbers/page.tsx:191-195 | the list becomes its toggle by id; nothing else changes |
| AdminServices.NewService | src/app/admin/services/page.tsx:133-137 | the new record has the given id, the form's fields and status "active" |
| AdminServices.WithForm | src/app/admin/services/page.tsx:169 | the form's fields replace the record's; id and status are kept |
| AdminServices.UpdateById | src/app/admin/services/page.tsx:168-170 | same length; records with the id take the form, all others are unchanged |
| AdminServices.DeleteById | src/app/admin/services/page.tsx:185 | no record with the id is left, every other record is kept as often as before, and the result keeps the input's order (a subsequence of it) |
| AdminServices.ToggleById | src/app/admin/services/page.tsx:190-192 | same length; records with the id get the flipped status, all others are unchanged |
| AdminServices.AddKeepsDenseIds | src/app/admin/services/page.tsx:133-139 | if ids are 1..n, adding keeps them 1..n+1 and unique |
| AdminServices.DuplicateIdAfterDelete | src/app/admin/services/page.tsx:134 | deleting record 1 of [1, 2] and adding gives two records with id 2 |
| AdminServices.UpdateWithOwnForm | src/app/admin/services/page.tsx:150-170 | with unique ids, saving the form an edit loaded gives the list back |
| AdminServices.ToggleTwice | src/app/admin/services/page.tsx:190-192 | toggling an id twice restores "active" and "inactive" records; any other status ends "inactive" |
| AdminServices.ServicesPage.constructor | src/app/admin/services/page.tsx:94-104 | the page starts with the list, the form at price 0 and duration 30, nothing remembered and both dialogs closed |
| AdminServices.ServicesPage.AddService | src/app/admin/services/page.tsx:127-148 | rejected, changing nothing, when the name is empty; otherwise appends one record with id length + 1 and status "active", resets the form and closes the dialog |
| AdminServices.ServicesPage.EditService | src/app/admin/services/page.tsx:150-160 | remembers the record, loads name, description, price, duration and category into the form and opens the edit dialog |
| AdminServices.ServicesPage.UpdateService | src/app/admin/services/page.tsx:162-181 | rejected when the name is empty; fails without change when nothing is remembered and the list is non-empty; otherwise updates by the remembered id and resets form, record and dialog |
| AdminServices.ServicesPage.DeleteService | src/app/admin/services/page.tsx:183-187 | a confirmed delete removes the id; a declined one changes nothing |
| AdminServices.ServicesPage.ToggleStatus | src/app/admin/services/page.tsx:189-193 | the list becomes its toggle by id; nothing else changes |
| AdminServices.MockServices | src/app/admin/services/page.tsx:43-89 | definition of the five initial services; properties in `AdminServices.MockServicesDense` |
| AdminServices.MockServicesDense | src/app/admin/services/page.tsx:43-89 | the initial ids are 1..5, so the first add gets id 6 and ids stay unique |

## Left out

- Rendering, styling, dialogs, icons and the navigation layout are not modelled. The dialog flags appear only as fields the handlers set.
- The role check in each page's mount effect is not modelled. It reads `localStorage` and redirects.
- `router.push` is not modelled. This includes "Reschedule" and "Book Again", which only navigate, and the redirect after booking.
- `alert`, `confirm` and `toast` are not modelled. `confirm` is the boolean `confirmed` parameter of the delete methods. The error and success messages are the boolean or outcome results of the handlers.
- The booking page's 1500 ms `setTimeout` is a separate method, `FinishBooking`, that the caller invokes. Time itself is not modelled.
- date-fns `format`, the week computation and the calendar are not modelled. Dates are opaque texts: the schedule's selected date is already the "yyyy-MM-dd" key, and the booking page's `Date` is a text.
- The booking page's barber-name lookup in the summary (line 308) is display only.
- `localeCompare` locale rules are not modelled. Comparison is by character code, which agrees with the locale order on the digit-and-colon texts the schedule uses.
- Schedule.SortByTime: its contract states sorted and a permutation but not stability, which `Array.prototype.sort` guarantees. On a day without duplicate times every sorted permutation is the same list (`Schedule.OrderedIsUnique`), so this matters only for a day that already holds equal times, whose relative order the model does not pin.
- Schedule.SchedulePage.AddTimeSlot: the model pushes and sorts on a fresh array holding a copy of the day. In the source the `{...prev}` copy is shallow, so the pushed-into and sorted array is the previous state's array and, for the two initial days, the module constant's array, where added slots persist across remounts. That sharing is not captured.
- Schedule.SchedulePage.ToggleAvailability: it builds a new list for the day. The source mutates the slot objects in place, and its `{...prev}` copy shares them with the previous state and with the module constant. That sharing is not modelled, and neither is React invoking the updater twice in development mode.
- Appointments.AppointmentsPage: appointments are values. The source's shown list and the module array share objects, and that aliasing is not captured. Cancel requires the id to be in the array, because the source's `!` would otherwise throw.
- The `parseFloat`, `parseInt` and `|| 0` handling of typed prices and durations is not modelled. Form prices and ratings are `real` values taken as given, and the form is a field the caller sets.
- React's asynchronous batching of state updates is not modelled. Each handler's updates are applied in order when the handler runs.
- Duration-based multi-slot booking, conflict errors, blocked slots and freeing a barber's slot on cancel are not modelled. None of them exists in these pages.
