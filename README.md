# Booking availability and booking status

A Dafny model of the booking logic of a small apartment-rental web
application. Guests request stays through a booking form. Administrators see
bookings on calendars and confirm or cancel them in a bookings table.

The model covers four components:

- **Booking form** (`BookingForm`, components/BookingForm.tsx).
  - It expands the existing bookings of an apartment into the list of days
    the date pickers exclude.
  - Its submission is a short-circuiting sequence of guards: both dates
    chosen, then the guest count, then no conflicting booking. Only then
    does it insert a row with status "pending".
  - After a successful insert the form and the dates are reset.
- **Admin dashboard** (`AdminDashboard`, app/admin/page.tsx).
  - It loads only confirmed bookings.
  - It lists the bookings covering a day and marks such days as booked.
  - It keeps a selected day.
- **Reservations calendar** (`CalendarView`, components/CalendarView.tsx).
  - It loads bookings of every status.
  - It marks a day reserved when any booking covers it, and hands the date
    picker's `highlightDates` prop one `{start, end}` range per booking.
- **Bookings table** (`BookingsPage`, app/admin/bookings/page.tsx).
  - It updates the status of the entries with a given id.
  - It shows a "confirm" and a "cancel" button depending on the current
    status, and colours a status badge.

`Occupancy` relates the three occupancy views. `Sequences` holds the
order-preserving filter that two of the components apply. `Types` holds the
booking row shared by the admin pages.

Abstractions:

- **Days.** Calendar dates are integer day numbers (`Types.Day`). Day n + 1 is
  the day after day n. Every range is inclusive at both ends, as in the code.
- **Database calls.** Every query, insert and update is an outcome
  parameter: `insertOk`, `updateOk`, or the rows a fetch returned. The
  dashboard's query filter "status is confirmed" is modelled as the function
  `AdminDashboard.ConfirmedOnly`.
- **Guest count.** The form parses the guest count with `parseInt`, so it can
  be NaN. It is modelled as `GuestInput = Count(n) | NotANumber`. Inside the
  submit handler a NaN count compares false against the maximum, so the
  handler's own guest check lets it through. In a browser the input's native
  validation (see "## Left out") stops such a form before the handler runs.

## Where the code differs from the intended design

The model follows the code in each place below.

- **No start-before-end check on submission.** A booking request is supposed
  to be refused when its check-out precedes its check-in. `handleSubmit`
  never compares the two dates. The check-out picker's `minDate` applies only
  when that date is picked. If a guest picks the check-out first and then a
  later check-in, the stay is inverted.
  - The three-clause conflict test does not catch every inverted stay.
  - `BookingForm.InvertedStayCanBeInserted` shows an inverted stay that reaches
    the insert.
  - `BookingForm.PickerOrderAllowsInvertedStay` calls `PickCheckOut` and then
    `PickCheckIn` on a fresh form and submits it: the stay is inserted with
    its check-out before its check-in.
- **Cancelled is not a final status.** The intended status machine makes
  cancelled final. The bookings table offers "confirm" on every status other
  than confirmed, so a cancelled booking can be confirmed again
  (`BookingsPage.StatusTransitions`).
- **Blocked days are a list, not a set.** A day covered by k bookings appears
  k times (`BookingForm.DisabledDatesMultiplicity`).

## Model

| member | source | states |
|---|---|---|
| Sequences.Filter | app/admin/page.tsx:75-79 | the filter result holds exactly the input's elements that satisfy the predicate, each as many times as in the input and none of the others, as an order-preserving subsequence no longer than the input |
| Sequences.SubsequenceNoLonger | app/admin/page.tsx:75 | an order-preserving subsequence is never longer than the sequence it comes from |
| Sequences.FilterEmptyIffNoneSatisfy | components/BookingForm.tsx:66-79 | the filter result is empty iff no element satisfies the predicate |
| BookingForm.DayRange | components/BookingForm.tsx:43-47 | a booking's days are start, start+1, …, end: end−start+1 entries when start ≤ end, none otherwise |
| BookingForm.DayRangeMembership | components/BookingForm.tsx:44-46 | a day is in a booking's expansion iff start ≤ day ≤ end |
| BookingForm.DayRangeAscending | components/BookingForm.tsx:44-46 | the expansion is strictly ascending |
| BookingForm.DayRangeOnce | components/BookingForm.tsx:44-46 | each day of a range occurs in its expansion exactly once |
| BookingForm.ExpandBooking | components/BookingForm.tsx:41-47 | the `for` loop that steps one day at a time from start while the day is ≤ end emits exactly the booking's day range |
| BookingForm.DisabledDates | components/BookingForm.tsx:40-48 | the `flatMap`: the per-booking day ranges concatenated in booking order (its properties are the lemmas below) |
| BookingForm.DisabledDatesAppend | components/BookingForm.tsx:40-48 | the blocked list of a concatenation is the concatenation of the blocked lists, in order |
| BookingForm.DisabledDatesMembership | components/BookingForm.tsx:40-49 | a day is blocked iff some existing booking covers it |
| BookingForm.DisabledDatesMultiplicity | components/BookingForm.tsx:40-49 | a day occurs in the blocked list as many times as there are bookings covering it |
| BookingForm.InvertedBookingBlocksNothing | components/BookingForm.tsx:44 | a booking with start > end contributes no blocked day |
| BookingForm.Conflicts | components/BookingForm.tsx:69-76 | the three inclusive clauses: check-in inside the booking, check-out inside it, or the stay containing it (related to interval overlap by the lemmas below) |
| BookingForm.OverlapImpliesConflict | components/BookingForm.tsx:66-77 | interval overlap always triggers the three-clause conflict test, whatever the order of the bounds |
| BookingForm.ConflictIsOverlap | components/BookingForm.tsx:66-77 | for well-formed stay and booking, the three-clause test equals `checkIn ≤ end ∧ checkOut ≥ start` |
| BookingForm.ConflictWithoutOverlapWhenInverted | components/BookingForm.tsx:69-76 | with an inverted stay, or an inverted booking, the test reports a conflict where the intervals do not overlap |
| BookingForm.SharedEndpointConflicts | components/BookingForm.tsx:71-75 | a shared endpoint day is a conflict; a stay ending the day before a booking starts, or starting the day after it ends, is not |
| BookingForm.ConflictingBookings | components/BookingForm.tsx:66-82 | the conflicting bookings all come from the existing list and conflict; the list is non-empty iff some existing booking conflicts |
| BookingForm.GuestsExceed | components/BookingForm.tsx:60 | `guests > maxGuests`, false for a NaN count |
| BookingForm.GuestLimitBoundary | components/BookingForm.tsx:60-63 | guests = max passes, max+1 is refused, and a NaN count passes |
| BookingForm.SubmitDecision | components/BookingForm.tsx:52-95 | missing dates are refused first, then too many guests, then a conflict; an insert happens iff all three guards pass, and it carries status "pending", the apartment id, the chosen dates and the form fields |
| BookingForm.InsertedStayAvoidsBlockedDays | components/BookingForm.tsx:39-84 | no day of an inserted stay is a blocked day |
| BookingForm.NoConflictIffNoBlockedDay | components/BookingForm.tsx:39-82 | for well-formed stay and bookings, the conflict check passes iff no day of the stay is blocked |
| BookingForm.InvertedStayCanBeInserted | components/BookingForm.tsx:55-95 | an inverted stay can pass every guard and be inserted (check-in 5, check-out 1 against a booking 2–4), while another is refused (the same stay against a booking 4–6) |
| BookingForm.CheckInSelectable | components/BookingForm.tsx:118-119 | the check-in picker offers a day not before today and not among the blocked days |
| BookingForm.CheckOutSelectable | components/BookingForm.tsx:133-134 | the check-out picker offers a day not before the current check-in, if any, and not among the blocked days |
| BookingForm.PickerOrderAllowsInvertedStay | components/BookingForm.tsx:112-137 | on a fresh form, picking the check-out first and a later check-in second, then submitting with a successful insert, submits a row whose start is after its end |
| BookingForm.DisplayedTotal | components/BookingForm.tsx:192 | the shown total is price × guests for a non-zero count and the price itself for a zero or NaN count, so the total is 0 iff the price is 0 |
| BookingForm.BookingFormState.constructor | components/BookingForm.tsx:29-37 | the form starts with no dates, empty fields, one guest and no blocked days |
| BookingForm.BookingFormState.RefreshDisabledDates | components/BookingForm.tsx:39-50 | the effect sets the blocked list to the in-order concatenation of the bookings' expansions |
| BookingForm.BookingFormState.PickCheckIn | components/BookingForm.tsx:112-122 | choosing a check-in, which must not be before today or blocked, replaces only the check-in |
| BookingForm.BookingFormState.PickCheckOut | components/BookingForm.tsx:126-136 | choosing a check-out, which must not be before the current check-in or blocked, replaces only the check-out |
| BookingForm.BookingFormState.HandleSubmit | components/BookingForm.tsx:52-105 | a refusal or a failed insert leaves the form unchanged; a successful insert reports the pending row and resets the fields and dates |
| AdminDashboard.ConfirmedOnly | app/admin/page.tsx:50-59 | the dashboard receives exactly the confirmed bookings, each as often as in the table, in the order the model fixes (see Left out) |
| AdminDashboard.GetDayBookings | app/admin/page.tsx:74-80 | returns exactly the bookings with start ≤ day ≤ end, each as often as in the input, as an order-preserving subsequence never longer than the input |
| AdminDashboard.Booked | app/admin/page.tsx:125 | the `booked` modifier: the day's booking list is non-empty |
| AdminDashboard.BookedIffCovered | app/admin/page.tsx:125 | a day is marked booked iff some booking covers it |
| AdminDashboard.NoBookingsNoDayBookings | app/admin/page.tsx:75-79 | with no bookings, every day lists none |
| AdminDashboard.DashboardMarksConfirmedOnly | app/admin/page.tsx:59-80 | on the dashboard a day is booked iff a confirmed booking covers it |
| AdminDashboard.HandleDateSelect | app/admin/page.tsx:68-72 | an undefined pick keeps the selected day; a defined pick replaces it |
| CalendarView.IsBooked | components/CalendarView.tsx:33-39 | a date is booked iff some booking has start ≤ date ≤ end |
| CalendarView.DayClassName | components/CalendarView.tsx:42-46 | the reserved class iff the date is booked, the hover class otherwise |
| CalendarView.HighlightDates | components/CalendarView.tsx:68-71 | the value passed to `highlightDates`: one `{start, end}` entry per booking, in order, with the booking's start and end |
| CalendarView.HighlightedIffBooked | components/CalendarView.tsx:66-71 | a date lies in one of the ranges passed to `highlightDates` iff it is booked |
| CalendarView.NothingBookedWithoutBookings | components/CalendarView.tsx:34 | no date is booked when the booking list is empty |
| CalendarView.OccupancyIgnoresStatus | components/CalendarView.tsx:33-39 | changing a booking's status never changes whether a date is booked |
| CalendarView.AnyStatusMarksReserved | components/CalendarView.tsx:20-46 | a booking of any status, pending or cancelled included, marks its days reserved |
| BookingsPage.WithStatus | app/admin/bookings/page.tsx:29 | entries with the id get the new status and keep every other field; other entries are unchanged; length and order are kept |
| BookingsPage.WithStatusIdempotent | app/admin/bookings/page.tsx:29 | applying the same update twice equals applying it once |
| BookingsPage.WithStatusLastWins | app/admin/bookings/page.tsx:29 | of two updates to one id, the later status is the one kept |
| BookingsPage.WithStatusCommutes | app/admin/bookings/page.tsx:29 | updates to different ids commute |
| BookingsPage.WithStatusUnknownId | app/admin/bookings/page.tsx:29 | an update for an id not in the list leaves the list unchanged |
| BookingsPage.TargetStatus | app/admin/bookings/page.tsx:71-79 | the "confirm" button sends "confirmed" and the "cancel" button sends "cancelled" |
| BookingsPage.OfferedActions | app/admin/bookings/page.tsx:68-85 | "confirm" is shown iff the status is not "confirmed", "cancel" iff it is not "cancelled", each at most once |
| BookingsPage.OfferedActionsChangeStatus | app/admin/bookings/page.tsx:69-84 | no shown button sends the status the row already has, and every row shows at least one button |
| BookingsPage.StatusTransitions | app/admin/bookings/page.tsx:69-77 | pending offers confirm and cancel, confirmed only cancel, cancelled only confirm |
| BookingsPage.PressingOfferedActionChangesStatus | app/admin/bookings/page.tsx:69-79 | a successful press of a shown button gives the row the button's status, which differs from its old one |
| BookingsPage.BadgeClass | app/admin/bookings/page.tsx:60-64 | green iff "confirmed", yellow iff "pending", red for any other string |
| BookingsPage.BookingsTable.constructor | app/admin/bookings/page.tsx:7 | the table starts with no bookings |
| BookingsPage.BookingsTable.Load | app/admin/bookings/page.tsx:16 | fetched rows replace the list; a missing result empties it |
| BookingsPage.BookingsTable.UpdateStatus | app/admin/bookings/page.tsx:22-31 | a successful update applies `WithStatus`, a failed one leaves the list as it was; ids, length and order are kept |
| Occupancy.Stays | components/BookingForm.tsx:9-12 | the two-date shape of the form's `Booking` interface, which the apartment page's query produces by selecting only `start_date, end_date`: one entry per booking, in order |
| Occupancy.BookedIffIsBooked | components/CalendarView.tsx:33-39 | given the same bookings, the dashboard's booked day and the calendar's reserved day coincide |
| Occupancy.BlockedIffIsBooked | components/BookingForm.tsx:39-50 | given the same bookings, the form blocks a day iff the calendar marks it reserved |
| Occupancy.PendingShowsOnCalendarOnly | components/CalendarView.tsx:18-20 | a pending booking marks its day on the reservations calendar but not on the dashboard |

## Left out

- AdminDashboard.ConfirmedOnly: the dashboard's query (app/admin/page.tsx:51-59) sets no order, so the database decides the order of the rows. The model keeps them in the order of its input list. No property proved here depends on that order.
- Database and authentication calls. Select, insert, update, session check and
  sign-out are outcome parameters or are omitted. Nothing is persisted.
- JavaScript `Date` semantics. The model does not cover parsing "YYYY-MM-DD"
  strings as UTC midnight while the pickers produce local times. It also
  leaves out time of day, time zones, `setDate` month rollover and date
  formatting. Every date is a day number.
- The check-then-insert race between two concurrent submissions. It is a
  storage concern, and the model is sequential.
- Toast messages. Each `Rejection` value stands for one message.
- The `onBookingSuccess` callback. It stands as the `Submitted` result.
- BookingForm.DisplayedTotal: the price is an integer. The model leaves out a
  fractional price and a NaN price. A NaN guest count is modelled.
- Form field editing, the dashboard's booking dialog and day-cell rendering.
  These are presentation only.
- The dashboard's fetch error path, which only logs the error.
- The apartment page's query. It loads the confirmed bookings of one
  apartment and passes them to the form.
- Native form validation. The model starts at the submit handler. Before it
  runs, the browser's constraint validation blocks a submit when the name,
  email or phone field is empty, when the email is not an address, or when
  the guest count is empty, non-numeric, below 1 or above the maximum
  (components/BookingForm.tsx:145, 156-157, 166-167, 178-181). So in a browser
  a NaN count, a count below 1, too many guests and empty contact fields do
  not reach the handler. The model lets them reach it, as the handler itself
  would treat them.
- Overlapping status updates. `updateStatus` builds the new list from the
  `bookings` captured when the page last rendered, after awaiting the
  database. If two updates are in flight from the same render, the second
  replaces the list with one built from the older snapshot, and the first
  update's local change is lost. `BookingsPage.BookingsTable.UpdateStatus`
  applies each update to the current list, one at a time.
- How the date picker reads `highlightDates`. The calendar passes
  `{start, end}` objects under a type-check suppression. What the picker then
  shows is not modelled; the model states only the value passed.
- The task manager, the booking details dialog and the layout pages. They have
  no booking-availability logic.
- The `status` union of lib/types.ts. The admin pages hold rows untyped, so
  status is modelled as a string.
