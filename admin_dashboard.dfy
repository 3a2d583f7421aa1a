/**
 * The administrator's dashboard calendar (app/admin/page.tsx): which bookings
 * are listed on a day, which days are marked as booked, and the selected day.
 */
module AdminDashboard {
  import opened Types
  import opened Sequences

  /**
   * The rows the dashboard's query returns: the bookings whose status is
   * "confirmed". The query has no ordering clause, so the database picks the
   * order; the model keeps the rows in the order it is given them.
   */
  function ConfirmedOnly(rows: seq<Booking>): (r: seq<Booking>)
    ensures forall i :: 0 <= i < |r| ==> r[i] in rows && r[i].status == ConfirmedStatus
    ensures forall i :: 0 <= i < |rows| && rows[i].status == ConfirmedStatus ==> rows[i] in r
    ensures forall i :: 0 <= i < |rows| ==>
      multiset(r)[rows[i]] == if rows[i].status == ConfirmedStatus then multiset(rows)[rows[i]] else 0
    ensures IsSubsequence(r, rows)
  {
    Filter(rows, (b: Booking) => b.status == ConfirmedStatus)
  }

  /** getDayBookings: the bookings whose inclusive range covers `day`, in order. */
  function GetDayBookings(bookings: seq<Booking>, day: Day): (r: seq<Booking>)
    ensures forall i :: 0 <= i < |r| ==> r[i] in bookings && Covers(r[i], day)
    ensures forall i :: 0 <= i < |bookings| && Covers(bookings[i], day) ==> bookings[i] in r
    ensures forall i :: 0 <= i < |bookings| ==>
      multiset(r)[bookings[i]] == if Covers(bookings[i], day) then multiset(bookings)[bookings[i]] else 0
    ensures IsSubsequence(r, bookings)
    ensures |r| <= |bookings|
  {
    Filter(bookings, (b: Booking) => Covers(b, day))
  }

  /** The calendar's `booked` modifier. */
  predicate Booked(bookings: seq<Booking>, day: Day) {
    |GetDayBookings(bookings, day)| > 0
  }

  /** A day is marked booked iff some booking covers it. */
  lemma BookedIffCovered(bookings: seq<Booking>, day: Day)
    ensures Booked(bookings, day) <==> exists i :: 0 <= i < |bookings| && Covers(bookings[i], day)
  {
    FilterEmptyIffNoneSatisfy(bookings, (b: Booking) => Covers(b, day));
  }

  /** With no bookings, no day lists a booking. */
  lemma NoBookingsNoDayBookings(day: Day)
    ensures GetDayBookings([], day) == []
  {
  }

  /**
   * Only confirmed bookings reach the dashboard: a day is marked booked iff a
   * confirmed booking covers it.
   */
  lemma DashboardMarksConfirmedOnly(rows: seq<Booking>, day: Day)
    ensures Booked(ConfirmedOnly(rows), day) <==>
      exists i :: 0 <= i < |rows| && rows[i].status == ConfirmedStatus && Covers(rows[i], day)
  {
    BookedIffCovered(ConfirmedOnly(rows), day);
    if exists i :: 0 <= i < |rows| && rows[i].status == ConfirmedStatus && Covers(rows[i], day) {
      var i :| 0 <= i < |rows| && rows[i].status == ConfirmedStatus && Covers(rows[i], day);
      var r := ConfirmedOnly(rows);
      var j :| 0 <= j < |r| && r[j] == rows[i];
      assert Covers(r[j], day);
    }
  }

  /** handleDateSelect: a picked day replaces the selection; no day leaves it. */
  function HandleDateSelect(selected: Day, picked: Option<Day>): (r: Day)
    ensures picked.None? ==> r == selected
    ensures picked.Some? ==> r == picked.value
  {
    if picked.Some? then picked.value else selected
  }
}
