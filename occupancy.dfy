/**
 * How the three views of occupancy relate: the dashboard's day listing, the
 * calendar's reserved marking, and the booking form's blocked days all apply
 * the same inclusive test, and differ only in which bookings they are given.
 */
module Occupancy {
  import opened Types
  import BookingForm
  import AdminDashboard
  import CalendarView

  /** The two date columns of each booking, as the booking form receives them. */
  function Stays(bookings: seq<Booking>): (r: seq<BookingForm.StayRange>)
    ensures |r| == |bookings|
    ensures forall i :: 0 <= i < |r| ==>
      r[i].startDate == bookings[i].startDate && r[i].endDate == bookings[i].endDate
  {
    if bookings == [] then []
    else [BookingForm.StayRange(bookings[0].startDate, bookings[0].endDate)] + Stays(bookings[1..])
  }

  /** Given the same bookings, the dashboard marks a day booked iff the calendar marks it reserved. */
  lemma BookedIffIsBooked(bookings: seq<Booking>, day: Day)
    ensures AdminDashboard.Booked(bookings, day) <==> CalendarView.IsBooked(bookings, day)
  {
    AdminDashboard.BookedIffCovered(bookings, day);
  }

  /** Given the same bookings, the form blocks a day iff the calendar marks it reserved. */
  lemma BlockedIffIsBooked(bookings: seq<Booking>, day: Day)
    ensures day in BookingForm.DisabledDates(Stays(bookings)) <==> CalendarView.IsBooked(bookings, day)
  {
    BookingForm.DisabledDatesMembership(Stays(bookings), day);
    var stays := Stays(bookings);
    assert forall i :: 0 <= i < |bookings| ==>
      (stays[i].startDate <= day <= stays[i].endDate <==> Covers(bookings[i], day));
  }

  /**
   * A pending booking marks its days on the reservations calendar, which
   * loads every status, but not on the dashboard, which loads confirmed ones.
   */
  lemma PendingShowsOnCalendarOnly(b: Booking, day: Day)
    requires b.status == PendingStatus && Covers(b, day)
    ensures CalendarView.IsBooked([b], day)
    ensures !AdminDashboard.Booked(AdminDashboard.ConfirmedOnly([b]), day)
  {
    assert Covers([b][0], day);
    AdminDashboard.DashboardMarksConfirmedOnly([b], day);
  }
}
