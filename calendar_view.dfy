/**
 * The reservations calendar (components/CalendarView.tsx). It loads every
 * booking whatever its status, marks a day reserved when any booking covers
 * it, and passes the picker's highlightDates prop one {start, end} range per
 * booking.
 */
module CalendarView {
  import opened Types

  /** isBooked: some booking's inclusive range covers `date`. */
  function IsBooked(bookings: seq<Booking>, date: Day): (r: bool)
    ensures r <==> exists i :: 0 <= i < |bookings| && Covers(bookings[i], date)
  {
    if bookings == [] then false
    else if Covers(bookings[0], date) then true
    else
      var rest := IsBooked(bookings[1..], date);
      assert forall i :: 1 <= i < |bookings| ==> bookings[i] == bookings[1..][i - 1];
      rest
  }

  const ReservedClass: string := "bg-red-500 text-white font-bold rounded-lg"
  const FreeClass: string := "hover:bg-gray-200 rounded-lg"

  /** dayClassName: the reserved style on booked days, the hover style elsewhere. */
  function DayClassName(bookings: seq<Booking>, date: Day): (r: string)
    ensures r == ReservedClass <==> IsBooked(bookings, date)
    ensures r == FreeClass <==> !IsBooked(bookings, date)
  {
    if IsBooked(bookings, date) then ReservedClass else FreeClass
  }

  /** One entry of the value passed as the picker's highlightDates prop. */
  datatype HighlightRange = HighlightRange(start: Day, end: Day)

  /** highlightDates: one range per booking, in the bookings' order. */
  function HighlightDates(bookings: seq<Booking>): (r: seq<HighlightRange>)
    ensures |r| == |bookings|
    ensures forall i :: 0 <= i < |r| ==>
      r[i].start == bookings[i].startDate && r[i].end == bookings[i].endDate
  {
    if bookings == [] then []
    else [HighlightRange(bookings[0].startDate, bookings[0].endDate)] + HighlightDates(bookings[1..])
  }

  /** The ranges passed as highlightDates cover exactly the days marked reserved. */
  lemma HighlightedIffBooked(bookings: seq<Booking>, date: Day)
    ensures (exists i :: 0 <= i < |HighlightDates(bookings)| &&
               HighlightDates(bookings)[i].start <= date <= HighlightDates(bookings)[i].end)
            <==> IsBooked(bookings, date)
  {
    if IsBooked(bookings, date) {
      var i :| 0 <= i < |bookings| && Covers(bookings[i], date);
      assert HighlightDates(bookings)[i].start <= date <= HighlightDates(bookings)[i].end;
    } else {
      forall i | 0 <= i < |HighlightDates(bookings)|
        ensures !(HighlightDates(bookings)[i].start <= date <= HighlightDates(bookings)[i].end)
      {
        assert !Covers(bookings[i], date);
      }
    }
  }

  /** With no bookings loaded, no day is reserved. */
  lemma NothingBookedWithoutBookings(date: Day)
    ensures !IsBooked([], date)
  {
  }

  /** Occupancy ignores status: changing a booking's status never changes a day's marking. */
  lemma OccupancyIgnoresStatus(bookings: seq<Booking>, k: nat, status: string, date: Day)
    requires k < |bookings|
    ensures IsBooked(bookings[k := bookings[k].(status := status)], date) == IsBooked(bookings, date)
  {
    var changed := bookings[k := bookings[k].(status := status)];
    assert forall i :: 0 <= i < |bookings| ==> (Covers(changed[i], date) <==> Covers(bookings[i], date));
  }

  /** A pending or cancelled booking alone is enough to mark its days reserved. */
  lemma AnyStatusMarksReserved(b: Booking, date: Day)
    requires Covers(b, date)
    ensures IsBooked([b], date)
    ensures DayClassName([b], date) == ReservedClass
  {
    assert Covers([b][0], date);
  }
}
