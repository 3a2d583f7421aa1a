/**
 * Shared record types of the booking application (lib/types.ts and the row
 * shapes the admin pages read from the bookings table).
 *
 * Calendar dates are integer day numbers: day n + 1 is the calendar day after
 * day n. Parsing of date strings, time of day and time zones are not modelled.
 */
module Types {

  /** A calendar day, as a day number. */
  type Day = int

  datatype Option<+T> = None | Some(value: T)

  /** The status strings the application writes and compares against. */
  const PendingStatus: string := "pending"
  const ConfirmedStatus: string := "confirmed"
  const CancelledStatus: string := "cancelled"

  /**
   * One row of the bookings table as the admin pages hold it. The pages keep
   * rows untyped, so `status` is any string; the application itself only
   * ever writes the three constants above.
   */
  datatype Booking = Booking(
    id: string,
    apartmentId: string,
    apartmentName: string,
    guestName: string,
    guestEmail: string,
    guestPhone: string,
    startDate: Day,
    endDate: Day,
    numGuests: int,
    status: string)

  /** The inclusive-range test every calendar view applies: start <= day <= end. */
  predicate Covers(b: Booking, day: Day) {
    b.startDate <= day && day <= b.endDate
  }
}
