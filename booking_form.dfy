/**
 * The guest-facing booking form (components/BookingForm.tsx): the expansion
 * of existing bookings into the days the date pickers exclude, the conflict
 * test, and the guard sequence of a submission that ends in an insert of a
 * "pending" booking.
 *
 * The existing bookings the form receives are the confirmed bookings of one
 * apartment, reduced to their two date columns.
 */
module BookingForm {
  import opened Types
  import opened Sequences

  /** The form's view of an existing booking: only its two dates. */
  datatype StayRange = StayRange(startDate: Day, endDate: Day)

  /**
   * The guest count held by the form. The input field is parsed with
   * parseInt, so an empty or non-numeric field yields NaN.
   */
  datatype GuestInput = Count(n: int) | NotANumber

  datatype FormData = FormData(name: string, email: string, phone: string, guests: GuestInput)

  /** The form's initial content, and its content after a successful booking. */
  const EmptyForm: FormData := FormData("", "", "", Count(1))

  /** The two date pickers' current values; either may be unset. */
  datatype Selection = Selection(checkIn: Option<Day>, checkOut: Option<Day>)

  const NoDates: Selection := Selection(None, None)

  /** The row the form asks the database to insert. */
  datatype PendingBooking = PendingBooking(
    apartmentId: string,
    guestName: string,
    guestEmail: string,
    guestPhone: string,
    startDate: Day,
    endDate: Day,
    numGuests: GuestInput,
    status: string)

  /** Why a submission is refused before anything is sent to the database. */
  datatype Rejection = MissingDates | TooManyGuests(maxGuests: int) | DatesUnavailable

  /** What the guard sequence decides, before the database is involved. */
  datatype Decision = Reject(reason: Rejection) | Insert(record: PendingBooking)

  /** What a submission ends in, once the insert's outcome is known. */
  datatype SubmitResult =
    | Rejected(reason: Rejection)
    | InsertFailed(attempted: PendingBooking)
    | Submitted(record: PendingBooking)

  // ---------------------------------------------------------------------------
  // Blocked days

  /** The days start, start + 1, ..., end; empty when start > end. */
  function DayRange(start: Day, end: Day): (r: seq<Day>)
    ensures |r| == if start <= end then end - start + 1 else 0
    ensures forall i :: 0 <= i < |r| ==> r[i] == start + i
    decreases if start <= end then end - start + 1 else 0
  {
    if start > end then [] else [start] + DayRange(start + 1, end)
  }

  lemma DayRangeMembership(start: Day, end: Day, d: Day)
    ensures d in DayRange(start, end) <==> start <= d <= end
  {
    if start <= d <= end {
      assert DayRange(start, end)[d - start] == d;
    }
  }

  lemma DayRangeAscending(start: Day, end: Day)
    ensures forall i, j :: 0 <= i < j < |DayRange(start, end)| ==>
      DayRange(start, end)[i] < DayRange(start, end)[j]
  {
  }

  /** Every day of a range occurs in it exactly once. */
  lemma {:induction false} DayRangeOnce(start: Day, end: Day, d: Day)
    ensures multiset(DayRange(start, end))[d] == if start <= d <= end then 1 else 0
    decreases if start <= end then end - start + 1 else 0
  {
    if start <= end {
      DayRangeOnce(start + 1, end, d);
      assert DayRange(start, end) == [start] + DayRange(start + 1, end);
    }
  }

  /**
   * The loop that lists the days of one booking: starting at its first day,
   * push the current day and advance by one while the day is not after the
   * booking's last day.
   */
  method ExpandBooking(b: StayRange) returns (dates: seq<Day>)
    ensures dates == DayRange(b.startDate, b.endDate)
  {
    dates := [];
    var dt := b.startDate;
    while dt <= b.endDate
      invariant b.startDate <= dt <= if b.startDate <= b.endDate then b.endDate + 1 else b.startDate
      invariant |dates| == dt - b.startDate
      invariant forall i :: 0 <= i < |dates| ==> dates[i] == b.startDate + i
      decreases b.endDate - dt
    {
      dates := dates + [dt];
      dt := dt + 1;
    }
  }

  /** The per-booking expansions, concatenated in the order of the bookings. */
  function DisabledDates(existing: seq<StayRange>): seq<Day>
  {
    if existing == [] then []
    else DayRange(existing[0].startDate, existing[0].endDate) + DisabledDates(existing[1..])
  }

  lemma {:induction false} DisabledDatesAppend(front: seq<StayRange>, back: seq<StayRange>)
    ensures DisabledDates(front + back) == DisabledDates(front) + DisabledDates(back)
  {
    if front != [] {
      assert (front + back)[1..] == front[1..] + back;
      DisabledDatesAppend(front[1..], back);
    } else {
      assert front + back == back;
    }
  }

  /** A day is blocked iff some booking's inclusive range covers it. */
  lemma {:induction false} DisabledDatesMembership(existing: seq<StayRange>, d: Day)
    ensures d in DisabledDates(existing) <==>
      exists i :: 0 <= i < |existing| && existing[i].startDate <= d <= existing[i].endDate
  {
    if existing != [] {
      DisabledDatesMembership(existing[1..], d);
      DayRangeMembership(existing[0].startDate, existing[0].endDate, d);
      if exists i :: 0 <= i < |existing| && existing[i].startDate <= d <= existing[i].endDate {
        var i :| 0 <= i < |existing| && existing[i].startDate <= d <= existing[i].endDate;
        if i > 0 {
          assert existing[1..][i - 1] == existing[i];
        }
      }
    }
  }

  /** The bookings whose inclusive range covers day `d`. */
  function Covering(existing: seq<StayRange>, d: Day): seq<StayRange>
  {
    Filter(existing, (b: StayRange) => b.startDate <= d <= b.endDate)
  }

  /** A day covered by k bookings is listed k times. */
  lemma {:induction false} DisabledDatesMultiplicity(existing: seq<StayRange>, d: Day)
    ensures multiset(DisabledDates(existing))[d] == |Covering(existing, d)|
  {
    if existing != [] {
      DisabledDatesMultiplicity(existing[1..], d);
      DayRangeOnce(existing[0].startDate, existing[0].endDate, d);
    }
  }

  /** A booking whose end precedes its start blocks no day at all. */
  lemma InvertedBookingBlocksNothing(front: seq<StayRange>, b: StayRange, back: seq<StayRange>)
    requires b.startDate > b.endDate
    ensures DisabledDates(front + [b] + back) == DisabledDates(front + back)
  {
    DisabledDatesAppend(front + [b], back);
    DisabledDatesAppend(front, [b]);
    DisabledDatesAppend(front, back);
  }

  // ---------------------------------------------------------------------------
  // Conflicts

  /**
   * The form's three-clause conflict test between the requested stay
   * [checkIn, checkOut] and an existing booking, all bounds inclusive.
   */
  predicate Conflicts(checkIn: Day, checkOut: Day, b: StayRange) {
    || (checkIn >= b.startDate && checkIn <= b.endDate)
    || (checkOut >= b.startDate && checkOut <= b.endDate)
    || (checkIn <= b.startDate && checkOut >= b.endDate)
  }

  /** Ordinary overlap of two inclusive intervals. */
  predicate Overlaps(checkIn: Day, checkOut: Day, b: StayRange) {
    checkIn <= b.endDate && checkOut >= b.startDate
  }

  /** Whatever the order of the bounds, overlapping intervals conflict. */
  lemma OverlapImpliesConflict(checkIn: Day, checkOut: Day, b: StayRange)
    ensures Overlaps(checkIn, checkOut, b) ==> Conflicts(checkIn, checkOut, b)
  {
  }

  /** For well-formed ranges the three-clause test is interval overlap. */
  lemma ConflictIsOverlap(checkIn: Day, checkOut: Day, b: StayRange)
    requires checkIn <= checkOut && b.startDate <= b.endDate
    ensures Conflicts(checkIn, checkOut, b) <==> Overlaps(checkIn, checkOut, b)
  {
  }

  /** Without well-formed ranges the two tests differ, in both directions of input. */
  lemma ConflictWithoutOverlapWhenInverted()
    ensures Conflicts(5, 1, StayRange(4, 6)) && !Overlaps(5, 1, StayRange(4, 6))
    ensures Conflicts(0, 2, StayRange(5, 1)) && !Overlaps(0, 2, StayRange(5, 1))
  {
  }

  /**
   * A shared endpoint day is a conflict: a stay may not start on the last
   * day of a booking nor end on its first day; the day after is free.
   */
  lemma SharedEndpointConflicts(checkIn: Day, checkOut: Day, b: StayRange)
    requires checkIn <= checkOut && b.startDate <= b.endDate
    ensures checkOut == b.startDate ==> Conflicts(checkIn, checkOut, b)
    ensures checkIn == b.endDate ==> Conflicts(checkIn, checkOut, b)
    ensures checkOut + 1 == b.startDate ==> !Conflicts(checkIn, checkOut, b)
    ensures b.endDate + 1 == checkIn ==> !Conflicts(checkIn, checkOut, b)
  {
  }

  /** The existing bookings the requested stay conflicts with, in order. */
  function ConflictingBookings(checkIn: Day, checkOut: Day, existing: seq<StayRange>): (r: seq<StayRange>)
    ensures forall i :: 0 <= i < |r| ==> r[i] in existing && Conflicts(checkIn, checkOut, r[i])
    ensures |r| > 0 <==> exists i :: 0 <= i < |existing| && Conflicts(checkIn, checkOut, existing[i])
  {
    var r := Filter(existing, (b: StayRange) => Conflicts(checkIn, checkOut, b));
    FilterEmptyIffNoneSatisfy(existing, (b: StayRange) => Conflicts(checkIn, checkOut, b));
    r
  }

  // ---------------------------------------------------------------------------
  // Submission

  /** The guest check: a count above the maximum; NaN compares false. */
  predicate GuestsExceed(guests: GuestInput, maxGuests: int) {
    guests.Count? && guests.n > maxGuests
  }

  lemma GuestLimitBoundary(maxGuests: int)
    ensures !GuestsExceed(Count(maxGuests), maxGuests)
    ensures GuestsExceed(Count(maxGuests + 1), maxGuests)
    ensures !GuestsExceed(NotANumber, maxGuests)
  {
  }

  /**
   * The guard sequence of a submission: both dates present, then the guest
   * count, then no conflicting booking; only then the "pending" row to insert.
   */
  function SubmitDecision(apartmentId: string, form: FormData, maxGuests: int,
                          existing: seq<StayRange>, dates: Selection): (r: Decision)
    ensures dates.checkIn.None? || dates.checkOut.None? ==> r == Reject(MissingDates)
    ensures dates.checkIn.Some? && dates.checkOut.Some? && GuestsExceed(form.guests, maxGuests) ==>
      r == Reject(TooManyGuests(maxGuests))
    ensures r.Reject? && r.reason == DatesUnavailable <==>
      && dates.checkIn.Some? && dates.checkOut.Some? && !GuestsExceed(form.guests, maxGuests)
      && exists i :: 0 <= i < |existing| && Conflicts(dates.checkIn.value, dates.checkOut.value, existing[i])
    ensures r.Insert? <==>
      && dates.checkIn.Some? && dates.checkOut.Some? && !GuestsExceed(form.guests, maxGuests)
      && forall i :: 0 <= i < |existing| ==> !Conflicts(dates.checkIn.value, dates.checkOut.value, existing[i])
    ensures r.Insert? ==>
      && r.record.status == PendingStatus
      && r.record.apartmentId == apartmentId
      && r.record.startDate == dates.checkIn.value
      && r.record.endDate == dates.checkOut.value
      && r.record.guestName == form.name
      && r.record.guestEmail == form.email
      && r.record.guestPhone == form.phone
      && r.record.numGuests == form.guests
  {
    if dates.checkIn.None? || dates.checkOut.None? then Reject(MissingDates)
    else if GuestsExceed(form.guests, maxGuests) then Reject(TooManyGuests(maxGuests))
    else if |ConflictingBookings(dates.checkIn.value, dates.checkOut.value, existing)| > 0 then
      Reject(DatesUnavailable)
    else
      Insert(PendingBooking(apartmentId, form.name, form.email, form.phone,
                            dates.checkIn.value, dates.checkOut.value, form.guests, PendingStatus))
  }

  /** No day of an inserted stay is a blocked day. */
  lemma {:induction false} InsertedStayAvoidsBlockedDays(apartmentId: string, form: FormData, maxGuests: int,
                                                         existing: seq<StayRange>, dates: Selection, d: Day)
    requires SubmitDecision(apartmentId, form, maxGuests, existing, dates).Insert?
    requires dates.checkIn.value <= d <= dates.checkOut.value
    ensures d !in DisabledDates(existing)
  {
    DisabledDatesMembership(existing, d);
  }

  /**
   * When the requested stay and every existing booking are well formed, the
   * conflict check passes exactly when no day of the stay is blocked.
   */
  lemma {:induction false} NoConflictIffNoBlockedDay(checkIn: Day, checkOut: Day, existing: seq<StayRange>)
    requires checkIn <= checkOut
    requires forall i :: 0 <= i < |existing| ==> existing[i].startDate <= existing[i].endDate
    ensures (forall i :: 0 <= i < |existing| ==> !Conflicts(checkIn, checkOut, existing[i])) <==>
      (forall d :: checkIn <= d <= checkOut ==> d !in DisabledDates(existing))
  {
    if exists i :: 0 <= i < |existing| && Conflicts(checkIn, checkOut, existing[i]) {
      var i :| 0 <= i < |existing| && Conflicts(checkIn, checkOut, existing[i]);
      ConflictIsOverlap(checkIn, checkOut, existing[i]);
      var d := if checkIn <= existing[i].startDate then existing[i].startDate else checkIn;
      DisabledDatesMembership(existing, d);
      assert checkIn <= d <= checkOut && d in DisabledDates(existing);
    } else {
      forall d | checkIn <= d <= checkOut
        ensures d !in DisabledDates(existing)
      {
        DisabledDatesMembership(existing, d);
      }
    }
  }

  /**
   * The submission never compares the two dates, so an inverted stay can pass
   * every guard and be inserted: check-in 5, check-out 1 against a booking
   * 2-4. Another inverted stay is refused: check-in 5, check-out 1 against a
   * booking 4-6, whose start lies between the two dates.
   */
  lemma InvertedStayCanBeInserted()
    ensures SubmitDecision("apartment", EmptyForm, 4, [StayRange(2, 4)], Selection(Some(5), Some(1))).Insert?
    ensures SubmitDecision("apartment", EmptyForm, 4, [StayRange(4, 6)], Selection(Some(5), Some(1)))
      == Reject(DatesUnavailable)
  {
  }

  /** The date the check-in picker lets a guest choose: not before today, not blocked. */
  predicate CheckInSelectable(d: Day, today: Day, disabled: seq<Day>) {
    d >= today && d !in disabled
  }

  /** The date the check-out picker lets a guest choose: not before the check-in then chosen, not blocked. */
  predicate CheckOutSelectable(d: Day, current: Selection, disabled: seq<Day>) {
    (current.checkIn.Some? ==> d >= current.checkIn.value) && d !in disabled
  }

  /** The total shown on the submit button: (price || 0) * (guests || 1). */
  function DisplayedTotal(price: int, guests: GuestInput): (r: int)
    ensures guests.Count? && guests.n != 0 ==> r == price * guests.n
    ensures !(guests.Count? && guests.n != 0) ==> r == price
    ensures r == 0 <==> price == 0
  {
    var factor := if guests.Count? && guests.n != 0 then guests.n else 1;
    price * factor
  }

  // ---------------------------------------------------------------------------
  // The form component

  class BookingFormState {
    const apartmentId: string
    const price: int
    const maxGuests: int
    const existingBookings: seq<StayRange>

    var dates: Selection
    var formData: FormData
    var disabledDates: seq<Day>

    /** The form as first rendered: no dates, an empty form, nothing blocked yet. */
    constructor (apartmentId: string, price: int, maxGuests: int, existingBookings: seq<StayRange>)
      ensures this.apartmentId == apartmentId && this.price == price
      ensures this.maxGuests == maxGuests && this.existingBookings == existingBookings
      ensures dates == NoDates && formData == EmptyForm && disabledDates == []
    {
      this.apartmentId := apartmentId;
      this.price := price;
      this.maxGuests := maxGuests;
      this.existingBookings := existingBookings;
      dates := NoDates;
      formData := EmptyForm;
      disabledDates := [];
    }

    /** The effect that recomputes the blocked days from the existing bookings. */
    method RefreshDisabledDates()
      modifies this`disabledDates
      ensures disabledDates == DisabledDates(existingBookings)
    {
      var disabled: seq<Day> := [];
      for k := 0 to |existingBookings|
        invariant disabled == DisabledDates(existingBookings[..k])
      {
        var days := ExpandBooking(existingBookings[k]);
        assert existingBookings[..k + 1] == existingBookings[..k] + [existingBookings[k]];
        DisabledDatesAppend(existingBookings[..k], [existingBookings[k]]);
        disabled := disabled + days;
      }
      assert existingBookings[..|existingBookings|] == existingBookings;
      disabledDates := disabled;
    }

    /** The check-in picker's change handler. */
    method PickCheckIn(picked: Option<Day>, today: Day)
      requires picked.Some? ==> CheckInSelectable(picked.value, today, disabledDates)
      modifies this`dates
      ensures dates == Selection(picked, old(dates).checkOut)
    {
      dates := Selection(picked, dates.checkOut);
    }

    /** The check-out picker's change handler. */
    method PickCheckOut(picked: Option<Day>)
      requires picked.Some? ==> CheckOutSelectable(picked.value, dates, disabledDates)
      modifies this`dates
      ensures dates == Selection(old(dates).checkIn, picked)
    {
      dates := Selection(dates.checkIn, picked);
    }

    /**
     * handleSubmit: the guards in order, then the insert, whose outcome is
     * `insertOk`; only a successful insert resets the form and the dates.
     */
    method HandleSubmit(insertOk: bool) returns (result: SubmitResult)
      modifies this`dates, this`formData
      ensures var decision := SubmitDecision(apartmentId, old(formData), maxGuests, existingBookings, old(dates));
        match decision
        case Reject(why) =>
          result == Rejected(why) && dates == old(dates) && formData == old(formData)
        case Insert(record) =>
          if insertOk then result == Submitted(record) && dates == NoDates && formData == EmptyForm
          else result == InsertFailed(record) && dates == old(dates) && formData == old(formData)
    {
      if dates.checkIn.None? || dates.checkOut.None? {
        return Rejected(MissingDates);
      }
      if GuestsExceed(formData.guests, maxGuests) {
        return Rejected(TooManyGuests(maxGuests));
      }
      var conflicting := ConflictingBookings(dates.checkIn.value, dates.checkOut.value, existingBookings);
      if |conflicting| > 0 {
        return Rejected(DatesUnavailable);
      }
      var record := PendingBooking(apartmentId, formData.name, formData.email, formData.phone,
                                   dates.checkIn.value, dates.checkOut.value, formData.guests, PendingStatus);
      if !insertOk {
        return InsertFailed(record);
      }
      formData := EmptyForm;
      dates := NoDates;
      result := Submitted(record);
    }
  }

  /**
   * The check-out picker's lower bound holds only at the moment of choosing:
   * a guest who picks the check-out first and a later check-in second gets
   * an inverted stay past both pickers, and the submission inserts it.
   */
  method PickerOrderAllowsInvertedStay(today: Day) returns (result: SubmitResult)
    ensures result.Submitted? && result.record.startDate > result.record.endDate
  {
    var form := new BookingFormState("apartment", 10, 4, []);
    form.RefreshDisabledDates();
    form.PickCheckOut(Some(today + 1));
    form.PickCheckIn(Some(today + 3), today);
    result := form.HandleSubmit(true);
  }
}
