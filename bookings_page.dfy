/**
 * The administrator's bookings table (app/admin/bookings/page.tsx): the
 * local list of bookings, the status update applied to it, which action
 * buttons a row offers, and the colour of a row's status badge.
 */
module BookingsPage {
  import opened Types

  /** The list after setting the status of every entry whose id is `id`. */
  function WithStatus(bookings: seq<Booking>, id: string, status: string): (r: seq<Booking>)
    ensures |r| == |bookings|
    ensures forall i :: 0 <= i < |r| && bookings[i].id == id ==> r[i] == bookings[i].(status := status)
    ensures forall i :: 0 <= i < |r| && bookings[i].id != id ==> r[i] == bookings[i]
  {
    if bookings == [] then []
    else
      var head := if bookings[0].id == id then bookings[0].(status := status) else bookings[0];
      [head] + WithStatus(bookings[1..], id, status)
  }

  /** Applying the same update twice gives the list applying it once gives. */
  lemma WithStatusIdempotent(bookings: seq<Booking>, id: string, status: string)
    ensures WithStatus(WithStatus(bookings, id, status), id, status) == WithStatus(bookings, id, status)
  {
  }

  /** Of two updates to the same id, the later one wins. */
  lemma WithStatusLastWins(bookings: seq<Booking>, id: string, first: string, second: string)
    ensures WithStatus(WithStatus(bookings, id, first), id, second) == WithStatus(bookings, id, second)
  {
  }

  /** Updates to different ids do not interfere. */
  lemma WithStatusCommutes(bookings: seq<Booking>, id1: string, s1: string, id2: string, s2: string)
    requires id1 != id2
    ensures WithStatus(WithStatus(bookings, id1, s1), id2, s2) == WithStatus(WithStatus(bookings, id2, s2), id1, s1)
  {
  }

  /** An update for an id the list does not hold leaves the list as it is. */
  lemma WithStatusUnknownId(bookings: seq<Booking>, id: string, status: string)
    requires forall i :: 0 <= i < |bookings| ==> bookings[i].id != id
    ensures WithStatus(bookings, id, status) == bookings
  {
  }

  /** The two action buttons a row can show. */
  datatype Action = Confirm | Cancel

  /** The status each button sends. */
  function TargetStatus(a: Action): string {
    match a
    case Confirm => ConfirmedStatus
    case Cancel => CancelledStatus
  }

  /** The buttons a row shows, in display order. */
  function OfferedActions(status: string): (r: seq<Action>)
    ensures Confirm in r <==> status != ConfirmedStatus
    ensures Cancel in r <==> status != CancelledStatus
    ensures forall i, j :: 0 <= i < j < |r| ==> r[i] != r[j]
  {
    (if status != ConfirmedStatus then [Confirm] else []) +
    (if status != CancelledStatus then [Cancel] else [])
  }

  /** A button never sends the status the row already has, and a row shows at least one button. */
  lemma OfferedActionsChangeStatus(status: string)
    ensures forall a :: a in OfferedActions(status) ==> TargetStatus(a) != status
    ensures |OfferedActions(status)| >= 1
  {
  }

  /**
   * The statuses as a state machine: pending offers both buttons, confirmed
   * only cancel, and cancelled only confirm, so cancelled is not terminal.
   */
  lemma StatusTransitions()
    ensures OfferedActions(PendingStatus) == [Confirm, Cancel]
    ensures OfferedActions(ConfirmedStatus) == [Cancel]
    ensures OfferedActions(CancelledStatus) == [Confirm]
  {
  }

  /** Pressing an offered button, once the update succeeds, changes that row's status. */
  lemma PressingOfferedActionChangesStatus(bookings: seq<Booking>, k: nat, a: Action)
    requires k < |bookings| && a in OfferedActions(bookings[k].status)
    ensures WithStatus(bookings, bookings[k].id, TargetStatus(a))[k].status == TargetStatus(a)
    ensures WithStatus(bookings, bookings[k].id, TargetStatus(a))[k].status != bookings[k].status
  {
    OfferedActionsChangeStatus(bookings[k].status);
  }

  const ConfirmedBadge: string := "bg-green-100 text-green-800"
  const PendingBadge: string := "bg-yellow-100 text-yellow-800"
  const OtherBadge: string := "bg-red-100 text-red-800"

  /** The badge colour: green for confirmed, yellow for pending, red for anything else. */
  function BadgeClass(status: string): (r: string)
    ensures r == ConfirmedBadge <==> status == ConfirmedStatus
    ensures r == PendingBadge <==> status == PendingStatus
    ensures r == OtherBadge <==> status != ConfirmedStatus && status != PendingStatus
  {
    if status == ConfirmedStatus then ConfirmedBadge
    else if status == PendingStatus then PendingBadge
    else OtherBadge
  }

  /** The page's local copy of the bookings table. */
  class BookingsTable {
    var bookings: seq<Booking>

    constructor ()
      ensures bookings == []
    {
      bookings := [];
    }

    /** The fetch's result replaces the list; a missing result empties it. */
    method Load(data: Option<seq<Booking>>)
      modifies this
      ensures bookings == if data.Some? then data.value else []
    {
      bookings := if data.Some? then data.value else [];
    }

    /**
     * updateStatus: after the database update, whose outcome is `updateOk`,
     * a success updates the matching entries and a failure keeps the list.
     */
    method UpdateStatus(id: string, status: string, updateOk: bool)
      modifies this
      ensures bookings == if updateOk then WithStatus(old(bookings), id, status) else old(bookings)
      ensures |bookings| == |old(bookings)|
      ensures forall i :: 0 <= i < |bookings| ==> bookings[i].id == old(bookings)[i].id
    {
      if updateOk {
        bookings := WithStatus(bookings, id, status);
      }
    }
  }
}
