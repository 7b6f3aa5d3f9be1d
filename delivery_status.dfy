/** The delivery status helpers: the read-time timeout rule that turns an
    overdue pending delivery into a failed one, and the badge colour of each
    status. */
module DeliveryStatus {
  import opened Wrappers
  import opened Deliveries

  /** The tracking sub-record; only its response deadline is read, as a time in
      milliseconds. `None` stands for a deadline that is absent, the empty
      string, or text that is not a date: in all three cases the comparison with
      the clock never holds. */
  datatype Tracking = Tracking(responseTimeout: Option<int>)

  /** What the timeout rule reads of a delivery: its stored status and its
      optional tracking sub-record. */
  datatype TrackedDelivery = TrackedDelivery(status: Status, tracking: Option<Tracking>)

  /** The deadline of `d`, when it has tracking and the tracking has one. */
  function Deadline(d: TrackedDelivery): Option<int> {
    if d.tracking.Some? then d.tracking.value.responseTimeout else None
  }

  /** `checkDeliveryStatus(d)` evaluated at time `now`: the stored status, except
      that a pending delivery whose deadline lies strictly before `now` reads as
      failed. */
  function CheckDeliveryStatus(d: TrackedDelivery, now: int): (r: Status)
    ensures r == d.status || r == Failed
    ensures r != d.status <==> d.status == Pending && Deadline(d).Some? && Deadline(d).value < now
  {
    if d.tracking.None? then d.status
    else if d.status == Pending && d.tracking.value.responseTimeout.Some? && now > d.tracking.value.responseTimeout.value then Failed
    else d.status
  }

  /** Without tracking the stored status is returned as it is. */
  lemma NoTrackingKeepsStatus(status: Status, now: int)
    ensures CheckDeliveryStatus(TrackedDelivery(status, None), now) == status
  {
  }

  /** A pending delivery past its deadline reads as failed; exactly at the
      deadline it is still pending, because the comparison is strict. */
  lemma DeadlineIsStrict(deadline: int, now: int)
    ensures CheckDeliveryStatus(TrackedDelivery(Pending, Some(Tracking(Some(deadline)))), now) == (if deadline < now then Failed else Pending)
    ensures CheckDeliveryStatus(TrackedDelivery(Pending, Some(Tracking(Some(deadline)))), deadline) == Pending
  {
  }

  /** Only `pending` is ever rewritten, and never without a deadline. */
  lemma OnlyPendingWithDeadlineChanges(d: TrackedDelivery, now: int)
    requires d.status != Pending || Deadline(d).None?
    ensures CheckDeliveryStatus(d, now) == d.status
  {
  }

  /** Storing the derived status and deriving again at the same time gives the
      same answer. */
  lemma CheckIsIdempotent(d: TrackedDelivery, now: int)
    ensures CheckDeliveryStatus(d.(status := CheckDeliveryStatus(d, now)), now) == CheckDeliveryStatus(d, now)
  {
  }

  /** Once a delivery reads as failed it keeps reading as failed later on. */
  lemma FailedStaysFailed(d: TrackedDelivery, now: int, later: int)
    requires now <= later
    requires CheckDeliveryStatus(d, now) == Failed
    ensures CheckDeliveryStatus(d, later) == Failed
  {
  }

  const UnassignedColor := "bg-gray-100 text-gray-800"
  const PendingColor := "bg-yellow-100 text-yellow-800"
  const InProgressColor := "bg-blue-100 text-blue-800"
  const DeliveredColor := "bg-green-100 text-green-800"
  const FailedColor := "bg-red-100 text-red-800"

  /** The statuses that have their own entry in the colour table. */
  predicate HasOwnColor(s: Status) {
    s == Unassigned || s == Pending || s == InProgress || s == Delivered || s == Failed
  }

  /** `getDeliveryStatusColor(status)`: the table entry, or the pending colour for
      a status the table lacks (`in_transit`, `cancelled`). */
  function StatusColor(s: Status): (r: string)
    ensures r in {UnassignedColor, PendingColor, InProgressColor, DeliveredColor, FailedColor}
    ensures r == PendingColor <==> !HasOwnColor(s) || s == Pending
  {
    match s
    case Unassigned => UnassignedColor
    case Pending => PendingColor
    case InProgress => InProgressColor
    case Delivered => DeliveredColor
    case Failed => FailedColor
    case _ => PendingColor
  }

  /** Each of the five statuses in the table gets a colour no other of them has. */
  lemma OwnColorsDistinct(a: Status, b: Status)
    requires HasOwnColor(a) && HasOwnColor(b)
    requires StatusColor(a) == StatusColor(b)
    ensures a == b
  {
  }

  /** The record's own statuses `in_transit` and `cancelled` show the pending colour. */
  lemma RecordOnlyStatusesFallBack()
    ensures StatusColor(InTransit) == PendingColor
    ensures StatusColor(Cancelled) == PendingColor
  {
  }
}
