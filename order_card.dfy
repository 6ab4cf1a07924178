/** The admin order card's status actions (frontend/src/components/admin/OrderCard.tsx):
    which buttons appear and which status update each one requests. */
module OrderCard {
  import opened Wrappers
  import opened OrderStatus

  /** The fields of an AdminOrderResponse the actions read. */
  datatype AdminOrder = AdminOrder(id: int, paymentStatus: PaymentStatus, trackingStatus: TrackingStatus)

  /** How far along the delivery chain a status is. */
  function Rank(s: TrackingStatus): nat {
    match s
    case NotShipped => 0
    case Shipped => 1
    case InTransit => 2
    case Delivered => 3
    case Returned => 4
  }

  /** getNextStatus: one step along NOT_SHIPPED, SHIPPED, IN_TRANSIT, DELIVERED;
      nothing after DELIVERED or RETURNED. */
  function GetNextStatus(current: TrackingStatus): (next: Option<TrackingStatus>)
    ensures next.None? <==> current == Delivered || current == Returned
    ensures next.Some? ==> Rank(next.value) == Rank(current) + 1 && next.value != Returned
  {
    match current
    case NotShipped => Some(Shipped)
    case Shipped => Some(InTransit)
    case InTransit => Some(Delivered)
    case _ => None
  }

  /** `n` successive applications of getNextStatus, stopping at null. */
  function Advance(s: Option<TrackingStatus>, n: nat): Option<TrackingStatus>
    decreases n
  {
    if n == 0 || s.None? then s else Advance(GetNextStatus(s.value), n - 1)
  }

  /** From NOT_SHIPPED the chain reaches DELIVERED in exactly three steps and
      then stops. */
  lemma DeliveredInThreeSteps()
    ensures Advance(Some(NotShipped), 1) != Some(Delivered)
    ensures Advance(Some(NotShipped), 2) != Some(Delivered)
    ensures Advance(Some(NotShipped), 3) == Some(Delivered)
    ensures Advance(Some(NotShipped), 4) == None
  {
  }

  /** The chain only moves forward: `n` steps that do not stop raise the rank by `n`. */
  lemma {:induction false} AdvanceRaisesRank(s: TrackingStatus, n: nat)
    requires Advance(Some(s), n).Some?
    ensures Rank(Advance(Some(s), n).value) == Rank(s) + n
    decreases n
  {
    if n > 0 {
      var next := GetNextStatus(s);
      AdvanceRaisesRank(next.value, n - 1);
    }
  }

  /** The advance button: shown for paid orders not yet delivered or returned. */
  predicate ShowAdvance(order: AdminOrder) {
    order.paymentStatus == Paid && order.trackingStatus != Delivered && order.trackingStatus != Returned
  }

  /** The "Mark Returned" button. */
  predicate ShowMarkReturned(order: AdminOrder) {
    order.trackingStatus != NotShipped && order.trackingStatus != Returned
  }

  /** Both buttons are disabled while an update for this order is in flight. */
  predicate ActionsDisabled(order: AdminOrder, updating: Option<int>) {
    updating == Some(order.id)
  }

  /** The onStatusUpdate call a click on the advance button makes, if any. */
  function AdvanceClick(order: AdminOrder): (call: Option<(int, TrackingStatus)>)
    ensures call.Some? ==> call.value.0 == order.id && Some(call.value.1) == GetNextStatus(order.trackingStatus)
    ensures ShowAdvance(order) ==> call.Some?
  {
    match GetNextStatus(order.trackingStatus)
    case None => None
    case Some(next) => Some((order.id, next))
  }

  /** Whenever the advance button is on screen its next status is defined, and
      it is a forward move that never means "returned". */
  lemma AdvanceIsAlwaysAStep(order: AdminOrder)
    requires ShowAdvance(order)
    ensures GetNextStatus(order.trackingStatus).Some?
    ensures AdvanceClick(order) == Some((order.id, GetNextStatus(order.trackingStatus).value))
    ensures Rank(AdvanceClick(order).value.1) == Rank(order.trackingStatus) + 1
  {
  }

  function MarkReturnedClick(order: AdminOrder): (call: (int, TrackingStatus))
    ensures call == (order.id, Returned)
  {
    (order.id, Returned)
  }

  /** An order that has left the warehouse and is not yet returned can always be
      marked returned; one that never shipped cannot. */
  lemma MarkReturnedExactlyAfterShipping(order: AdminOrder)
    ensures ShowMarkReturned(order) <==> 1 <= Rank(order.trackingStatus) <= 3
  {
  }
}
