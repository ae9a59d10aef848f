/** The refund table the two order pages share in their `getRefundInfo`
    (src/pages/OrderConfirmation.tsx:97-113, src/pages/OrderHistory.tsx:104-118).
    Both pages write the same table; it is defined once here. */
module RefundPolicy {
  import opened Types

  /** What `getRefundInfo` returns. */
  datatype RefundInfo = RefundInfo(refundAmount: Money, refundPercentage: int)

  /** The percentage refunded on cancellation in a given status: everything
      before the kitchen starts, half while preparing, nothing once ready or
      finished. */
  function RefundPercentage(s: OrderStatus): (pct: int)
    ensures pct == 100 <==> s == Pending || s == Confirmed
    ensures pct == 50 <==> s == Preparing
    ensures pct == 0 <==> s == Ready || s == Completed || s == Cancelled
  {
    match s
    case Pending => 100
    case Confirmed => 100
    case Preparing => 50
    case Ready => 0
    case Completed => 0
    case Cancelled => 0
  }

  /** `getRefundInfo` for an order in status `s` with total `total`. */
  function RefundFor(s: OrderStatus, total: Money): (r: RefundInfo)
    ensures r.refundPercentage == RefundPercentage(s)
    ensures total >= 0.0 ==> 0.0 <= r.refundAmount <= total
    ensures r.refundAmount * 100.0 == total * (RefundPercentage(s) as real)
  {
    RefundInfo(total * (RefundPercentage(s) as real) / 100.0, RefundPercentage(s))
  }

  /** The amount tracks the status: all of the total before preparation,
      half while preparing, none afterwards. */
  lemma RefundAmountByStatus(s: OrderStatus, total: Money)
    ensures (s == Pending || s == Confirmed) ==> RefundFor(s, total).refundAmount == total
    ensures s == Preparing ==> RefundFor(s, total).refundAmount == total / 2.0
    ensures (s == Ready || s == Completed || s == Cancelled) ==> RefundFor(s, total).refundAmount == 0.0
  {
  }

  /** A later status never refunds more, along the kitchen's sequence
      pending, confirmed, preparing, ready. */
  lemma RefundNonIncreasing(total: Money)
    requires total >= 0.0
    ensures RefundFor(Confirmed, total).refundAmount <= RefundFor(Pending, total).refundAmount
    ensures RefundFor(Preparing, total).refundAmount <= RefundFor(Confirmed, total).refundAmount
    ensures RefundFor(Ready, total).refundAmount <= RefundFor(Preparing, total).refundAmount
  {
  }
}
