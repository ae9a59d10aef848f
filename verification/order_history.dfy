/** Cancellation logic and per-order display conditions of the order-history
    page (src/pages/OrderHistory.tsx). `pickup` is the instant an order's
    pickup date and time parse to, and `now` the clock. */
module OrderHistory {
  import opened Wrappers
  import opened Types
  import opened DateUtils
  import opened RefundPolicy
  import OrderConfirmation

  /** `getRefundInfo` for one listed order. */
  function HistoryRefundInfo(o: Order): (r: RefundInfo)
    ensures r.refundPercentage == RefundPercentage(o.status)
    ensures o.totalAmount >= 0.0 ==> 0.0 <= r.refundAmount <= o.totalAmount
  {
    RefundFor(o.status, o.totalAmount)
  }

  /** Both pages compute the same refund for the same order. */
  lemma SameRefundAsConfirmation(o: Order)
    ensures HistoryRefundInfo(o) == OrderConfirmation.PageRefundInfo(Some(o))
  {
  }

  /** `canCancelThisOrder`: not completed or cancelled, and pickup more than
      two hours away. */
  function CanCancelThisOrder(o: Order, pickup: Option<int>, now: int): (r: bool)
    ensures r <==> !OrderConfirmation.IsTerminal(o.status) && pickup.Some? && pickup.value - now > 120
  {
    if OrderConfirmation.IsTerminal(o.status) then false else CanCancelOrderDefault(pickup, now)
  }

  /** Both pages decide cancellability of the same order alike. */
  lemma SameGateAsConfirmation(o: Order, pickup: Option<int>, now: int)
    ensures CanCancelThisOrder(o, pickup, now) == OrderConfirmation.CanCancelThisOrder(Some(o), pickup, now)
  {
  }

  /** The page's cancellation state. */
  datatype PageState = PageState(cancellingOrderId: Option<string>, dialogOpen: bool, orderToCancel: Option<Order>)

  datatype CancelRequest = TooLate | NotCancellable | Opened

  /** `handleCancelOrder(order)`: time first, then status; only when both
      pass is the order selected and the dialog opened. */
  function HandleCancelOrder(st: PageState, o: Order, pickup: Option<int>, now: int): (r: (CancelRequest, PageState))
    ensures r.0 == Opened <==> CanCancelThisOrder(o, pickup, now)
    ensures r.0 == TooLate <==> !CanCancelOrderDefault(pickup, now)
    ensures r.0 == Opened ==> r.1 == st.(orderToCancel := Some(o), dialogOpen := true)
    ensures r.0 != Opened ==> r.1 == st
  {
    if !CanCancelOrderDefault(pickup, now) then (TooLate, st)
    else if OrderConfirmation.IsTerminal(o.status) then (NotCancellable, st)
    else (Opened, st.(orderToCancel := Some(o), dialogOpen := true))
  }

  /** The history page opens the dialog in exactly the cases the
      confirmation page does. */
  lemma SameOutcomeAsConfirmation(st: PageState, o: Order, pickup: Option<int>, now: int)
    ensures HandleCancelOrder(st, o, pickup, now).0 == Opened
      <==> OrderConfirmation.HandleCancelOrder(Some(o), pickup, now) == OrderConfirmation.DialogOpened
  {
    OrderConfirmation.DialogOpensIffCancellable(Some(o), pickup, now);
  }

  /** What the page does after "Yes, Cancel Order": whether the cancel
      procedure is called, and whether the list is reloaded. */
  datatype AfterConfirm = AfterConfirm(state: PageState, called: bool, reloaded: bool)

  /** `confirmCancelOrder`. `result` is how the `cancelOrder` call ended;
      `user` is the signed-in user's id, whose absence makes `user!.id`
      throw inside the `try` before the call. The `finally` block clears the
      in-progress id and the selection whatever happened. */
  function ConfirmCancelOrder<R>(st: PageState, user: Option<string>, result: Result<R, string>): (c: AfterConfirm)
    ensures st.orderToCancel.None? ==> c == AfterConfirm(st, false, false)
    ensures st.orderToCancel.Some? ==> c.state == PageState(None, false, None)
    ensures c.called <==> st.orderToCancel.Some? && user.Some?
    ensures c.reloaded <==> st.orderToCancel.Some? && user.Some? && result.Success?
  {
    if st.orderToCancel.None? then AfterConfirm(st, false, false)
    else if user.None? then AfterConfirm(PageState(None, false, None), false, false)
    else AfterConfirm(PageState(None, false, None), true, result.Success?)
  }

  /** The refund line of a listed order: shown for cancelled orders with a
      recorded amount; a missing or empty refund status reads "pending". */
  function RefundLine(o: Order): (r: Option<(Money, string)>)
    ensures r.Some? <==> o.status == Cancelled && o.refundAmount.Some?
    ensures r.Some? ==> r.value.0 == o.refundAmount.value
    ensures r.Some? ==> (r.value.1 == "pending" <==> o.refundStatus.None? || o.refundStatus.value in {"", "pending"})
    ensures r.Some? && o.refundStatus.Some? && o.refundStatus.value != "" ==> r.value.1 == o.refundStatus.value
  {
    if o.status == Cancelled && o.refundAmount.Some? then
      Some((o.refundAmount.value, if o.refundStatus.Some? && o.refundStatus.value != "" then o.refundStatus.value else "pending"))
    else None
  }

  /** The "50% refund if cancelled now" alert. */
  function PartialRefundAlert(o: Order, pickup: Option<int>, now: int): bool {
    o.status == Preparing && CanCancelThisOrder(o, pickup, now)
  }

  /** The "No refund available" alert. */
  function NoRefundAlert(o: Order, pickup: Option<int>, now: int): bool {
    o.status == Ready && CanCancelThisOrder(o, pickup, now)
  }

  /** The two alerts never show together, only next to the cancel button,
      and each states the refund the shared table gives. */
  lemma AlertsAgreeWithRefund(o: Order, pickup: Option<int>, now: int)
    ensures !(PartialRefundAlert(o, pickup, now) && NoRefundAlert(o, pickup, now))
    ensures PartialRefundAlert(o, pickup, now) || NoRefundAlert(o, pickup, now) ==> CanCancelThisOrder(o, pickup, now)
    ensures PartialRefundAlert(o, pickup, now) ==> HistoryRefundInfo(o).refundPercentage == 50
    ensures NoRefundAlert(o, pickup, now) ==> HistoryRefundInfo(o).refundPercentage == 0
    ensures CanCancelThisOrder(o, pickup, now) && !PartialRefundAlert(o, pickup, now) && !NoRefundAlert(o, pickup, now)
      ==> HistoryRefundInfo(o).refundPercentage == 100
  {
  }
}
