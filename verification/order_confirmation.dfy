/** Cancellation logic of the order-confirmation page
    (src/pages/OrderConfirmation.tsx). The page holds at most one loaded
    order; `pickup` is the instant its pickup date and time parse to, and
    `now` the clock. */
module OrderConfirmation {
  import opened Wrappers
  import opened Types
  import opened DateUtils
  import opened RefundPolicy
  import OrderStatusUtils

  predicate IsTerminal(s: OrderStatus) {
    s == Completed || s == Cancelled
  }

  /** `getRefundInfo`: zero for no order, otherwise the shared table. */
  function PageRefundInfo(order: Option<Order>): (r: RefundInfo)
    ensures order.None? ==> r == RefundInfo(0.0, 0)
    ensures order.Some? ==> r == RefundFor(order.value.status, order.value.totalAmount)
  {
    match order
    case None => RefundInfo(0.0, 0)
    case Some(o) => RefundFor(o.status, o.totalAmount)
  }

  /** `canCancelThisOrder`: a loaded order that is not completed or
      cancelled and whose pickup is more than two hours away. */
  function CanCancelThisOrder(order: Option<Order>, pickup: Option<int>, now: int): (r: bool)
    ensures r ==> order.Some? && !IsTerminal(order.value.status)
    ensures r ==> pickup.Some? && pickup.value - now > 120
    ensures order.Some? && !IsTerminal(order.value.status) && pickup.Some? && pickup.value - now > 120 ==> r
  {
    match order
    case None => false
    case Some(o) => if IsTerminal(o.status) then false else CanCancelOrderDefault(pickup, now)
  }

  /** What pressing "Cancel Order" leads to. */
  datatype CancelOutcome = NoOrder | TooLateError | NotCancellableError | DialogOpened

  /** `handleCancelOrder`: the time window is checked before the status. */
  function HandleCancelOrder(order: Option<Order>, pickup: Option<int>, now: int): (out: CancelOutcome)
    ensures out == NoOrder <==> order.None?
    ensures out == TooLateError <==> order.Some? && !CanCancelOrderDefault(pickup, now)
    ensures out == NotCancellableError <==> order.Some? && CanCancelOrderDefault(pickup, now) && IsTerminal(order.value.status)
  {
    match order
    case None => NoOrder
    case Some(o) =>
      if !CanCancelOrderDefault(pickup, now) then TooLateError
      else if IsTerminal(o.status) then NotCancellableError
      else DialogOpened
  }

  /** The dialog opens exactly when the button's own visibility test holds. */
  lemma DialogOpensIffCancellable(order: Option<Order>, pickup: Option<int>, now: int)
    ensures HandleCancelOrder(order, pickup, now) == DialogOpened <==> CanCancelThisOrder(order, pickup, now)
  {
  }

  /** Because time is checked first, a completed order whose pickup is near
      or past reports the time error rather than the status error. */
  lemma TimeCheckedBeforeStatus(o: Order, pickup: Option<int>, now: int)
    requires IsTerminal(o.status)
    ensures !CanCancelOrderDefault(pickup, now) ==> HandleCancelOrder(Some(o), pickup, now) == TooLateError
    ensures CanCancelOrderDefault(pickup, now) ==> HandleCancelOrder(Some(o), pickup, now) == NotCancellableError
  {
  }

  /** The page and `canOrderBeCancelled` disagree: inside the window the
      page lets confirmed and ready orders be cancelled, which the utility
      reports as not cancellable; where the utility says yes, so does the
      page. */
  lemma PageDisagreesWithStatusUtility(o: Order, pickup: Option<int>, now: int)
    requires CanCancelOrderDefault(pickup, now)
    ensures (o.status == Confirmed || o.status == Ready) ==>
      CanCancelThisOrder(Some(o), pickup, now) && !OrderStatusUtils.CanOrderBeCancelled(StatusName(o.status))
    ensures OrderStatusUtils.CanOrderBeCancelled(StatusName(o.status)) ==> CanCancelThisOrder(Some(o), pickup, now)
  {
  }

  /** After "Yes, Cancel Order": whether the cancel procedure is called and
      whether the page moves on to the order list. */
  datatype AfterConfirm = AfterConfirm(called: bool, navigatedToOrders: bool)

  /** `confirmCancelOrder`: with an order loaded the procedure is called, and
      only a successful call leads on to the order list; a failure leaves
      the page where it is. `user` is the signed-in user's id: the route has
      no guard, and without a user `user!.id` throws inside the `try`, so
      the procedure is never called and the failure toast is shown. */
  function ConfirmCancelOrder<R>(order: Option<Order>, user: Option<string>, result: Result<R, string>): (c: AfterConfirm)
    ensures c.called <==> order.Some? && user.Some?
    ensures c.navigatedToOrders <==> order.Some? && user.Some? && result.Success?
  {
    if order.None? then AfterConfirm(false, false)
    else if user.None? then AfterConfirm(false, false)
    else AfterConfirm(true, result.Success?)
  }

  /** The notice shown above the cancel button, by the refund it promises. */
  datatype Notice = FiftyPercentNotice | FullRefundNotice

  function PromisedPercentage(n: Notice): int {
    match n
    case FiftyPercentNotice => 50
    case FullRefundNotice => 100
  }

  /** The notice as written: preparing and ready both promise half. */
  function NoticeAsWritten(s: OrderStatus): (n: Notice)
    ensures n == FiftyPercentNotice <==> s == Preparing || s == Ready
  {
    if s == Preparing || s == Ready then FiftyPercentNotice else FullRefundNotice
  }

  /** For a ready order the notice promises 50% while the refund table,
      the dialog and the order-history page all give 0%. */
  lemma ReadyNoticeOverpromises(o: Order, pickup: Option<int>, now: int)
    requires o.status == Ready && CanCancelThisOrder(Some(o), pickup, now)
    ensures PromisedPercentage(NoticeAsWritten(o.status)) == 50
    ensures PageRefundInfo(Some(o)).refundPercentage == 0
  {
  }

  /** The notice with a third text for ready orders, matching the refund. */
  datatype CorrectedNotice = NoRefundNotice | HalfRefundNotice | FullNotice

  function CorrectedPercentage(n: CorrectedNotice): int {
    match n
    case NoRefundNotice => 0
    case HalfRefundNotice => 50
    case FullNotice => 100
  }

  function NoticeCorrected(s: OrderStatus): CorrectedNotice {
    if s == Ready then NoRefundNotice
    else if s == Preparing then HalfRefundNotice
    else FullNotice
  }

  /** Whenever the notice is shown, the corrected notice promises exactly
      the percentage that will be refunded. */
  lemma CorrectedNoticeMatchesRefund(o: Order, pickup: Option<int>, now: int)
    requires CanCancelThisOrder(Some(o), pickup, now)
    ensures CorrectedPercentage(NoticeCorrected(o.status)) == PageRefundInfo(Some(o)).refundPercentage
  {
  }
}
