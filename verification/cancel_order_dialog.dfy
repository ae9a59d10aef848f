/** The confirmation dialog shown before an order is cancelled
    (src/components/ui/CancelOrderDialog.tsx). It receives the status as a raw
    string and the figures the page computed, and picks one of three
    scenarios to display. */
module CancelOrderDialog {
  import opened Wrappers
  import opened Types
  import opened RefundPolicy

  datatype Scenario = NoRefund | PartialRefund | FullRefund

  /** The scenario: ready means no refund, preparing means a partial refund,
      and every other string, known or not, gets the full-refund text. */
  function ScenarioFor(orderStatus: string): (sc: Scenario)
    ensures sc == NoRefund <==> orderStatus == "ready"
    ensures sc == PartialRefund <==> orderStatus == "preparing"
    ensures sc == FullRefund <==> orderStatus != "ready" && orderStatus != "preparing"
  {
    if orderStatus == "ready" then NoRefund
    else if orderStatus == "preparing" then PartialRefund
    else FullRefund
  }

  /** The figures the dialog prints: the refund, its percentage, and the
      retained amount where that row is shown. */
  datatype Figures = Figures(refundShown: Money, percentShown: int, retainedShown: Option<Money>)

  function DisplayedFigures(orderStatus: string, totalAmount: Money, refundAmount: Money, refundPercentage: int): (f: Figures)
    ensures ScenarioFor(orderStatus) == NoRefund ==>
      f.refundShown == 0.0 && f.percentShown == 0 && f.retainedShown == Some(totalAmount)
    ensures ScenarioFor(orderStatus) == PartialRefund ==>
      f.refundShown == refundAmount && f.percentShown == refundPercentage
      && f.retainedShown.Some? && f.retainedShown.value + refundAmount == totalAmount
    ensures ScenarioFor(orderStatus) == FullRefund ==>
      f.refundShown == refundAmount && f.percentShown == refundPercentage && f.retainedShown.None?
  {
    match ScenarioFor(orderStatus)
    case NoRefund => Figures(0.0, 0, Some(totalAmount))
    case PartialRefund => Figures(refundAmount, refundPercentage, Some(totalAmount - refundAmount))
    case FullRefund => Figures(refundAmount, refundPercentage, None)
  }

  /** The ready branch ignores the refund the page passed in. */
  lemma ReadyIgnoresRefundProp(totalAmount: Money, a: Money, b: Money, p: int, q: int)
    ensures DisplayedFigures("ready", totalAmount, a, p) == DisplayedFigures("ready", totalAmount, b, q)
  {
  }

  /** Fed with the pages' refund table, the dialog's scenario agrees with the
      percentage for the four statuses the pages let through, and the
      figures it prints add up to the order total. */
  lemma DialogAgreesWithPolicy(s: OrderStatus, total: Money)
    requires s != Completed && s != Cancelled
    ensures var info := RefundFor(s, total);
      var f := DisplayedFigures(StatusName(s), total, info.refundAmount, info.refundPercentage);
      f.percentShown == RefundPercentage(s)
      && f.refundShown == info.refundAmount
      && (f.retainedShown.Some? ==> f.refundShown + f.retainedShown.value == total)
    ensures ScenarioFor(StatusName(s)) == NoRefund <==> RefundPercentage(s) == 0
    ensures ScenarioFor(StatusName(s)) == PartialRefund <==> RefundPercentage(s) == 50
    ensures ScenarioFor(StatusName(s)) == FullRefund <==> RefundPercentage(s) == 100
  {
    var info := RefundFor(s, total);
    RefundAmountByStatus(s, total);
  }

  /** For the two terminal statuses the dialog would print the full-refund
      text next to a 0% figure; the pages never open it for them. */
  lemma TerminalStatusShowsFullRefundText(s: OrderStatus, total: Money)
    requires s == Completed || s == Cancelled
    ensures ScenarioFor(StatusName(s)) == FullRefund
    ensures RefundFor(s, total).refundPercentage == 0
  {
  }
}
