/** Display helpers for order statuses (src/lib/order-status-utils.ts). They
    take the status as the raw stored string, so unknown strings are possible. */
module OrderStatusUtils {
  import opened Wrappers
  import opened Types

  /** The customer-facing label of each known status. */
  function Label(s: OrderStatus): string {
    match s
    case Pending => "Not Yet Started Preparing"
    case Confirmed => "Confirmed"
    case Preparing => "Preparation Started"
    case Ready => "Ready for Pickup"
    case Completed => "Completed"
    case Cancelled => "Cancelled"
  }

  /** The keys every object literal inherits from `Object.prototype`. */
  const InheritedKeys: set<string> := {
    "constructor", "hasOwnProperty", "isPrototypeOf", "propertyIsEnumerable",
    "toLocaleString", "toString", "valueOf", "__proto__",
    "__defineGetter__", "__defineSetter__", "__lookupGetter__", "__lookupSetter__"}

  /** What a lookup in one of the helpers' object literals yields: a string,
      or the inherited member of that name (a function, or the prototype
      object for `__proto__`), which is truthy and so survives `||`. */
  datatype Shown = Text(text: string) | InheritedMember(key: string)

  /** `getOrderStatusLabel`: `statusLabels[status] || status`. A known status
      gets its label (never empty, so `||` keeps it); an inherited key gets
      the inherited member; any other string is shown as it is. */
  function StatusLabel(status: string): (r: Shown)
    ensures ParseStatus(status).Some? ==> r == Text(Label(ParseStatus(status).value))
    ensures ParseStatus(status).None? && status in InheritedKeys ==> r == InheritedMember(status)
    ensures ParseStatus(status).None? && status !in InheritedKeys ==> r == Text(status)
  {
    match ParseStatus(status)
    case Some(s) => Text(Label(s))
    case None => if status in InheritedKeys then InheritedMember(status) else Text(status)
  }

  /** The six labels are pairwise distinct, and the pending label is the
      "not yet started" text rather than the status name. */
  lemma LabelsDistinct(a: OrderStatus, b: OrderStatus)
    ensures Label(a) == Label(b) <==> a == b
    ensures StatusLabel("pending") == Text("Not Yet Started Preparing")
  {
  }

  /** Because unknown strings pass through, the label function is not
      injective on strings: the unknown "Confirmed" shows like "confirmed". */
  lemma UnknownCanMimicLabel()
    ensures ParseStatus("Confirmed").None?
    ensures StatusLabel("Confirmed") == StatusLabel("confirmed")
  {
  }

  /** The longer description of each known status. */
  function Description(s: OrderStatus): (r: string)
    ensures r != ""
  {
    match s
    case Pending => "Your order has been received and is waiting to be prepared"
    case Confirmed => "Your order has been confirmed"
    case Preparing => "The kitchen is currently preparing your order"
    case Ready => "Your order is ready for pickup"
    case Completed => "Order has been picked up"
    case Cancelled => "This order has been cancelled"
  }

  /** `getOrderStatusDescription`: `descriptions[status] || ''`, so empty
      for an unknown status other than an inherited key. */
  function StatusDescription(status: string): (r: Shown)
    ensures r == Text("") <==> ParseStatus(status).None? && status !in InheritedKeys
    ensures ParseStatus(status).Some? ==> r == Text(Description(ParseStatus(status).value))
    ensures ParseStatus(status).None? && status in InheritedKeys ==> r == InheritedMember(status)
  {
    match ParseStatus(status)
    case Some(s) => Text(Description(s))
    case None => if status in InheritedKeys then InheritedMember(status) else Text("")
  }

  /** No status is named like an inherited key, so such a stored string
      reaches both lookups' prototype chain: "constructor" is shown as the
      `Object` constructor rather than as text. */
  lemma InheritedKeysReachPrototype(k: string)
    requires k in InheritedKeys
    ensures ParseStatus(k).None?
    ensures StatusLabel(k) == InheritedMember(k) && StatusDescription(k) == InheritedMember(k)
  {
  }

  /** A label shown as text is either a known status's label or the status
      string itself; a description shown as text is empty or a known
      status's description. */
  lemma ShownTextIsLabelOrStatus(status: string)
    ensures StatusLabel(status).Text? ==>
      StatusLabel(status).text == status || exists s :: StatusLabel(status).text == Label(s)
    ensures StatusDescription(status).Text? ==>
      StatusDescription(status).text == "" || exists s :: StatusDescription(status).text == Description(s)
  {
    match ParseStatus(status)
    case Some(s) =>
      assert StatusLabel(status).text == Label(s);
      assert StatusDescription(status).text == Description(s);
    case None =>
  }

  /** `isPreparationStarted`: the kitchen has begun, i.e. preparing or ready. */
  function IsPreparationStarted(status: string): (r: bool)
    ensures r <==> ParseStatus(status) == Some(Preparing) || ParseStatus(status) == Some(Ready)
  {
    status == "preparing" || status == "ready"
  }

  /** `canOrderBeCancelled`: true for pending and preparing only, so confirmed
      and ready orders are reported as not cancellable. */
  function CanOrderBeCancelled(status: string): (r: bool)
    ensures r <==> ParseStatus(status) == Some(Pending) || ParseStatus(status) == Some(Preparing)
  {
    status == "pending" || status == "preparing"
  }
}
