/** Placing an order from the checkout page (src/pages/Checkout.tsx). The
    signed-in user, the chosen slot, the availability the page loaded, the
    clock and the random text are all inputs; the database calls are
    represented by their outcomes. */
module Checkout {
  import opened Wrappers
  import opened Types
  import opened Seqs
  import Api
  import Cart
  import TokenGenerator
  import Json

  /** One entry of the page's slot-availability record. */
  datatype SlotInfo = SlotInfo(available: int, max: int, isAvailable: bool)

  /** What the availability loop stores for a slot, given how its
      `checkSlotAvailability` call ended: the row it returned, or ten of ten
      free when the call threw. */
  function SlotInfoFor(r: Result<SlotAvailability, string>): (info: SlotInfo)
    ensures r.Failure? ==> info == SlotInfo(10, 10, true)
    ensures r.Success? ==> info == SlotInfo(r.value.availableSlots, r.value.maxCapacity, r.value.isAvailable)
  {
    match r
    case Success(a) => SlotInfo(a.availableSlots, a.maxCapacity, a.isAvailable)
    case Failure(_) => SlotInfo(10, 10, true)
  }

  /** `loadSlotAvailability`: one entry per offered slot. */
  function LoadSlotAvailability(slots: seq<string>, check: string -> Result<SlotAvailability, string>): (m: map<string, SlotInfo>)
    ensures m.Keys == set s | s in slots
    ensures forall s :: s in m ==> m[s] == SlotInfoFor(check(s))
  {
    map s | s in slots :: SlotInfoFor(check(s))
  }

  /** A slot the availability procedure failed on, or answered with no row,
      is treated as open. */
  lemma UncheckedSlotIsOpen(slots: seq<string>, check: string -> Result<SlotAvailability, string>, s: string, error: Option<string>)
    requires s in slots
    requires check(s) == Api.CheckSlotAvailability(error, Some([]))
    ensures LoadSlotAvailability(slots, check)[s].isAvailable
  {
  }

  /** After cash-on-pickup validation: a refusal moves a cash selection to
      card and leaves any other method alone. */
  function CashFallback(validation: Api.CashValidation, payment: PaymentMethod): (m: PaymentMethod)
    ensures !validation.isValid && payment == CashOnPickup ==> m == Card
    ensures validation.isValid || payment != CashOnPickup ==> m == payment
    ensures m == CashOnPickup ==> validation.isValid
  {
    if !validation.isValid && payment == CashOnPickup then Card else payment
  }

  /** Where `handlePlaceOrder`'s checks send the user. */
  datatype Gate = RedirectToLogin | SlotMissingError | SlotUnavailableError | Proceed

  /** The checks in order: signed in, a slot chosen, and that slot known and
      available. */
  function PlaceOrderGate(user: Option<string>, pickupSlot: string, availability: map<string, SlotInfo>): (g: Gate)
    ensures g == RedirectToLogin <==> user.None?
    ensures g == SlotMissingError <==> user.Some? && pickupSlot == ""
    ensures g == Proceed <==> user.Some? && pickupSlot != "" && pickupSlot in availability && availability[pickupSlot].isAvailable
  {
    if user.None? then RedirectToLogin
    else if pickupSlot == "" then SlotMissingError
    else if pickupSlot !in availability || !availability[pickupSlot].isAvailable then SlotUnavailableError
    else Proceed
  }

  /** The row `handlePlaceOrder` inserts into `orders`. */
  datatype NewOrder = NewOrder(
    userId: string,
    totalAmount: Money,
    status: OrderStatus,
    pickupDate: string,
    pickupTime: string,
    pickupSlot: string,
    paymentMethod: PaymentMethod,
    paymentToken: string,
    paymentCompleted: bool,
    qrCode: string,
    specialInstructions: Option<string>)

  /** One row inserted into `order_items`. */
  datatype NewOrderItem = NewOrderItem(
    orderId: string,
    menuItemId: string,
    quantity: int,
    price: Money,
    customizations: Option<Customizations>)

  /** The order record: pending, already paid, picked up at the chosen slot,
      with the cart's total, the fresh token, and a QR payload whose order id
      is the literal "temp". */
  function BuildOrder(userId: string, cart: seq<CartItem>, pickupSlot: string, today: string, payment: PaymentMethod,
                      tokenClock: nat, random: string, qrClock: nat, instructions: string): (o: NewOrder)
    ensures o.status == Pending && o.paymentCompleted
    ensures o.pickupTime == pickupSlot && o.pickupSlot == pickupSlot && o.pickupDate == today
    ensures o.totalAmount == Cart.Total(cart)
    ensures o.paymentToken == TokenGenerator.GeneratePaymentToken(tokenClock, random)
    ensures o.qrCode == TokenGenerator.GenerateOrderQRData("temp", o.paymentToken, qrClock)
    ensures o.specialInstructions.None? <==> instructions == ""
  {
    var token := TokenGenerator.GeneratePaymentToken(tokenClock, random);
    NewOrder(userId, Cart.Total(cart), Pending, today, pickupSlot, pickupSlot, payment, token, true,
      TokenGenerator.GenerateOrderQRData("temp", token, qrClock),
      if instructions == "" then None else Some(instructions))
  }

  /** The order items: one per cart line, in cart order, with the line's
      item, quantity and current price. */
  function BuildOrderItems(orderId: string, cart: seq<CartItem>): (items: seq<NewOrderItem>)
    ensures |items| == |cart|
    ensures forall i :: 0 <= i < |cart| ==>
      items[i] == NewOrderItem(orderId, cart[i].menuItem.id, cart[i].quantity, cart[i].menuItem.price, cart[i].customizations)
  {
    seq(|cart|, i requires 0 <= i < |cart| =>
      NewOrderItem(orderId, cart[i].menuItem.id, cart[i].quantity, cart[i].menuItem.price, cart[i].customizations))
  }

  function ItemsTotal(items: seq<NewOrderItem>): Money {
    if items == [] then 0.0 else items[0].price * (items[0].quantity as real) + ItemsTotal(items[1..])
  }

  /** The items add up to the order's total. */
  lemma {:induction false} ItemsMatchOrderTotal(orderId: string, cart: seq<CartItem>)
    ensures ItemsTotal(BuildOrderItems(orderId, cart)) == Cart.Total(cart)
  {
    if cart != [] {
      ItemsMatchOrderTotal(orderId, cart[1..]);
      assert BuildOrderItems(orderId, cart)[1..] == BuildOrderItems(orderId, cart[1..]);
    }
  }

  /** The QR payload reads back as the order id "temp" and the order's own
      payment token, whatever the random text was. */
  lemma QrCarriesTokenNotOrderId(userId: string, cart: seq<CartItem>, pickupSlot: string, today: string,
                                 payment: PaymentMethod, tokenClock: nat, random: string, qrClock: nat, instructions: string)
    ensures var o := BuildOrder(userId, cart, pickupSlot, today, payment, tokenClock, random, qrClock, instructions);
      TokenGenerator.VerifyOrderQRData(o.qrCode) == Some(TokenGenerator.QrClaim(Json.JString("temp"), Json.JString(o.paymentToken)))
  {
    var token := TokenGenerator.GeneratePaymentToken(tokenClock, random);
    assert |token| > 0;
    TokenGenerator.QrRoundTrip("temp", token, qrClock);
  }

  /** What `handlePlaceOrder` ends with. */
  datatype PlaceOutcome = PlaceOutcome(
    gate: Gate,
    inserted: Option<NewOrder>,
    items: seq<NewOrderItem>,
    cartCleared: bool,
    confirmationFor: Option<string>,
    error: Option<string>)

  /** `handlePlaceOrder`. `created` is how `createOrder` ended (the new
      order's id, or the thrown message). The result of inserting the items
      is not consulted: `createOrderItems` never throws. */
  function PlaceOrder(user: Option<string>, pickupSlot: string, availability: map<string, SlotInfo>,
                      cart: seq<CartItem>, today: string, payment: PaymentMethod, tokenClock: nat, random: string,
                      qrClock: nat, instructions: string, created: Result<string, string>): (out: PlaceOutcome)
    ensures out.gate == PlaceOrderGate(user, pickupSlot, availability)
    ensures out.gate != Proceed ==> out.inserted.None? && out.items == [] && !out.cartCleared && out.confirmationFor.None?
    ensures out.gate == Proceed ==>
      out.inserted == Some(BuildOrder(user.value, cart, pickupSlot, today, payment, tokenClock, random, qrClock, instructions))
    ensures out.cartCleared <==> out.gate == Proceed && created.Success?
    ensures out.cartCleared ==> out.confirmationFor == Some(created.value) && |out.items| == |cart| && out.error.None?
    ensures out.cartCleared ==> out.items == BuildOrderItems(created.value, cart)
    ensures out.gate == Proceed && created.Failure? ==> out.error == Some(created.error) && out.items == []
  {
    var gate := PlaceOrderGate(user, pickupSlot, availability);
    if gate != Proceed then
      PlaceOutcome(gate, None, [], false, None,
        if gate == SlotMissingError then Some("Please select a pickup time slot")
        else if gate == SlotUnavailableError then Some("Selected pickup slot is fully booked. Please choose another time.")
        else None)
    else
      var o := BuildOrder(user.value, cart, pickupSlot, today, payment, tokenClock, random, qrClock, instructions);
      match created
      case Failure(msg) => PlaceOutcome(gate, Some(o), [], false, None, Some(msg))
      case Success(id) => PlaceOutcome(gate, Some(o), BuildOrderItems(id, cart), true, Some(id), None)
  }
}
