/** The cart page's list operations (src/pages/Cart.tsx). The cart is the
    sequence of lines kept in local storage; writing it back and the
    `cartUpdated` event are left out. */
module Cart {
  import opened Wrappers
  import opened Types
  import opened Seqs

  /** Lines for the menu item `id`. */
  function IsLineOf(id: string): CartItem -> bool {
    (c: CartItem) => c.menuItem.id == id
  }

  /** Lines for any other menu item. */
  function IsNotLineOf(id: string): CartItem -> bool {
    (c: CartItem) => c.menuItem.id != id
  }

  /** `removeItem`: every line of that item goes, the rest keep their order. */
  function RemoveItem(cart: seq<CartItem>, id: string): (r: seq<CartItem>)
    ensures forall i :: 0 <= i < |r| ==> r[i].menuItem.id != id && r[i] in cart
    ensures forall i :: 0 <= i < |cart| && cart[i].menuItem.id != id ==> cart[i] in r
    ensures IsSubsequence(r, cart)
    ensures forall c :: multiset(r)[c] == if c.menuItem.id == id then 0 else multiset(cart)[c]
    ensures |r| == |cart| - Count(cart, IsLineOf(id))
  {
    FilterIsSubsequence(cart, IsNotLineOf(id));
    FilterMultiset(cart, IsNotLineOf(id));
    CountSplit(cart, IsLineOf(id), IsNotLineOf(id));
    Filter(cart, IsNotLineOf(id))
  }

  /** Every line of `id` gets quantity `q`; nothing else changes. */
  function SetQuantity(cart: seq<CartItem>, id: string, q: int): (r: seq<CartItem>)
    ensures |r| == |cart|
    ensures forall i :: 0 <= i < |cart| && cart[i].menuItem.id == id ==> r[i] == cart[i].(quantity := q)
    ensures forall i :: 0 <= i < |cart| && cart[i].menuItem.id != id ==> r[i] == cart[i]
  {
    seq(|cart|, i requires 0 <= i < |cart| => if cart[i].menuItem.id == id then cart[i].(quantity := q) else cart[i])
  }

  /** `updateQuantity`: quantity 0 removes the item; any other number,
      negative ones included, is written into its lines. */
  function UpdateQuantity(cart: seq<CartItem>, id: string, q: int): (r: seq<CartItem>)
    ensures q == 0 ==> r == RemoveItem(cart, id)
    ensures q != 0 ==> r == SetQuantity(cart, id, q)
  {
    if q == 0 then RemoveItem(cart, id) else SetQuantity(cart, id, q)
  }

  /** `clearCart`. */
  function ClearCart(cart: seq<CartItem>): (r: seq<CartItem>)
    ensures r == []
  {
    []
  }

  function LineTotal(c: CartItem): Money {
    c.menuItem.price * (c.quantity as real)
  }

  /** `getTotalAmount`: the sum of price times quantity over the lines. The
      page folds from the left; in exact arithmetic the order is
      immaterial. */
  function Total(cart: seq<CartItem>): (t: Money)
    ensures cart == [] ==> t == 0.0
    ensures (forall i :: 0 <= i < |cart| ==> cart[i].menuItem.price >= 0.0 && cart[i].quantity >= 0) ==> t >= 0.0
  {
    if cart == [] then 0.0 else LineTotal(cart[0]) + Total(cart[1..])
  }

  /** The total splits into the lines of `id` and the others. */
  lemma {:induction false} TotalSplit(cart: seq<CartItem>, id: string)
    ensures Total(cart) == Total(RemoveItem(cart, id)) + Total(Filter(cart, IsLineOf(id)))
  {
    if cart != [] {
      TotalSplit(cart[1..], id);
    }
  }

  /** Setting quantities changes neither which lines belong to other
      items nor those lines. */
  lemma SetQuantityKeepsOthers(cart: seq<CartItem>, id: string, q: int)
    ensures RemoveItem(SetQuantity(cart, id, q), id) == RemoveItem(cart, id)
  {
    OtherLinesUnchanged(cart, id, q);
  }

  lemma {:induction false} OtherLinesUnchanged(cart: seq<CartItem>, id: string, q: int)
    ensures Filter(SetQuantity(cart, id, q), IsNotLineOf(id)) == Filter(cart, IsNotLineOf(id))
  {
    if cart != [] {
      OtherLinesUnchanged(cart[1..], id, q);
      assert SetQuantity(cart, id, q)[1..] == SetQuantity(cart[1..], id, q);
    }
  }

  /** With a single line for `id` at position k, updating its quantity
      swaps that line's worth for the new one's (or for nothing, when the
      line is removed) and leaves the rest of the total alone. */
  lemma UpdateChangesTotalByLine(cart: seq<CartItem>, id: string, q: int, k: nat)
    requires k < |cart| && cart[k].menuItem.id == id
    requires forall i :: 0 <= i < |cart| && i != k ==> cart[i].menuItem.id != id
    ensures q == 0 ==> Total(UpdateQuantity(cart, id, q)) == Total(cart) - LineTotal(cart[k])
    ensures q != 0 ==> Total(UpdateQuantity(cart, id, q)) == Total(cart) - LineTotal(cart[k]) + LineTotal(cart[k].(quantity := q))
  {
    LineShare(cart, id, k);
    if q != 0 {
      var updated := SetQuantity(cart, id, q);
      LineShare(updated, id, k);
      SetQuantityKeepsOthers(cart, id, q);
    }
  }

  /** The total is the lone line of `id` plus everything else. */
  lemma LineShare(cart: seq<CartItem>, id: string, k: nat)
    requires k < |cart| && cart[k].menuItem.id == id
    requires forall i :: 0 <= i < |cart| && i != k ==> cart[i].menuItem.id != id
    ensures Total(cart) == Total(RemoveItem(cart, id)) + LineTotal(cart[k])
  {
    TotalSplit(cart, id);
    SingleLine(cart, id, k);
    assert Total([cart[k]]) == LineTotal(cart[k]);
  }

  lemma {:induction false} SingleLine(cart: seq<CartItem>, id: string, k: nat)
    requires k < |cart| && cart[k].menuItem.id == id
    requires forall i :: 0 <= i < |cart| && i != k ==> cart[i].menuItem.id != id
    ensures Filter(cart, IsLineOf(id)) == [cart[k]]
  {
    if k == 0 {
      FilterNone(cart[1..], id);
    } else {
      SingleLine(cart[1..], id, k - 1);
    }
  }

  lemma {:induction false} FilterNone(cart: seq<CartItem>, id: string)
    requires forall i :: 0 <= i < |cart| ==> cart[i].menuItem.id != id
    ensures Filter(cart, IsLineOf(id)) == []
  {
    if cart != [] {
      FilterNone(cart[1..], id);
    }
  }

  /** Where "Proceed to Checkout" leads. */
  datatype CheckoutGate = EmptyCartError | GoToCheckout

  /** `handleCheckout`: an empty cart stays on the page with an error. */
  function HandleCheckout(cart: seq<CartItem>): (g: CheckoutGate)
    ensures g == GoToCheckout <==> |cart| > 0
  {
    if |cart| == 0 then EmptyCartError else GoToCheckout
  }

  /** A cleared cart is worth nothing and cannot be taken to checkout. */
  lemma ClearedCartBlocksCheckout(cart: seq<CartItem>)
    ensures HandleCheckout(ClearCart(cart)) == EmptyCartError
    ensures Total(ClearCart(cart)) == 0.0
  {
  }

  /** The quantity a typed value becomes: `parseInt(text) || 1`, so text that
      is not a number (`None`) and 0 both become 1, while a negative number
      is kept. */
  function QuantityFromField(parsed: Option<int>): (q: int)
    ensures q != 0
    ensures parsed.Some? && parsed.value != 0 ==> q == parsed.value
    ensures parsed.None? || parsed.value == 0 ==> q == 1
  {
    if parsed.None? || parsed.value == 0 then 1 else parsed.value
  }

  /** Typing into the quantity field never removes a line, and keeps the
      cart's length. */
  lemma FieldNeverRemoves(cart: seq<CartItem>, id: string, parsed: Option<int>)
    ensures |UpdateQuantity(cart, id, QuantityFromField(parsed))| == |cart|
  {
  }

  /** The minus button asks for one less; on a line with quantity 1 that is
      0, which removes the item. */
  function MinusButton(cart: seq<CartItem>, line: CartItem): (r: seq<CartItem>)
    ensures line.quantity == 1 ==> r == RemoveItem(cart, line.menuItem.id)
    ensures line.quantity != 1 ==> |r| == |cart|
    ensures line.quantity != 1 ==> forall i :: 0 <= i < |cart| ==>
      r[i] == if cart[i].menuItem.id == line.menuItem.id then cart[i].(quantity := line.quantity - 1) else cart[i]
  {
    UpdateQuantity(cart, line.menuItem.id, line.quantity - 1)
  }

  /** The plus button asks for one more; only a line at -1 is brought to 0,
      and so removed. */
  function PlusButton(cart: seq<CartItem>, line: CartItem): (r: seq<CartItem>)
    ensures line.quantity == -1 ==> r == RemoveItem(cart, line.menuItem.id)
    ensures line.quantity != -1 ==> |r| == |cart|
    ensures line.quantity != -1 ==> forall i :: 0 <= i < |cart| ==>
      r[i] == if cart[i].menuItem.id == line.menuItem.id then cart[i].(quantity := line.quantity + 1) else cart[i]
  {
    UpdateQuantity(cart, line.menuItem.id, line.quantity + 1)
  }

  /** With the item on one line only, pressing plus and then minus on that
      line gives the cart back, unless one of the two presses reaches 0. */
  lemma PlusThenMinusRestores(cart: seq<CartItem>, k: nat)
    requires k < |cart|
    requires forall i :: 0 <= i < |cart| && i != k ==> cart[i].menuItem.id != cart[k].menuItem.id
    requires cart[k].quantity != -1 && cart[k].quantity != 0
    ensures var up := PlusButton(cart, cart[k]); MinusButton(up, up[k]) == cart
  {
    var up := PlusButton(cart, cart[k]);
    var down := MinusButton(up, up[k]);
    assert |down| == |cart|;
    forall i | 0 <= i < |cart|
      ensures down[i] == cart[i]
    {
    }
  }

  /** With the item on one line only, the plus button adds one portion's
      price to the total, and the minus button (above quantity 1) takes
      one off. */
  lemma ButtonsMoveTotalByPrice(cart: seq<CartItem>, k: nat)
    requires k < |cart|
    requires forall i :: 0 <= i < |cart| && i != k ==> cart[i].menuItem.id != cart[k].menuItem.id
    ensures cart[k].quantity != -1 ==> Total(PlusButton(cart, cart[k])) == Total(cart) + cart[k].menuItem.price
    ensures cart[k].quantity != 1 ==> Total(MinusButton(cart, cart[k])) == Total(cart) - cart[k].menuItem.price
  {
    var c := cart[k];
    if c.quantity != -1 {
      UpdateChangesTotalByLine(cart, c.menuItem.id, c.quantity + 1, k);
      OneMorePortion(c);
      Rebalance(Total(PlusButton(cart, c)), Total(cart), LineTotal(c), LineTotal(c.(quantity := c.quantity + 1)), c.menuItem.price);
    }
    if c.quantity != 1 {
      UpdateChangesTotalByLine(cart, c.menuItem.id, c.quantity - 1, k);
      OneMorePortion(c.(quantity := c.quantity - 1));
      assert c.(quantity := c.quantity - 1).(quantity := c.quantity) == c;
      Rebalance(Total(MinusButton(cart, c)), Total(cart), LineTotal(c), LineTotal(c.(quantity := c.quantity - 1)), -c.menuItem.price);
    }
  }

  /** One more portion on a line adds its price. */
  lemma OneMorePortion(c: CartItem)
    ensures LineTotal(c.(quantity := c.quantity + 1)) == LineTotal(c) + c.menuItem.price
  {
  }

  lemma Rebalance(after: real, before: real, oldLine: real, newLine: real, shift: real)
    requires after == before - oldLine + newLine && newLine == oldLine + shift
    ensures after == before + shift
  {
  }
}
