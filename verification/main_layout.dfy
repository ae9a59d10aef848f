/** The cart badge of the main layout (src/components/layouts/MainLayout.tsx).
    The stored cart is what `localStorage.getItem('cart')` and
    `JSON.parse` give: missing, not a readable array, or the cart lines. */
module MainLayout {
  import opened Wrappers
  import opened Types
  import Menu

  datatype StoredCart = Missing | Unreadable | Lines(lines: seq<CartItem>)

  /** The count shown: the sum of the quantities when the cart reads as an
      array, else 0. On first load a missing cart leaves the initial 0; on a
      `cartUpdated` event it sets 0; both are 0. */
  function BadgeCount(stored: StoredCart): (n: int)
    ensures stored.Missing? || stored.Unreadable? ==> n == 0
    ensures stored.Lines? && stored.lines == [] ==> n == 0
    ensures stored.Lines? && (forall i :: 0 <= i < |stored.lines| ==> stored.lines[i].quantity >= 0) ==> n >= 0
  {
    match stored
    case Lines(lines) => SumQuantities(lines)
    case _ => 0
  }

  /** The `reduce` over the lines, from the left. */
  function SumQuantities(lines: seq<CartItem>): (n: int)
    ensures lines == [] ==> n == 0
    ensures (forall i :: 0 <= i < |lines| ==> lines[i].quantity >= 0) ==> n >= 0
  {
    if lines == [] then 0 else SumQuantities(lines[..|lines| - 1]) + lines[|lines| - 1].quantity
  }

  /** The left fold equals the menu page's total quantity. */
  lemma {:induction false} SumIsTotalQuantity(lines: seq<CartItem>)
    ensures SumQuantities(lines) == Menu.TotalQuantity(lines)
    decreases |lines|
  {
    if lines != [] {
      var init := lines[..|lines| - 1];
      SumIsTotalQuantity(init);
      assert lines == init + [lines[|lines| - 1]];
      Menu.TotalQuantityAppend(init, [lines[|lines| - 1]]);
    }
  }

  /** The badge counts units, not lines: adding an item on the menu page
      raises it by exactly one, whether or not the item was already in the
      cart. */
  lemma BadgeCountsUnits(cart: seq<CartItem>, item: MenuItem)
    ensures BadgeCount(Lines(Menu.AddToCart(cart, item))) == BadgeCount(Lines(cart)) + 1
  {
    SumIsTotalQuantity(cart);
    SumIsTotalQuantity(Menu.AddToCart(cart, item));
    Menu.AddRaisesQuantityByOne(cart, item);
  }
}
