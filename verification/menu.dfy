/** The menu page (src/pages/Menu.tsx): adding to the cart, the four list
    filters and the available-days caption. */
module Menu {
  import opened Wrappers
  import opened Types
  import opened Seqs
  import Base36

  // ---------------------------------------------------------------------
  // addToCart
  // ---------------------------------------------------------------------

  /** Position of the first line for menu item `id` (`Array.prototype.find`). */
  function FindLine(cart: seq<CartItem>, id: string): (r: Option<nat>)
    ensures r.Some? ==> r.value < |cart| && cart[r.value].menuItem.id == id
    ensures r.Some? ==> forall i :: 0 <= i < r.value ==> cart[i].menuItem.id != id
    ensures r.None? ==> forall i :: 0 <= i < |cart| ==> cart[i].menuItem.id != id
  {
    if cart == [] then None
    else if cart[0].menuItem.id == id then Some(0)
    else match FindLine(cart[1..], id)
      case None => None
      case Some(k) => Some(k + 1)
  }

  /** `addToCart`: the first line for the item gets one more; without one, a
      line of quantity 1 is appended. */
  function AddToCart(cart: seq<CartItem>, item: MenuItem): (r: seq<CartItem>)
    ensures FindLine(cart, item.id).Some? ==>
      var k := FindLine(cart, item.id).value;
      |r| == |cart| && r[k] == cart[k].(quantity := cart[k].quantity + 1)
      && forall i :: 0 <= i < |cart| && i != k ==> r[i] == cart[i]
    ensures FindLine(cart, item.id).None? ==> r == cart + [CartItem(item, 1, None)]
  {
    match FindLine(cart, item.id)
    case Some(k) => cart[k := cart[k].(quantity := cart[k].quantity + 1)]
    case None => cart + [CartItem(item, 1, None)]
  }

  /** The stored cart as `addToCart` reads it: no stored cart (null, or the
      empty string) is the empty one, and any other is parsed and added to. */
  function AddToStoredCart(stored: Option<seq<CartItem>>, item: MenuItem): (r: seq<CartItem>)
    ensures stored.None? ==> r == [CartItem(item, 1, None)]
    ensures stored.Some? ==> r == AddToCart(stored.value, item)
    ensures TotalQuantity(r) == TotalQuantity(stored.GetOr([])) + 1
  {
    AddRaisesQuantityByOne(stored.GetOr([]), item);
    AddToCart(stored.GetOr([]), item)
  }

  /** Sum of quantities over the lines. */
  function TotalQuantity(cart: seq<CartItem>): int {
    if cart == [] then 0 else cart[0].quantity + TotalQuantity(cart[1..])
  }

  lemma {:induction false} TotalQuantityAppend(a: seq<CartItem>, b: seq<CartItem>)
    ensures TotalQuantity(a + b) == TotalQuantity(a) + TotalQuantity(b)
  {
    if a != [] {
      TotalQuantityAppend(a[1..], b);
      assert (a + b)[1..] == a[1..] + b;
    } else {
      assert a + b == b;
    }
  }

  lemma {:induction false} TotalQuantityBump(cart: seq<CartItem>, k: nat)
    requires k < |cart|
    ensures TotalQuantity(cart[k := cart[k].(quantity := cart[k].quantity + 1)]) == TotalQuantity(cart) + 1
  {
    if k > 0 {
      TotalQuantityBump(cart[1..], k - 1);
      assert cart[k := cart[k].(quantity := cart[k].quantity + 1)][1..] == cart[1..][k - 1 := cart[k].(quantity := cart[k].quantity + 1)];
    }
  }

  /** Adding an item raises the number of portions in the cart by exactly
      one. */
  lemma AddRaisesQuantityByOne(cart: seq<CartItem>, item: MenuItem)
    ensures TotalQuantity(AddToCart(cart, item)) == TotalQuantity(cart) + 1
  {
    match FindLine(cart, item.id)
    case Some(k) => TotalQuantityBump(cart, k);
    case None =>
      TotalQuantityAppend(cart, [CartItem(item, 1, None)]);
      assert TotalQuantity([CartItem(item, 1, None)]) == 1;
  }

  /** No two lines are for the same menu item. */
  predicate UniqueIds(cart: seq<CartItem>) {
    forall i, j :: 0 <= i < j < |cart| ==> cart[i].menuItem.id != cart[j].menuItem.id
  }

  /** Adding keeps the lines' items distinct. */
  lemma AddKeepsIdsUnique(cart: seq<CartItem>, item: MenuItem)
    requires UniqueIds(cart)
    ensures UniqueIds(AddToCart(cart, item))
  {
    var r := AddToCart(cart, item);
    forall i, j | 0 <= i < j < |r|
      ensures r[i].menuItem.id != r[j].menuItem.id
    {
      assert r[i].menuItem.id == if i < |cart| then cart[i].menuItem.id else item.id;
      assert r[j].menuItem.id == if j < |cart| then cart[j].menuItem.id else item.id;
    }
  }

  // ---------------------------------------------------------------------
  // filterItems
  // ---------------------------------------------------------------------

  /** The page's filter selections; `day == None` is 'all'. */
  datatype Selection = Selection(search: string, category: string, session: string, day: Option<DayOfWeek>)

  /** ASCII `toLowerCase`. */
  function LowerChar(c: char): char {
    if 'A' <= c <= 'Z' then ((c as int) + 32) as char else c
  }

  function Lower(s: string): (r: string)
    ensures |r| == |s|
    ensures forall i :: 0 <= i < |s| ==> r[i] == LowerChar(s[i])
  {
    seq(|s|, i requires 0 <= i < |s| => LowerChar(s[i]))
  }

  /** `String.prototype.includes`. */
  predicate Contains(hay: string, needle: string) {
    exists i :: 0 <= i <= |hay| - |needle| && OccursAt(hay, needle, i)
  }

  predicate OccursAt(hay: string, needle: string, i: int)
    requires 0 <= i <= |hay| - |needle|
  {
    hay[i..i + |needle|] == needle
  }

  predicate DayOk(sel: Selection, item: MenuItem) {
    sel.day.None? || sel.day.value in item.availableDays
  }

  /** Case-insensitive substring match on the name or, when present, the
      description. */
  predicate SearchOk(sel: Selection, item: MenuItem) {
    sel.search == []
    || Contains(Lower(item.name), Lower(sel.search))
    || (item.description.Some? && Contains(Lower(item.description.value), Lower(sel.search)))
  }

  predicate CategoryOk(sel: Selection, item: MenuItem) {
    sel.category == "all" || item.category == sel.category
  }

  /** An item without a session never matches a selected session. */
  predicate SessionOk(sel: Selection, item: MenuItem) {
    sel.session == "all" || (item.session.Some? && SessionName(item.session.value) == sel.session)
  }

  predicate Matches(sel: Selection, item: MenuItem) {
    DayOk(sel, item) && SearchOk(sel, item) && CategoryOk(sel, item) && SessionOk(sel, item)
  }

  function DayFilter(sel: Selection): MenuItem -> bool { (x: MenuItem) => sel.day.Some? && sel.day.value in x.availableDays }
  function SearchFilter(sel: Selection): MenuItem -> bool { (x: MenuItem) => SearchOk(sel, x) }
  function CategoryFilter(sel: Selection): MenuItem -> bool { (x: MenuItem) => x.category == sel.category }
  function SessionFilter(sel: Selection): MenuItem -> bool {
    (x: MenuItem) => x.session.Some? && SessionName(x.session.value) == sel.session
  }

  /** `filterItems`: the four filters in the page's order, each skipped when
      its selection is 'all' or the search is empty. */
  function FilterItems(items: seq<MenuItem>, sel: Selection): seq<MenuItem> {
    var byDay := if sel.day.Some? then Filter(items, DayFilter(sel)) else items;
    var bySearch := if sel.search != [] then Filter(byDay, SearchFilter(sel)) else byDay;
    var byCategory := if sel.category != "all" then Filter(bySearch, CategoryFilter(sel)) else bySearch;
    if sel.session != "all" then Filter(byCategory, SessionFilter(sel)) else byCategory
  }

  function DayOkFilter(sel: Selection): MenuItem -> bool { (x: MenuItem) => DayOk(sel, x) }
  function UpToSearch(sel: Selection): MenuItem -> bool { (x: MenuItem) => DayOk(sel, x) && SearchOk(sel, x) }
  function UpToCategory(sel: Selection): MenuItem -> bool {
    (x: MenuItem) => DayOk(sel, x) && SearchOk(sel, x) && CategoryOk(sel, x)
  }
  function MatchesFilter(sel: Selection): MenuItem -> bool { (x: MenuItem) => Matches(sel, x) }

  /** A stage that is skipped or applied amounts to filtering by
      "skipped or the stage's test". */
  lemma Stage(s: seq<MenuItem>, prior: MenuItem -> bool, active: bool, test: MenuItem -> bool, next: MenuItem -> bool)
    requires forall x :: next(x) == (prior(x) && (!active || test(x)))
    requires forall x :: x in s ==> prior(x)
    ensures (if active then Filter(s, test) else s) == Filter(s, next)
  {
    if active {
      FilterExtensional(s, test, next);
    } else {
      FilterAllIndexed(s, next);
    }
  }

  lemma {:induction false} FilterExtensional(s: seq<MenuItem>, p: MenuItem -> bool, q: MenuItem -> bool)
    requires forall x :: x in s ==> p(x) == q(x)
    ensures Filter(s, p) == Filter(s, q)
  {
    if s != [] {
      FilterExtensional(s[1..], p, q);
    }
  }

  lemma FilterAllIndexed(s: seq<MenuItem>, p: MenuItem -> bool)
    requires forall x :: x in s ==> p(x)
    ensures Filter(s, p) == s
  {
    FilterAll(s, p);
  }

  /** The filtered list is the order-preserving sub-list of exactly the
      items that pass every active filter. */
  lemma FilterItemsIsOneFilter(items: seq<MenuItem>, sel: Selection)
    ensures FilterItems(items, sel) == Filter(items, MatchesFilter(sel))
  {
    var always := (x: MenuItem) => true;
    var byDay := if sel.day.Some? then Filter(items, DayFilter(sel)) else items;
    Stage(items, always, sel.day.Some?, DayFilter(sel), DayOkFilter(sel));
    var bySearch := if sel.search != [] then Filter(byDay, SearchFilter(sel)) else byDay;
    Stage(byDay, DayOkFilter(sel), sel.search != [], SearchFilter(sel), UpToSearch(sel));
    FilterTwice(items, DayOkFilter(sel), UpToSearch(sel), UpToSearch(sel));
    var byCategory := if sel.category != "all" then Filter(bySearch, CategoryFilter(sel)) else bySearch;
    Stage(bySearch, UpToSearch(sel), sel.category != "all", CategoryFilter(sel), UpToCategory(sel));
    FilterTwice(items, UpToSearch(sel), UpToCategory(sel), UpToCategory(sel));
    Stage(byCategory, UpToCategory(sel), sel.session != "all", SessionFilter(sel), MatchesFilter(sel));
    FilterTwice(items, UpToCategory(sel), MatchesFilter(sel), MatchesFilter(sel));
  }

  /** With every selection at 'all' and an empty search the list is shown
      as it is. */
  lemma NoSelectionShowsAll(items: seq<MenuItem>)
    ensures FilterItems(items, Selection("", "all", "all", None)) == items
  {
  }

  /** The search ignores letter case on both sides. */
  lemma SearchIgnoresCase(sel: Selection, item: MenuItem)
    ensures SearchOk(sel.(search := Base36.Upper(sel.search)), item) == SearchOk(sel, item)
  {
    assert Lower(Base36.Upper(sel.search)) == Lower(sel.search);
  }

  // ---------------------------------------------------------------------
  // formatAvailableDays
  // ---------------------------------------------------------------------

  /** `d.charAt(0).toUpperCase() + d.slice(1, 3)` on the stored day name. */
  function Abbrev(d: DayOfWeek): (r: string)
    ensures |r| == 3
  {
    var n := DayName(d);
    [Base36.UpperChar(n[0])] + n[1..3]
  }

  /** The abbreviations are the familiar three-letter ones, all distinct. */
  lemma AbbrevTable(d: DayOfWeek, e: DayOfWeek)
    ensures Abbrev(Monday) == "Mon" && Abbrev(Tuesday) == "Tue" && Abbrev(Wednesday) == "Wed"
    ensures Abbrev(Thursday) == "Thu" && Abbrev(Friday) == "Fri" && Abbrev(Saturday) == "Sat"
    ensures Abbrev(Sunday) == "Sun"
    ensures Abbrev(d) == Abbrev(e) <==> d == e
  {
  }

  /** The abbreviations joined with ", ". */
  function JoinAbbrevs(days: seq<DayOfWeek>): (r: string)
    requires days != []
    ensures |r| == 5 * |days| - 2
  {
    if |days| == 1 then Abbrev(days[0]) else Abbrev(days[0]) + ", " + JoinAbbrevs(days[1..])
  }

  /** `formatAvailableDays`: a missing or empty list and any list of seven
      entries read "All days"; otherwise the joined abbreviations. */
  function FormatAvailableDays(days: Option<seq<DayOfWeek>>): (r: string)
    ensures days.None? || days.value == [] || |days.value| == 7 ==> r == "All days"
  {
    if days.None? || |days.value| == 0 then "All days"
    else if |days.value| == 7 then "All days"
    else JoinAbbrevs(days.value)
  }

  /** The day an abbreviation stands for. */
  function DayOfAbbrev(a: string): (r: Option<DayOfWeek>)
    ensures r.Some? ==> Abbrev(r.value) == a
  {
    if a == "Mon" then Some(Monday) else if a == "Tue" then Some(Tuesday)
    else if a == "Wed" then Some(Wednesday) else if a == "Thu" then Some(Thursday)
    else if a == "Fri" then Some(Friday) else if a == "Sat" then Some(Saturday)
    else if a == "Sun" then Some(Sunday) else None
  }

  lemma AbbrevInverse(d: DayOfWeek)
    ensures DayOfAbbrev(Abbrev(d)) == Some(d)
  {
    AbbrevTable(d, d);
  }

  /** Reads a caption of joined abbreviations back into days. */
  function ParseAbbrevs(s: string): Option<seq<DayOfWeek>>
    decreases |s|
  {
    if |s| < 3 then None
    else match DayOfAbbrev(s[..3])
      case None => None
      case Some(d) =>
        if |s| == 3 then Some([d])
        else if |s| >= 5 && s[3..5] == ", " then
          match ParseAbbrevs(s[5..])
          case None => None
          case Some(ds) => Some([d] + ds)
        else None
  }

  /** The joined caption determines the list: reading it back gives the
      days in their order, duplicates included. */
  lemma {:induction false} JoinParseRoundTrip(days: seq<DayOfWeek>)
    requires days != []
    ensures ParseAbbrevs(JoinAbbrevs(days)) == Some(days)
    decreases |days|
  {
    AbbrevInverse(days[0]);
    var s := JoinAbbrevs(days);
    assert s[..3] == Abbrev(days[0]);
    if |days| > 1 {
      JoinParseRoundTrip(days[1..]);
      assert s[3..5] == ", ";
      assert s[5..] == JoinAbbrevs(days[1..]);
      assert [days[0]] + days[1..] == days;
    } else {
      assert days == [days[0]];
    }
  }

  /** A caption other than "All days" names exactly the listed days. */
  lemma FormatRoundTrip(days: seq<DayOfWeek>)
    requires days != [] && |days| != 7
    ensures ParseAbbrevs(FormatAvailableDays(Some(days))) == Some(days)
  {
    JoinParseRoundTrip(days);
  }

  /** The length test does not look at the entries: seven copies of Monday
      read "All days". */
  lemma SevenCopiesReadAllDays()
    ensures FormatAvailableDays(Some([Monday, Monday, Monday, Monday, Monday, Monday, Monday])) == "All days"
  {
  }
}
