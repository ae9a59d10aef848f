/** How src/db/api.ts turns database and remote-procedure responses into
    results. A response is its `error` (the message, when there is one) and
    its `data`; the queries themselves are not modelled. A thrown error is a
    `Failure` carrying its message. */
module Api {
  import opened Wrappers
  import opened Types
  import opened Seqs

  /** `error.message || fallback`: an empty message gives way to the
      fallback text. */
  function MessageOr(message: string, fallback: string): (r: string)
    ensures message != "" ==> r == message
    ensures message == "" ==> r == fallback
    ensures r != "" <==> message != "" || fallback != ""
  {
    if message != "" then message else fallback
  }

  /** `createOrder`: an error or a missing row is thrown. */
  function CreateOrder<T>(error: Option<string>, data: Option<T>): (r: Result<T, string>)
    ensures r.Success? <==> error.None? && data.Some?
    ensures r.Success? ==> r.value == data.value
    ensures error.Some? ==> r == Failure(MessageOr(error.value, "Failed to create order"))
    ensures error.None? && data.None? ==> r == Failure("No order data returned")
  {
    if error.Some? then Failure(MessageOr(error.value, "Failed to create order"))
    else if data.None? then Failure("No order data returned")
    else Success(data.value)
  }

  /** `createOrderItems`: never throws; an error or a non-array gives []. */
  function CreateOrderItems<T>(error: Option<string>, data: Option<seq<T>>): (r: seq<T>)
    ensures error.Some? || data.None? ==> r == []
    ensures error.None? && data.Some? ==> r == data.value
  {
    if error.Some? || data.None? then [] else data.value
  }

  /** The first row `cancel_order` returns. */
  datatype CancelResult = CancelResult(success: bool, message: string, refundAmount: Money)

  /** `cancelOrder`: an error or an empty answer is thrown; otherwise the
      first row. */
  function CancelOrder(error: Option<string>, data: Option<seq<CancelResult>>): (r: Result<CancelResult, string>)
    ensures r.Success? <==> error.None? && data.Some? && |data.value| > 0
    ensures r.Success? ==> r.value == data.value[0]
    ensures error.None? && (data.None? || data.value == []) ==> r == Failure("No response from cancel order function")
  {
    if error.Some? then Failure(MessageOr(error.value, "Failed to cancel order"))
    else if data.None? || |data.value| == 0 then Failure("No response from cancel order function")
    else Success(data.value[0])
  }

  /** What `validate_cash_on_pickup` decides. */
  datatype CashValidation = CashValidation(isValid: bool, message: string)

  /** `validateCashOnPickup`: never throws; an error or an empty answer
      counts as "not allowed". */
  function ValidateCashOnPickup(error: Option<string>, data: Option<seq<CashValidation>>): (r: CashValidation)
    ensures error.Some? ==> r == CashValidation(false, "Validation error occurred")
    ensures error.None? && (data.None? || data.value == []) ==> r == CashValidation(false, "No validation response")
    ensures error.None? && data.Some? && data.value != [] ==> r == data.value[0]
  {
    if error.Some? then CashValidation(false, "Validation error occurred")
    else if data.None? || |data.value| == 0 then CashValidation(false, "No validation response")
    else data.value[0]
  }

  /** The availability assumed when `check_slot_availability` returns no
      row: ten of ten places free. */
  const DefaultAvailability: SlotAvailability := SlotAvailability(10, 10, true)

  /** `checkSlotAvailability`: errors are thrown, an empty answer becomes the
      default, otherwise the first row. */
  function CheckSlotAvailability(error: Option<string>, data: Option<seq<SlotAvailability>>): (r: Result<SlotAvailability, string>)
    ensures r.Failure? <==> error.Some?
    ensures error.None? && (data.None? || data.value == []) ==> r == Success(DefaultAvailability)
    ensures error.None? && data.Some? && data.value != [] ==> r == Success(data.value[0])
  {
    if error.Some? then Failure(error.value)
    else if data.None? || |data.value| == 0 then Success(DefaultAvailability)
    else Success(data.value[0])
  }

  /** Low stock: strictly below the item's own threshold. */
  predicate IsLowStock(quantity: int, threshold: int) {
    quantity < threshold
  }

  function LowStockFilter(): Inventory -> bool {
    (item: Inventory) => IsLowStock(item.quantity, item.lowStockThreshold)
  }

  /** `getLowStockItems`: when the server-side filter fails, every inventory
      row is fetched and filtered here. */
  function GetLowStockItems(failed: bool, filtered: Option<seq<Inventory>>, all: Option<seq<Inventory>>): (r: seq<Inventory>)
    ensures failed ==> forall i :: 0 <= i < |r| ==> r[i].quantity < r[i].lowStockThreshold
    ensures failed && all.None? ==> r == []
    ensures failed ==> forall i :: 0 <= i < |all.GetOr([])| && all.GetOr([])[i].quantity < all.GetOr([])[i].lowStockThreshold ==> all.GetOr([])[i] in r
    ensures failed ==> IsSubsequence(r, all.GetOr([]))
    ensures failed ==> forall item :: multiset(r)[item] == if item.quantity < item.lowStockThreshold then multiset(all.GetOr([]))[item] else 0
    ensures !failed ==> r == filtered.GetOr([])
  {
    if failed then
      FilterIsSubsequence(all.GetOr([]), LowStockFilter());
      FilterMultiset(all.GetOr([]), LowStockFilter());
      Filter(all.GetOr([]), LowStockFilter())
    else filtered.GetOr([])
  }

  /** An item exactly at its threshold is not low on stock. */
  lemma AtThresholdIsNotLow(item: Inventory)
    requires item.quantity == item.lowStockThreshold
    ensures GetLowStockItems(true, None, Some([item])) == []
  {
  }

  // ---------------------------------------------------------------------
  // getDashboardStats
  // ---------------------------------------------------------------------

  /** The two columns the dashboard reads from an order. */
  datatype OrderRow = OrderRow(totalAmount: Option<Money>, status: OrderStatus)

  /** The two columns it reads from an inventory row. */
  datatype StockRow = StockRow(quantity: int, lowStockThreshold: int)

  datatype DashboardStats = DashboardStats(
    totalOrders: nat,
    todayOrders: nat,
    totalRevenue: Money,
    todayRevenue: Money,
    pendingOrders: nat,
    completedOrders: nat,
    cancelledOrders: nat,
    lowStockItems: nat)

  /** `Number(order.total_amount || 0)`: a missing amount counts as 0. */
  function Amount(o: OrderRow): Money {
    if o.totalAmount.Some? then o.totalAmount.value else 0.0
  }

  /** Revenue over all the given orders, whatever their status. */
  function Revenue(orders: seq<OrderRow>): Money {
    if orders == [] then 0.0 else Amount(orders[0]) + Revenue(orders[1..])
  }

  function IsPendingRow(): OrderRow -> bool { (o: OrderRow) => o.status == Pending || o.status == Confirmed }
  function IsCompletedRow(): OrderRow -> bool { (o: OrderRow) => o.status == Completed }
  function IsCancelledRow(): OrderRow -> bool { (o: OrderRow) => o.status == Cancelled }
  function IsLowStockRow(): StockRow -> bool { (s: StockRow) => IsLowStock(s.quantity, s.lowStockThreshold) }

  /** `getDashboardStats`; a query whose data is not an array (`None`)
      counts as no rows. */
  function GetDashboardStats(orders: Option<seq<OrderRow>>, todayOrders: Option<seq<OrderRow>>, inventory: Option<seq<StockRow>>): (st: DashboardStats)
    ensures st.totalOrders == |orders.GetOr([])| && st.todayOrders == |todayOrders.GetOr([])|
    ensures st.totalRevenue == Revenue(orders.GetOr([])) && st.todayRevenue == Revenue(todayOrders.GetOr([]))
    ensures orders.GetOr([]) == [] ==> st.pendingOrders == 0 && st.completedOrders == 0 && st.cancelledOrders == 0
    ensures inventory.GetOr([]) == [] ==> st.lowStockItems == 0
    ensures st.pendingOrders <= st.totalOrders && st.completedOrders <= st.totalOrders && st.cancelledOrders <= st.totalOrders
    ensures st.lowStockItems <= |inventory.GetOr([])|
  {
    var all := orders.GetOr([]);
    var today := todayOrders.GetOr([]);
    var stock := inventory.GetOr([]);
    DashboardStats(
      |all|,
      |today|,
      Revenue(all),
      Revenue(today),
      Count(all, IsPendingRow()),
      Count(all, IsCompletedRow()),
      Count(all, IsCancelledRow()),
      Count(stock, IsLowStockRow()))
  }

  /** Pending (which includes confirmed), completed and cancelled are
      counted over disjoint sets of orders, so together they never exceed
      the total. */
  lemma {:induction false} StatusCountsBounded(orders: seq<OrderRow>)
    ensures Count(orders, IsPendingRow()) + Count(orders, IsCompletedRow()) + Count(orders, IsCancelledRow()) <= |orders|
  {
    if orders != [] {
      StatusCountsBounded(orders[1..]);
    }
  }

  /** The dashboard's status counts add up to at most the order count. */
  lemma DashboardCountsBounded(orders: Option<seq<OrderRow>>, todayOrders: Option<seq<OrderRow>>, inventory: Option<seq<StockRow>>)
    ensures var st := GetDashboardStats(orders, todayOrders, inventory);
      st.pendingOrders + st.completedOrders + st.cancelledOrders <= st.totalOrders
  {
    StatusCountsBounded(orders.GetOr([]));
  }

  lemma {:induction false} RevenueAppend(a: seq<OrderRow>, b: seq<OrderRow>)
    ensures Revenue(a + b) == Revenue(a) + Revenue(b)
  {
    if a == [] {
      assert a + b == b;
    } else {
      RevenueAppend(a[1..], b);
      assert (a + b)[1..] == a[1..] + b;
    }
  }

  /** What one more fetched order row changes on the dashboard: the total
      and the revenue always grow; a pending or confirmed row adds to the
      pending count, a completed or cancelled row to its own count, and a
      preparing or ready row to none of the three. Today's figures and the
      stock count stay. Together with the empty case of the contract this
      fixes every order figure. */
  lemma DashboardAddOrder(all: seq<OrderRow>, today: Option<seq<OrderRow>>, inventory: Option<seq<StockRow>>, o: OrderRow)
    ensures var before := GetDashboardStats(Some(all), today, inventory);
      var after := GetDashboardStats(Some(all + [o]), today, inventory);
      && after.totalOrders == before.totalOrders + 1
      && after.totalRevenue == before.totalRevenue + Amount(o)
      && after.pendingOrders == before.pendingOrders + (if o.status == Pending || o.status == Confirmed then 1 else 0)
      && after.completedOrders == before.completedOrders + (if o.status == Completed then 1 else 0)
      && after.cancelledOrders == before.cancelledOrders + (if o.status == Cancelled then 1 else 0)
      && after.todayOrders == before.todayOrders && after.todayRevenue == before.todayRevenue
      && after.lowStockItems == before.lowStockItems
  {
    RevenueAppend(all, [o]);
    assert Revenue([o]) == Amount(o);
    CountSnoc(all, o, IsPendingRow());
    CountSnoc(all, o, IsCompletedRow());
    CountSnoc(all, o, IsCancelledRow());
  }

  /** One more order row for today adds to today's count and revenue only. */
  lemma DashboardAddTodayOrder(orders: Option<seq<OrderRow>>, today: seq<OrderRow>, inventory: Option<seq<StockRow>>, o: OrderRow)
    ensures var before := GetDashboardStats(orders, Some(today), inventory);
      var after := GetDashboardStats(orders, Some(today + [o]), inventory);
      && after.todayOrders == before.todayOrders + 1
      && after.todayRevenue == before.todayRevenue + Amount(o)
      && after.(todayOrders := before.todayOrders, todayRevenue := before.todayRevenue) == before
  {
    RevenueAppend(today, [o]);
    assert Revenue([o]) == Amount(o);
  }

  /** One more inventory row adds to the low-stock count exactly when its
      quantity is strictly below its threshold; an item at its threshold
      does not count. Nothing else changes. */
  lemma DashboardAddStock(orders: Option<seq<OrderRow>>, today: Option<seq<OrderRow>>, stock: seq<StockRow>, s: StockRow)
    ensures var before := GetDashboardStats(orders, today, Some(stock));
      var after := GetDashboardStats(orders, today, Some(stock + [s]));
      && after.lowStockItems == before.lowStockItems + (if s.quantity < s.lowStockThreshold then 1 else 0)
      && after.(lowStockItems := before.lowStockItems) == before
  {
    CountSnoc(stock, s, IsLowStockRow());
  }

  /** Revenue counts cancelled orders too: one more order of any status adds
      its amount. */
  lemma RevenueCountsEveryStatus(orders: seq<OrderRow>, o: OrderRow)
    ensures Revenue(orders + [o]) == Revenue(orders) + Amount(o)
  {
    RevenueAppend(orders, [o]);
  }
}
