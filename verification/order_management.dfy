/** The admin order list (src/pages/admin/OrderManagement.tsx): the status
    filter and the status change. `orders` is the list the page loaded,
    `db` the table the update is applied to. */
module OrderManagement {
  import opened Wrappers
  import opened Types
  import opened Seqs
  import opened OrderUpdates

  /** The filter selector: every order, or one status. */
  datatype StatusFilter = AllOrders | OnlyStatus(status: OrderStatus)

  function HasStatus(s: OrderStatus): Order -> bool {
    (o: Order) => o.status == s
  }

  /** `filterOrders`. */
  function FilterOrders(orders: seq<Order>, filter: StatusFilter): (r: seq<Order>)
    ensures filter == AllOrders ==> r == orders
    ensures filter.OnlyStatus? ==> forall i :: 0 <= i < |r| ==> r[i].status == filter.status
    ensures filter.OnlyStatus? ==> forall i :: 0 <= i < |orders| && orders[i].status == filter.status ==> orders[i] in r
    ensures IsSubsequence(r, orders)
    ensures filter.OnlyStatus? ==> forall o :: multiset(r)[o] == if o.status == filter.status then multiset(orders)[o] else 0
  {
    match filter
    case AllOrders => SubsequenceOfItself(orders); orders
    case OnlyStatus(s) =>
      FilterIsSubsequence(orders, HasStatus(s));
      FilterMultiset(orders, HasStatus(s));
      Filter(orders, HasStatus(s))
  }

  lemma {:induction false} SubsequenceOfItself(s: seq<Order>)
    ensures IsSubsequence(s, s)
    decreases |s|
  {
    if s != [] {
      SubsequenceOfItself(s[1..]);
    }
  }

  /** The six status predicates split any list. */
  lemma {:induction false} StatusFiltersPartition(orders: seq<Order>)
    ensures |Filter(orders, HasStatus(Pending))| + |Filter(orders, HasStatus(Confirmed))|
          + |Filter(orders, HasStatus(Preparing))| + |Filter(orders, HasStatus(Ready))|
          + |Filter(orders, HasStatus(Completed))| + |Filter(orders, HasStatus(Cancelled))|
          == |orders|
    decreases |orders|
  {
    if orders != [] {
      StatusFiltersPartition(orders[1..]);
    }
  }

  /** The status filters partition the list: the six filtered views add up
      to the whole. */
  lemma FilterViewsPartition(orders: seq<Order>)
    ensures |FilterOrders(orders, OnlyStatus(Pending))| + |FilterOrders(orders, OnlyStatus(Confirmed))|
          + |FilterOrders(orders, OnlyStatus(Preparing))| + |FilterOrders(orders, OnlyStatus(Ready))|
          + |FilterOrders(orders, OnlyStatus(Completed))| + |FilterOrders(orders, OnlyStatus(Cancelled))|
          == |orders|
  {
    StatusFiltersPartition(orders);
  }

  /** The status change as written to the row: nothing but the status. */
  function SetStatus(s: OrderStatus): Order -> Order {
    (o: Order) => o.(status := s)
  }

  /** Everything `handleStatusChange` does. */
  datatype StatusChange = StatusChange(db: seq<Order>, notification: Option<Notification>, email: Option<StatusEmail>, reloaded: bool)

  const UpdatedTitle := "Order Status Updated"

  /** `handleStatusChange`. The old status is read from the loaded list; the
      update goes through `updateOrder`; the notification, the email and the
      reload follow only a row coming back. Any new status is accepted from
      any old one. */
  function HandleStatusChange(orders: seq<Order>, db: seq<Order>, id: string, newStatus: OrderStatus, updateFailed: bool): (r: StatusChange)
    ensures FindById(orders, id).None? ==> r == StatusChange(db, None, None, false)
    ensures r.notification.Some? <==> r.email.Some?
    ensures r.reloaded <==> r.email.Some?
    ensures r.email.Some? <==> FindById(orders, id).Some? && !updateFailed && RowsWithId(db, id) == 1
    ensures r.email.None? ==> r.db == db
    ensures r.email.Some? ==>
      && r.db == UpdateWhereId(db, id, SetStatus(newStatus))
      && r.email.value == StatusEmail(id, FindById(orders, id).value.userId, StatusName(newStatus), StatusName(FindById(orders, id).value.status))
      && r.notification.value == Notification(FindById(orders, id).value.userId, UpdatedTitle,
           "Your order status has been updated to: " + StatusName(newStatus))
  {
    match FindById(orders, id)
    case None => StatusChange(db, None, None, false)
    case Some(current) =>
      var u := UpdateOrder(db, id, SetStatus(newStatus), updateFailed);
      if u.row.None? then StatusChange(db, None, None, false)
      else
        StatusChange(u.db,
          Some(Notification(current.userId, UpdatedTitle, "Your order status has been updated to: " + StatusName(newStatus))),
          Some(StatusEmail(id, current.userId, StatusName(newStatus), StatusName(current.status))),
          true)
  }

  /** No transition graph: whatever the order's status, even completed or
      cancelled, a successful change writes the new status into its row and
      changes nothing else in the table. */
  lemma AnyTransitionAccepted(orders: seq<Order>, db: seq<Order>, newStatus: OrderStatus, k: nat)
    requires k < |db| && FindById(orders, db[k].id).Some?
    requires forall i :: 0 <= i < |db| && i != k ==> db[i].id != db[k].id
    ensures HandleStatusChange(orders, db, db[k].id, newStatus, false).db == db[k := db[k].(status := newStatus)]
  {
    UniqueRowRewritten(db, db[k].id, SetStatus(newStatus), k);
  }

  /** The email reports the status the page had loaded as the old status,
      and the status asked for as the new one, whatever the stored row held. */
  lemma EmailCarriesLoadedStatus(orders: seq<Order>, db: seq<Order>, o: Order, newStatus: OrderStatus)
    requires |orders| > 0 && orders[0] == o
    requires RowsWithId(db, o.id) == 1
    ensures HandleStatusChange(orders, db, o.id, newStatus, false).email ==
      Some(StatusEmail(o.id, o.userId, StatusName(newStatus), StatusName(o.status)))
  {
  }
}
