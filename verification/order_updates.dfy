/** What the admin pages write to the `orders` table and send to a customer
    after changing an order's status (src/pages/admin/OrderPickup.tsx and
    src/pages/admin/OrderManagement.tsx). The table is a sequence of rows. */
module OrderUpdates {
  import opened Wrappers
  import opened Types

  /** The in-app notification row inserted for the order's owner. */
  datatype Notification = Notification(userId: string, title: string, message: string)

  /** The body sent to the status-email function. */
  datatype StatusEmail = StatusEmail(orderId: string, userId: string, newStatus: string, oldStatus: string)

  /** `update(...).eq('id', id)`: every row carrying that id is rewritten by
      `f`, every other row stays as it was. */
  function UpdateWhereId(db: seq<Order>, id: string, f: Order -> Order): (r: seq<Order>)
    ensures |r| == |db|
    ensures forall i :: 0 <= i < |db| && db[i].id != id ==> r[i] == db[i]
    ensures forall i :: 0 <= i < |db| && db[i].id == id ==> r[i] == f(db[i])
  {
    seq(|db|, i requires 0 <= i < |db| => if db[i].id == id then f(db[i]) else db[i])
  }

  /** `orders.find(o => o.id === id)`: the first listed order with that id. */
  function FindById(orders: seq<Order>, id: string): (r: Option<Order>)
    ensures r.Some? ==> r.value in orders && r.value.id == id
    ensures r.None? <==> forall i :: 0 <= i < |orders| ==> orders[i].id != id
    ensures |orders| > 0 && orders[0].id == id ==> r == Some(orders[0])
    ensures r.Some? ==> exists k :: 0 <= k < |orders| && orders[k] == r.value && forall i :: 0 <= i < k ==> orders[i].id != id
  {
    if orders == [] then None
    else if orders[0].id == id then Some(orders[0])
    else FindById(orders[1..], id)
  }

  /** The rows carrying `id`. */
  function RowsWithId(db: seq<Order>, id: string): (n: nat)
    ensures n <= |db|
  {
    if db == [] then 0 else (if db[0].id == id then 1 else 0) + RowsWithId(db[1..], id)
  }

  /** When the id names exactly the row at `k`, the rewrite touches that row
      alone. */
  lemma {:induction false} UniqueRowRewritten(db: seq<Order>, id: string, f: Order -> Order, k: nat)
    requires k < |db| && db[k].id == id
    requires forall i :: 0 <= i < |db| && i != k ==> db[i].id != id
    ensures RowsWithId(db, id) == 1
    ensures UpdateWhereId(db, id, f) == db[k := f(db[k])]
    decreases |db|
  {
    if k == 0 {
      NoRowsWithId(db[1..], id);
    } else {
      UniqueRowRewritten(db[1..], id, f, k - 1);
    }
  }

  lemma {:induction false} NoRowsWithId(db: seq<Order>, id: string)
    requires forall i :: 0 <= i < |db| ==> db[i].id != id
    ensures RowsWithId(db, id) == 0
    decreases |db|
  {
    if db != [] {
      NoRowsWithId(db[1..], id);
    }
  }

  /** The table after `updateOrder`, and what the call returns. */
  datatype Updated = Updated(db: seq<Order>, row: Option<Order>)

  /** `updateOrder` (src/db/api.ts): the update followed by `maybeSingle`.
      A failed call changes nothing and returns null; so does an id that no
      row or more than one row carries, the latter because a singular
      response that fails rolls the update back. */
  function UpdateOrder(db: seq<Order>, id: string, f: Order -> Order, failed: bool): (u: Updated)
    ensures u.row.Some? <==> !failed && RowsWithId(db, id) == 1
    ensures u.row.None? ==> u.db == db
    ensures u.row.Some? ==> u.db == UpdateWhereId(db, id, f)
    ensures u.row.Some? ==> FindById(db, id).Some? && u.row.value == f(FindById(db, id).value)
  {
    if failed || RowsWithId(db, id) != 1 then Updated(db, None)
    else
      match FindById(db, id)
      case Some(row) => Updated(UpdateWhereId(db, id, f), Some(f(row)))
      case None => NoRowsWithId(db, id); Updated(db, None)
  }
}
