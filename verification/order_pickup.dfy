/** The pickup counter (src/pages/admin/OrderPickup.tsx): looking an order up
    by the token the customer shows, and marking it picked up. The `orders`
    table is a sequence of rows; the clock's ISO text is an input. */
module OrderPickup {
  import opened Wrappers
  import opened Types
  import opened Seqs
  import opened OrderUpdates
  import EmailValidator

  /** `!token.trim()`: the typed text is nothing but white space. */
  predicate IsBlank(token: string) {
    forall i :: 0 <= i < |token| ==> EmailValidator.IsJsWhitespace(token[i])
  }

  /** The `or` filter: the payment token or the QR payload equals the typed
      text exactly (untrimmed, case-sensitive). */
  function MatchesToken(token: string): Order -> bool {
    (o: Order) => o.paymentToken == Some(token) || o.qrCode == Some(token)
  }

  /** The part of the page the search and completion change. */
  datatype PickupState = PickupState(token: string, order: Option<Order>, error: string)

  /** How the lookup call ended: an answer, an error the client returned, or
      an exception. */
  datatype Call = Answered | Errored | Threw

  const EnterToken := "Please enter a token"
  const SearchError := "Error searching for order"
  const NotFound := "Order not found. Please check the token and try again."
  const AlreadyPickedUp := "This order has already been picked up."
  const WasCancelled := "This order has been cancelled."
  const UnexpectedError := "An error occurred while searching for the order"

  /** The complete action is offered for any order not yet completed or
      cancelled. */
  predicate CanComplete(o: Order) {
    o.status != Completed && o.status != Cancelled
  }

  /** What a lookup shows for the single matching order. */
  function Classify(st: PickupState, o: Order): (r: PickupState)
    ensures r.token == st.token && r.order == Some(o)
    ensures r.error == "" <==> CanComplete(o)
    ensures o.status == Completed ==> r.error == AlreadyPickedUp
    ensures o.status == Cancelled ==> r.error == WasCancelled
  {
    if o.status == Completed then st.(order := Some(o), error := AlreadyPickedUp)
    else if o.status == Cancelled then st.(order := Some(o), error := WasCancelled)
    else st.(order := Some(o), error := "")
  }

  /** `searchOrder` against the table `db`. A blank token stops before any
      lookup and leaves the shown order as it was; otherwise the shown order
      is cleared first, more than one match makes `maybeSingle` fail, and the
      single match is shown, with an error if it is completed or cancelled. */
  function SearchOrder(st: PickupState, db: seq<Order>, call: Call): (r: PickupState)
    ensures r.token == st.token
    ensures IsBlank(st.token) ==> r == st.(error := EnterToken)
    ensures !IsBlank(st.token) && r.order.Some? ==>
      call == Answered && r.order.value in db && MatchesToken(st.token)(r.order.value)
    ensures !IsBlank(st.token) && r.order.Some? ==> (r.error == "" <==> CanComplete(r.order.value))
    ensures !IsBlank(st.token) && call == Answered && Count(db, MatchesToken(st.token)) == 0 ==>
      r.order.None? && r.error == NotFound
    ensures !IsBlank(st.token) && call == Answered && Count(db, MatchesToken(st.token)) == 1 ==>
      r.order == Some(Filter(db, MatchesToken(st.token))[0])
    ensures !IsBlank(st.token) && (call == Errored || Count(db, MatchesToken(st.token)) > 1) && call != Threw ==>
      r.order.None? && r.error == SearchError
    ensures !IsBlank(st.token) && call == Threw ==> r.order.None? && r.error == UnexpectedError
  {
    if IsBlank(st.token) then st.(error := EnterToken)
    else
      var matches := Filter(db, MatchesToken(st.token));
      if call == Threw then st.(order := None, error := UnexpectedError)
      else if call == Errored || |matches| > 1 then st.(order := None, error := SearchError)
      else if |matches| == 0 then st.(order := None, error := NotFound)
      else
        var o := matches[0];
        assert call == Answered;
        assert o in db && MatchesToken(st.token)(o);
        Classify(st, o)
  }

  /** The row as `completeOrder` rewrites it: status and update time only. */
  function MarkCompleted(now: string): Order -> Order {
    (o: Order) => o.(status := Completed, updatedAt := now)
  }

  /** Everything `completeOrder` does: the table afterwards, the
      notification inserted, the email requested, and the page state. */
  datatype Completion = Completion(db: seq<Order>, notification: Option<Notification>, email: Option<StatusEmail>, state: PickupState)

  const CompletedTitle := "Order Completed"
  const CompletedMessage := "Your order has been picked up successfully. Thank you!"

  /** `completeOrder`. `updateFailed` is the update's error or exception. The
      email's outcome is not an input: nothing after the request depends on
      it. The function itself does not look at the status; only the button's
      visibility does. */
  function CompleteOrder(st: PickupState, db: seq<Order>, now: string, updateFailed: bool): (r: Completion)
    ensures st.order.None? || updateFailed ==> r == Completion(db, None, None, st)
    ensures |r.db| == |db|
    ensures forall i :: 0 <= i < |db| ==>
      r.db[i].(status := db[i].status, updatedAt := db[i].updatedAt) == db[i]
    ensures st.order.Some? && !updateFailed ==>
      && r.notification == Some(Notification(st.order.value.userId, CompletedTitle, CompletedMessage))
      && r.email == Some(StatusEmail(st.order.value.id, st.order.value.userId, "completed", StatusName(st.order.value.status)))
      && r.state == PickupState("", None, st.error)
      && forall i :: 0 <= i < |db| && db[i].id == st.order.value.id ==> r.db[i].status == Completed && r.db[i].updatedAt == now
    ensures st.order.Some? && !updateFailed ==>
      forall i :: 0 <= i < |db| && db[i].id != st.order.value.id ==> r.db[i] == db[i]
  {
    match st.order
    case None => Completion(db, None, None, st)
    case Some(o) =>
      if updateFailed then Completion(db, None, None, st)
      else
        Completion(
          UpdateWhereId(db, o.id, MarkCompleted(now)),
          Some(Notification(o.userId, CompletedTitle, CompletedMessage)),
          Some(StatusEmail(o.id, o.userId, "completed", StatusName(o.status))),
          PickupState("", None, st.error))
  }

  /** Completing an order never redeems its token: `token_used`, the payment
      token and the QR payload of every row are as before. */
  lemma TokenNeverMarkedUsed(st: PickupState, db: seq<Order>, now: string, updateFailed: bool, i: nat)
    requires i < |db|
    ensures var r := CompleteOrder(st, db, now, updateFailed);
      r.db[i].tokenUsed == db[i].tokenUsed && r.db[i].paymentToken == db[i].paymentToken && r.db[i].qrCode == db[i].qrCode
  {
    var r := CompleteOrder(st, db, now, updateFailed);
    assert r.db[i].(status := db[i].status, updatedAt := db[i].updatedAt) == db[i];
  }

  /** Rewriting a list splits into rewriting its head and its tail. */
  lemma UpdateCons(x: Order, rest: seq<Order>, id: string, f: Order -> Order)
    ensures UpdateWhereId([x] + rest, id, f) == [if x.id == id then f(x) else x] + UpdateWhereId(rest, id, f)
  {
    var l := UpdateWhereId([x] + rest, id, f);
    var r := [if x.id == id then f(x) else x] + UpdateWhereId(rest, id, f);
    assert |l| == |r|;
    forall i | 0 <= i < |l| ensures l[i] == r[i] {
      if i > 0 {
        assert ([x] + rest)[i] == rest[i - 1];
      }
    }
  }

  /** The rewrite keeps every row's tokens, so it keeps which rows match. */
  lemma {:induction false} CompletingKeepsMatches(db: seq<Order>, id: string, now: string, token: string)
    ensures Filter(UpdateWhereId(db, id, MarkCompleted(now)), MatchesToken(token))
         == UpdateWhereId(Filter(db, MatchesToken(token)), id, MarkCompleted(now))
    decreases |db|
  {
    var f := MarkCompleted(now);
    var p := MatchesToken(token);
    if db == [] {
      assert UpdateWhereId(db, id, f) == [];
    } else {
      var x := db[0];
      var x' := if x.id == id then f(x) else x;
      CompletingKeepsMatches(db[1..], id, now, token);
      assert db == [x] + db[1..];
      UpdateCons(x, db[1..], id, f);
      var u := UpdateWhereId(db, id, f);
      assert u[0] == x' && u[1..] == UpdateWhereId(db[1..], id, f);
      assert p(x') == p(x);
      var rest := Filter(db[1..], p);
      if p(x) {
        assert Filter(db, p) == [x] + rest;
        UpdateCons(x, rest, id, f);
      }
    }
  }

  /** Searching again for the token of an order just completed finds it and
      reports it as already picked up: the token stays usable for lookup. */
  lemma SearchAfterCompletion(st: PickupState, db: seq<Order>, now: string)
    requires st.order.Some? && !IsBlank(st.token)
    requires Count(db, MatchesToken(st.token)) == 1
    requires Filter(db, MatchesToken(st.token))[0].id == st.order.value.id
    ensures var after := CompleteOrder(st, db, now, false);
      SearchOrder(st, after.db, Answered).error == AlreadyPickedUp
  {
    var o := st.order.value;
    var m := Filter(db, MatchesToken(st.token));
    CompletingKeepsMatches(db, o.id, now, st.token);
    assert UpdateWhereId(m, o.id, MarkCompleted(now))[0] == MarkCompleted(now)(m[0]);
  }
}
