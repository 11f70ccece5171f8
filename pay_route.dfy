/** src/app/api/orders/pay/route.ts: the owner's pay action, which looks the
    order up by id and owner, returns at once when it is already paid or
    completed, and otherwise moves it to paid. */
module PayRoute {
  import opened Common
  import opened OrderModel
  import opened Store

  /** The lookup as written: the order id, and the caller's id on a `user`
      path. Orders keep their owner under `userId`, so with unknown paths
      passed through to the database (Mongoose's strictQuery off, its default
      since Mongoose 7) no order matches. */
  function PayFilter(orderId: Id, userId: Id): (f: Filter)
    ensures forall o :: !Matches(o, f)
  {
    var f := [("_id", orderId), ("user", userId)];
    assert forall o :: Matches(o, f) ==> PathValue(o, f[1].0) == Some(f[1].1);
    f
  }

  /** The lookup as intended: id and owner, on the schema's `userId` path. */
  function OwnerFilter(orderId: Id, userId: Id): (f: Filter)
    ensures forall o :: Matches(o, f) <==> o.id == orderId && o.userId == userId
  {
    var f := [("_id", orderId), ("userId", userId)];
    assert forall o :: Matches(o, f) ==>
      PathValue(o, f[0].0) == Some(f[0].1) && PathValue(o, f[1].0) == Some(f[1].1);
    f
  }

  /** With strictQuery on (the default before Mongoose 7), paths the schema
      does not declare are dropped from a filter before it is sent. Of the
      paths the routes' filters name (`_id`, `userId`, `user`), `_id` and
      `userId` are declared and `user` is not. */
  function StrictFilter(f: Filter): (g: Filter)
    ensures forall k :: 0 <= k < |g| ==> g[k] in f && (g[k].0 == "_id" || g[k].0 == "userId")
    ensures forall k :: 0 <= k < |f| && (f[k].0 == "_id" || f[k].0 == "userId") ==> f[k] in g
  {
    if f == [] then []
    else
      var rest := StrictFilter(f[1..]);
      assert forall k :: 1 <= k < |f| ==> f[k] == f[1..][k - 1];
      if f[0].0 == "_id" || f[0].0 == "userId" then [f[0]] + rest else rest
  }

  /** The pay action on the order collection once the lookup filter is
      fixed: 404 when no order matches; the matched order keeps a paid or
      completed status and reports it; any other status (shipped and
      cancelled included) becomes paid. Nothing else changes. */
  function Pay(orders: seq<Order>, filter: Filter): (res: (Result<Status>, seq<Order>))
    ensures res.0.Err? <==> forall k :: 0 <= k < |orders| ==> !Matches(orders[k], filter)
    ensures res.0.Err? ==> res.0 == Err(NotFound) && res.1 == orders
    ensures |res.1| == |orders|
    ensures res.0.Ok? ==>
      var i := FindOne(orders, filter);
      && (res.0.value == Paid || res.0.value == Completed)
      && (res.0.value == Completed <==> orders[i].status == Completed)
      && res.1[i].status == res.0.value
    ensures res.0.Ok? ==>
      forall k :: 0 <= k < |orders| && k != FindOne(orders, filter) ==> res.1[k] == orders[k]
    ensures forall k :: 0 <= k < |orders| ==>
      SameButStatus(orders[k], res.1[k]) &&
      (res.1[k] != orders[k] ==> Matches(orders[k], filter) && res.1[k].status == Paid)
  {
    var i := FindOne(orders, filter);
    if i == -1 then (Err(NotFound), orders)
    else if orders[i].status == Paid || orders[i].status == Completed then (Ok(orders[i].status), orders)
    else (Ok(Paid), orders[i := orders[i].(status := Paid)])
  }

  /** Paying twice in a row: the second call reports what the first did and
      changes nothing. */
  lemma PayIdempotent(orders: seq<Order>, filter: Filter)
    ensures var (r1, after) := Pay(orders, filter);
            Pay(after, filter) == (r1, after)
  {
    var (r1, after) := Pay(orders, filter);
    FindOneSameKeys(orders, after, filter);
  }

  /** As written, the lookup never finds an order: every call with a user and
      an order id answers 404 and changes nothing. */
  lemma PayAsWrittenNotFound(orders: seq<Order>, orderId: Id, userId: Id)
    ensures Pay(orders, PayFilter(orderId, userId)) == (Err(NotFound), orders)
  {
  }

  /** Under strictQuery the `user` condition is dropped instead, and a caller
      pays an order that belongs to someone else. */
  lemma StrictPayIgnoresOwner(orders: seq<Order>, k: int, userId: Id)
    requires 0 <= k < |orders| && orders[k].userId != userId && orders[k].status == Pending
    requires forall i, j :: 0 <= i < j < |orders| ==> orders[i].id != orders[j].id
    ensures Pay(orders, StrictFilter(PayFilter(orders[k].id, userId))) ==
            (Ok(Paid), orders[k := orders[k].(status := Paid)])
  {
    var f := PayFilter(orders[k].id, userId);
    var g := StrictFilter(f);
    assert f[1..] == [("user", userId)] && f[1..][1..] == [];
    assert StrictFilter(f[1..]) == StrictFilter(f[1..][1..]) == [];
    assert g == [f[0]] + StrictFilter(f[1..]);
    assert Matches(orders[k], g);
    var i := FindOne(orders, g);
    assert orders[i].id == orders[k].id;
  }

  /** Corrected: with the lookup on `userId`, a caller finds exactly their own
      order with that id; an order that does not exist and one owned by
      someone else give the same 404, and no one else's order ever changes. */
  lemma OwnerPayIsolated(orders: seq<Order>, orderId: Id, userId: Id)
    ensures var (r, after) := Pay(orders, OwnerFilter(orderId, userId));
            && (r == Err(NotFound) <==>
                forall k :: 0 <= k < |orders| ==> orders[k].id != orderId || orders[k].userId != userId)
            && forall k :: 0 <= k < |orders| && orders[k].userId != userId ==> after[k] == orders[k]
  {
    var f := OwnerFilter(orderId, userId);
    var (r, after) := Pay(orders, f);
    forall k | 0 <= k < |orders| && orders[k].userId != userId ensures after[k] == orders[k] {
      assert !Matches(orders[k], f);
    }
  }

  /** Corrected: the owner paying their own order moves it to paid from any
      status but paid and completed, which are kept. */
  lemma OwnerPaysOwnOrder(orders: seq<Order>, k: int)
    requires 0 <= k < |orders|
    requires forall i, j :: 0 <= i < j < |orders| ==> orders[i].id != orders[j].id
    ensures var s := orders[k].status;
            Pay(orders, OwnerFilter(orders[k].id, orders[k].userId)) ==
            if s == Paid || s == Completed then (Ok(s), orders)
            else (Ok(Paid), orders[k := orders[k].(status := Paid)])
  {
    var f := OwnerFilter(orders[k].id, orders[k].userId);
    assert Matches(orders[k], f);
    var i := FindOne(orders, f);
    assert orders[i].id == orders[k].id;
  }

  /** POST: 401 without a user, 400 without an order id, and otherwise the
      pay action with the lookup on id and owner (the corrected filter; the
      route as written passes PayFilter, see PayAsWrittenNotFound). */
  method Post(db: Database, userId: Id, orderId: Id) returns (r: Result<Status>)
    requires db.Valid()
    modifies db
    ensures db.Valid()
    ensures userId == "" ==> r == Err(Unauthorized) && db.orders == old(db.orders)
    ensures userId != "" && orderId == "" ==>
      r == Err(BadRequest(MissingOrderId)) && db.orders == old(db.orders)
    ensures userId != "" && orderId != "" ==>
      (r, db.orders) == Pay(old(db.orders), OwnerFilter(orderId, userId))
    ensures db.products == old(db.products) && db.carts == old(db.carts) && db.clock == old(db.clock)
  {
    if userId == "" {
      return Err(Unauthorized);
    }
    if orderId == "" {
      return Err(BadRequest(MissingOrderId));
    }
    r := PayMatching(db, OwnerFilter(orderId, userId));
  }

  /** The body of the action after the lookup, for any lookup filter. */
  method PayMatching(db: Database, filter: Filter) returns (r: Result<Status>)
    requires db.Valid()
    modifies db
    ensures db.Valid()
    ensures (r, db.orders) == Pay(old(db.orders), filter)
    ensures db.products == old(db.products) && db.carts == old(db.carts) && db.clock == old(db.clock)
  {
    var i := FindOne(db.orders, filter);
    if i == -1 {
      return Err(NotFound);
    }
    var order := db.orders[i];
    if order.status == Paid || order.status == Completed {
      return Ok(order.status);
    }
    var updated := db.orders[i := order.(status := Paid)];
    StatusChangeKeepsConsistent(db.products, db.carts, db.orders, updated, db.clock);
    db.orders := updated;
    r := Ok(Paid);
  }
}
