/** src/app/api/admin/orders/route.ts: the administrator's status update
    (PATCH), a blunt overwrite guarded by a closed list of names, and the
    list of every order (GET). */
module AdminOrdersRoute {
  import opened Common
  import opened OrderModel
  import opened Store

  /** The status names the route accepts. Two of them are not the schema's
      spelling: "complete" (schema: "completed") and "canceled" (schema:
      "cancelled"). */
  const AllowedStatus: seq<string> :=
    ["pending", "paid", "processing", "shipped", "complete", "canceled"]

  /** A status update against the order collection, with `allowed` the names
      the route accepts: the response and the collection afterwards. In
      order: 400 when the id or the status is missing, 400 when the status is
      not accepted, 404 when no order has the id, 500 when the save rejects a
      name outside the schema enum; otherwise the status is overwritten.
      Only that one status can change. */
  function SetStatus(orders: seq<Order>, orderId: Id, status: string, allowed: seq<string>)
    : (res: (Result<()>, seq<Order>))
    ensures res.0 == Err(BadRequest(MissingFields)) <==> orderId == "" || status == ""
    ensures res.0 == Err(BadRequest(InvalidStatus)) <==>
      orderId != "" && status != "" && status !in allowed
    ensures res.0 == Err(NotFound) <==>
      orderId != "" && status != "" && status in allowed &&
      forall k :: 0 <= k < |orders| ==> orders[k].id != orderId
    ensures res.0 == Err(ServerError) <==>
      orderId != "" && status != "" && status in allowed &&
      (exists k :: 0 <= k < |orders| && orders[k].id == orderId) &&
      status !in SchemaStatusNames
    ensures res.0.Err? ==> res.1 == orders
    ensures |res.1| == |orders|
    ensures forall k :: 0 <= k < |orders| ==>
      SameButStatus(orders[k], res.1[k]) && (res.1[k] != orders[k] ==> orders[k].id == orderId)
  {
    if orderId == "" || status == "" then (Err(BadRequest(MissingFields)), orders)
    else if status !in allowed then (Err(BadRequest(InvalidStatus)), orders)
    else
      var i := FindOne(orders, IdFilter(orderId));
      if i == -1 then (Err(NotFound), orders)
      else match ParseStatus(status)
        case None => (Err(ServerError), orders)
        case Some(s) => (Ok(()), orders[i := orders[i].(status := s)])
  }

  /** An accepted name the schema knows replaces the status of the order with
      that id, whatever the status was (backwards moves included), and no
      other order changes. */
  lemma SetStatusOverwrites(orders: seq<Order>, k: int, status: string, allowed: seq<string>)
    requires 0 <= k < |orders| && orders[k].id != ""
    requires forall i, j :: 0 <= i < j < |orders| ==> orders[i].id != orders[j].id
    requires status in allowed && status in SchemaStatusNames
    ensures SetStatus(orders, orders[k].id, status, allowed) ==
            (Ok(()), orders[k := orders[k].(status := ParseStatus(status).value)])
  {
    var i := FindOne(orders, IdFilter(orders[k].id));
    assert i != -1 by {
      assert Matches(orders[k], IdFilter(orders[k].id));
    }
  }

  /** As written, the route never stores "completed" or "cancelled": a
      status that is one of those afterwards was already that before. */
  lemma CompletedUnreachable(orders: seq<Order>, orderId: Id, status: string)
    ensures var after := SetStatus(orders, orderId, status, AllowedStatus).1;
            forall k :: 0 <= k < |orders| ==>
              (after[k].status == Completed ==> orders[k].status == Completed) &&
              (after[k].status == Cancelled ==> orders[k].status == Cancelled)
  {
    var res := SetStatus(orders, orderId, status, AllowedStatus);
    if res.0.Ok? {
      assert status in ["pending", "paid", "processing", "shipped"];
    }
  }

  /** How the two spellings fare as written: the route's own spellings pass
      its list and then fail the schema on save (500, nothing stored); the
      schema's spellings are refused by the list (400). */
  lemma MisspelledStatusFailsOnSave(orders: seq<Order>, k: int, status: string)
    requires 0 <= k < |orders| && orders[k].id != ""
    ensures status == "complete" || status == "canceled" ==>
      SetStatus(orders, orders[k].id, status, AllowedStatus) == (Err(ServerError), orders)
    ensures status == "completed" || status == "cancelled" ==>
      SetStatus(orders, orders[k].id, status, AllowedStatus) == (Err(BadRequest(InvalidStatus)), orders)
  {
    assert FindOne(orders, IdFilter(orders[k].id)) != -1 by {
      assert Matches(orders[k], IdFilter(orders[k].id));
    }
    assert "complete" in AllowedStatus && "canceled" in AllowedStatus;
    assert "completed" !in AllowedStatus && "cancelled" !in AllowedStatus;
  }

  /** Corrected: with the schema's names as the accepted list, every status
      can be set on every stored order. */
  lemma CorrectedReachesEveryStatus(orders: seq<Order>, k: int, s: Status)
    requires 0 <= k < |orders| && orders[k].id != ""
    requires forall i, j :: 0 <= i < j < |orders| ==> orders[i].id != orders[j].id
    ensures SetStatus(orders, orders[k].id, StatusName(s), SchemaStatusNames) ==
            (Ok(()), orders[k := orders[k].(status := s)])
  {
    StatusNameRoundTrip(s);
    SetStatusOverwrites(orders, k, StatusName(s), SchemaStatusNames);
  }

  /** PATCH with the schema's names as the accepted list (the corrected
      route; as written it checks AllowedStatus, see CompletedUnreachable):
      the store's orders become what SetStatus gives, so a save never fails,
      and the store stays consistent. */
  method Patch(db: Database, orderId: Id, status: string) returns (r: Result<()>)
    requires db.Valid()
    modifies db
    ensures db.Valid()
    ensures (r, db.orders) == SetStatus(old(db.orders), orderId, status, SchemaStatusNames)
    ensures db.products == old(db.products) && db.carts == old(db.carts) && db.clock == old(db.clock)
  {
    if orderId == "" || status == "" {
      return Err(BadRequest(MissingFields));
    }
    if status !in SchemaStatusNames {
      return Err(BadRequest(InvalidStatus));
    }
    var i := FindOne(db.orders, IdFilter(orderId));
    if i == -1 {
      return Err(NotFound);
    }
    var parsed := ParseStatus(status);   // always accepted by save()
    var updated := db.orders[i := db.orders[i].(status := parsed.value)];
    StatusChangeKeepsConsistent(db.products, db.carts, db.orders, updated, db.clock);
    db.orders := updated;
    r := Ok(());
  }

  /** GET: every order, whoever owns it, newest first. */
  function List(db: Database): (r: seq<Order>)
    reads db
    ensures multiset(r) == multiset(db.orders)
    ensures CreatedInOrder(db.orders) ==> NewestFirst(r)
  {
    SortNewestFirst(db.orders)
  }
}
