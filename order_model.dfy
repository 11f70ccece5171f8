/** The order document of src/models/Order.ts: its item, shipping and order
    shapes, the status enum with its default, and the two queries the order
    routes run against the collection (find by filter, newest first). */
module OrderModel {
  import opened Common

  /** The schema's status enum. */
  datatype Status = Pending | Paid | Processing | Shipped | Completed | Cancelled

  const DefaultStatus: Status := Pending
  const DefaultPaymentMethod: string := "manual"

  /** The enum's values as the strings stored and transmitted. */
  const SchemaStatusNames: seq<string> :=
    ["pending", "paid", "processing", "shipped", "completed", "cancelled"]

  function StatusName(s: Status): (name: string)
    ensures name in SchemaStatusNames
  {
    match s
    case Pending => "pending"
    case Paid => "paid"
    case Processing => "processing"
    case Shipped => "shipped"
    case Completed => "completed"
    case Cancelled => "cancelled"
  }

  /** The schema's enum validation: a string is accepted exactly when it is
      one of the six names, and then it names the status returned. */
  function ParseStatus(name: string): (r: Option<Status>)
    ensures r.Some? <==> name in SchemaStatusNames
    ensures r.Some? ==> StatusName(r.value) == name
  {
    if name == "pending" then Some(Pending)
    else if name == "paid" then Some(Paid)
    else if name == "processing" then Some(Processing)
    else if name == "shipped" then Some(Shipped)
    else if name == "completed" then Some(Completed)
    else if name == "cancelled" then Some(Cancelled)
    else None
  }

  /** Every status survives a round trip through its stored name. */
  lemma StatusNameRoundTrip(s: Status)
    ensures ParseStatus(StatusName(s)) == Some(s)
  {
  }

  datatype OrderItem = OrderItem(
    productId: Id,
    name: string,
    price: int,
    imageUrl: string,
    quantity: int)

  datatype Shipping = Shipping(
    fullname: string,
    phone: string,
    line1: string,
    city: string,
    province: string,
    postal: string)

  datatype Order = Order(
    id: Id,
    userId: Id,
    items: seq<OrderItem>,
    shippingAddress: Shipping,
    subtotal: int,
    shippingCost: int,
    total: int,
    status: Status,
    paymentMethod: string,
    createdAt: nat)

  /** An item the schema accepts: productId, name and price required (a
      required string may not be empty), quantity at least 1. */
  predicate ItemValid(it: OrderItem) {
    it.productId != "" && it.name != "" && it.quantity >= 1
  }

  /** A shipping address the schema accepts: all six fields required. */
  predicate ShippingComplete(s: Shipping) {
    s.fullname != "" && s.phone != "" && s.line1 != "" &&
    s.city != "" && s.province != "" && s.postal != ""
  }

  /** Sum of price x quantity over the items, in order. */
  function ItemsSubtotal(items: seq<OrderItem>): int {
    if items == [] then 0
    else ItemsSubtotal(items[..|items| - 1]) + items[|items| - 1].price * items[|items| - 1].quantity
  }

  /** What every stored order satisfies: schema-valid items and address, a
      subtotal that is the sum of its own items and a total that is subtotal
      plus shipping cost. */
  predicate WellFormed(o: Order) {
    && o.userId != ""
    && (forall k :: 0 <= k < |o.items| ==> ItemValid(o.items[k]))
    && ShippingComplete(o.shippingAddress)
    && o.subtotal == ItemsSubtotal(o.items)
    && o.total == o.subtotal + o.shippingCost
  }

  /** Two orders that differ at most in their status. */
  predicate SameButStatus(a: Order, b: Order) {
    a.(status := b.status) == b
  }

  // ---- queries against the order collection ----

  /** A query filter: the document paths named and the values required. */
  type Filter = seq<(string, string)>

  /** The value of an order document at a path, for the paths the routes'
      filters name (`_id`, `userId`, `user`): the document holds `_id` and
      `userId`, and `user` is absent. The schema's other string paths
      (`status`, `paymentMethod`, the shipping fields) are not modelled and
      read as absent. */
  function PathValue(o: Order, path: string): (v: Option<string>)
    ensures v.Some? <==> path == "_id" || path == "userId"
  {
    if path == "_id" then Some(o.id)
    else if path == "userId" then Some(o.userId)
    else None
  }

  /** A document matches a filter when every named path holds the value
      required; a path the document lacks matches nothing. */
  predicate Matches(o: Order, filter: Filter) {
    forall k :: 0 <= k < |filter| ==> PathValue(o, filter[k].0) == Some(filter[k].1)
  }

  /** `findById(id)`: the filter on the document id alone. */
  function IdFilter(id: Id): (f: Filter)
    ensures forall o :: Matches(o, f) <==> o.id == id
  {
    var f := [("_id", id)];
    assert forall o :: Matches(o, f) ==> PathValue(o, f[0].0) == Some(f[0].1);
    f
  }

  /** findOne / findById: the first matching order, or -1 when none matches. */
  function FindOne(orders: seq<Order>, filter: Filter): (r: int)
    ensures -1 <= r < |orders|
    ensures r == -1 <==> forall k :: 0 <= k < |orders| ==> !Matches(orders[k], filter)
    ensures r >= 0 ==> Matches(orders[r], filter) &&
                       forall k :: 0 <= k < r ==> !Matches(orders[k], filter)
  {
    if orders == [] then -1
    else if Matches(orders[0], filter) then 0
    else
      var j := FindOne(orders[1..], filter);
      if j == -1 then -1 else j + 1
  }

  /** A filter sees only ids and owners, so two collections that agree on
      those find the same order; in particular a status change never moves
      a lookup. */
  lemma {:induction false} FindOneSameKeys(a: seq<Order>, b: seq<Order>, filter: Filter)
    requires |a| == |b|
    requires forall k :: 0 <= k < |a| ==> a[k].id == b[k].id && a[k].userId == b[k].userId
    ensures FindOne(a, filter) == FindOne(b, filter)
  {
    if a != [] {
      assert Matches(a[0], filter) == Matches(b[0], filter) by {
        assert forall p :: PathValue(a[0], p) == PathValue(b[0], p);
      }
      FindOneSameKeys(a[1..], b[1..], filter);
    }
  }

  /** Orders are stored in creation order: createdAt strictly increases. */
  predicate CreatedInOrder(orders: seq<Order>) {
    forall i, j :: 0 <= i < j < |orders| ==> orders[i].createdAt < orders[j].createdAt
  }

  /** Sorted by createdAt, newest first. */
  predicate NewestFirst(orders: seq<Order>) {
    forall i, j :: 0 <= i < j < |orders| ==> orders[i].createdAt > orders[j].createdAt
  }

  function Reverse(orders: seq<Order>): (r: seq<Order>)
    ensures |r| == |orders|
    ensures forall k :: 0 <= k < |orders| ==> r[k] == orders[|orders| - 1 - k]
  {
    if orders == [] then [] else [orders[|orders| - 1]] + Reverse(orders[..|orders| - 1])
  }

  /** `.sort({createdAt: -1})` over a collection kept in creation order:
      the same orders, newest first. */
  function SortNewestFirst(orders: seq<Order>): (r: seq<Order>)
    ensures multiset(r) == multiset(orders)
    ensures CreatedInOrder(orders) ==> NewestFirst(r)
  {
    ReverseMultiset(orders);
    Reverse(orders)
  }

  lemma {:induction false} ReverseMultiset(orders: seq<Order>)
    ensures multiset(Reverse(orders)) == multiset(orders)
  {
    if orders != [] {
      var n := |orders|;
      ReverseMultiset(orders[..n - 1]);
      assert orders == orders[..n - 1] + [orders[n - 1]];
    }
  }

  /** `.find({userId})`: the orders of one owner, in stored order. */
  function OwnedBy(orders: seq<Order>, userId: Id): (r: seq<Order>)
    ensures forall o :: o in r <==> o in orders && o.userId == userId
  {
    if orders == [] then []
    else
      var rest := OwnedBy(orders[..|orders| - 1], userId);
      var last := orders[|orders| - 1];
      assert orders == orders[..|orders| - 1] + [last];
      if last.userId == userId then rest + [last] else rest
  }

  /** Filtering by owner keeps the stored creation order. */
  lemma {:induction false} OwnedByKeepsOrder(orders: seq<Order>, userId: Id)
    requires CreatedInOrder(orders)
    ensures CreatedInOrder(OwnedBy(orders, userId))
  {
    if orders != [] {
      var n := |orders|;
      var init := orders[..n - 1];
      var last := orders[n - 1];
      assert CreatedInOrder(init) by {
        forall i, j | 0 <= i < j < |init| ensures init[i].createdAt < init[j].createdAt {
          assert init[i] == orders[i] && init[j] == orders[j];
        }
      }
      OwnedByKeepsOrder(init, userId);
      var rest := OwnedBy(init, userId);
      if last.userId == userId {
        forall k | 0 <= k < |rest| ensures rest[k].createdAt < last.createdAt {
          assert rest[k] in init;
          var m :| 0 <= m < n - 1 && init[m] == rest[k];
          assert orders[m] == init[m];
        }
        var r := rest + [last];
        assert OwnedBy(orders, userId) == r;
        forall i, j | 0 <= i < j < |r| ensures r[i].createdAt < r[j].createdAt {
          assert r[i] == rest[i];
          if j < |rest| {
            assert r[j] == rest[j];
          }
        }
      } else {
        assert OwnedBy(orders, userId) == rest;
      }
    }
  }
}
