/** The document store the routes share: the product, cart and order
    collections, updated in place by the route handlers. */
module Store {
  import opened Common
  import opened Catalog
  import opened OrderModel
  import opened CartModel

  /** What holds of the store between requests: every cart satisfies the
      cart schema, every product can be copied into a valid order item, and
      every order is well formed, has its own id, and was created in order. */
  ghost predicate Consistent(products: map<Id, Product>, carts: map<Id, seq<CartLine>>,
                             orders: seq<Order>, clock: nat)
  {
    && (forall u :: u in carts ==> u != "" && LinesValid(carts[u]))
    && (forall pid :: pid in products ==> pid != "" && products[pid].name != "")
    && (forall k :: 0 <= k < |orders| ==> WellFormed(orders[k]) && orders[k].createdAt < clock)
    && (forall i, j :: 0 <= i < j < |orders| ==> orders[i].id != orders[j].id)
    && CreatedInOrder(orders)
  }

  /** Replacing order statuses, and nothing else, keeps the store consistent. */
  lemma StatusChangeKeepsConsistent(products: map<Id, Product>, carts: map<Id, seq<CartLine>>,
                                    orders: seq<Order>, changed: seq<Order>, clock: nat)
    requires Consistent(products, carts, orders, clock)
    requires |changed| == |orders|
    requires forall k :: 0 <= k < |orders| ==> SameButStatus(orders[k], changed[k])
    ensures Consistent(products, carts, changed, clock)
  {
    forall k | 0 <= k < |changed| ensures WellFormed(changed[k]) {
      assert WellFormed(orders[k]);
    }
  }

  /** Storing a valid list of lines as a user's cart keeps the store
      consistent. */
  lemma CartUpdateKeepsConsistent(products: map<Id, Product>, carts: map<Id, seq<CartLine>>,
                                  orders: seq<Order>, clock: nat, userId: Id, lines: seq<CartLine>)
    requires Consistent(products, carts, orders, clock)
    requires userId != "" && LinesValid(lines)
    ensures Consistent(products, carts[userId := lines], orders, clock)
  {
  }

  class Database {
    var products: map<Id, Product>
    var carts: map<Id, seq<CartLine>>   // at most one cart per userId
    var orders: seq<Order>               // in insertion order
    var clock: nat                       // the next createdAt timestamp

    ghost predicate Valid()
      reads this
    {
      Consistent(products, carts, orders, clock)
    }

    /** A store holding a catalog and no carts or orders. */
    constructor (catalog: map<Id, Product>)
      requires forall pid :: pid in catalog ==> pid != "" && catalog[pid].name != ""
      ensures Valid()
      ensures products == catalog && carts == map[] && orders == [] && clock == 0
    {
      products := catalog;
      carts := map[];
      orders := [];
      clock := 0;
    }
  }
}
