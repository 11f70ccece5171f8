/** src/app/api/orders/route.ts: checkout (POST), which turns the caller's
    cart into a pending order, takes the ordered quantities off stock and
    empties the cart; and the caller's order list (GET). */
module OrdersRoute {
  import opened Common
  import opened Text
  import opened Catalog
  import opened OrderModel
  import opened CartModel
  import opened Store

  /** The flat shipping fee of every order. */
  const ShippingCost: int := 20000

  /** The shipping fields of the request body; an absent field is "". */
  datatype AddressForm = AddressForm(
    fullname: string,
    phone: string,
    line1: string,
    city: string,
    province: string,
    postal: string)

  /** `(body.field || "").trim()` for each of the six fields. */
  function NormalizeAddress(f: AddressForm): (s: Shipping)
    ensures s.fullname == Trim(f.fullname) && s.phone == Trim(f.phone)
    ensures s.line1 == Trim(f.line1) && s.city == Trim(f.city)
    ensures s.province == Trim(f.province) && s.postal == Trim(f.postal)
  {
    Shipping(Trim(f.fullname), Trim(f.phone), Trim(f.line1),
             Trim(f.city), Trim(f.province), Trim(f.postal))
  }

  /** The address check passes exactly when no field is blank (empty or
      only white space). */
  lemma AddressCompleteIff(f: AddressForm)
    ensures ShippingComplete(NormalizeAddress(f)) <==>
      !AllSpace(f.fullname) && !AllSpace(f.phone) && !AllSpace(f.line1) &&
      !AllSpace(f.city) && !AllSpace(f.province) && !AllSpace(f.postal)
  {
    TrimBlank(f.fullname); TrimBlank(f.phone); TrimBlank(f.line1);
    TrimBlank(f.city); TrimBlank(f.province); TrimBlank(f.postal);
  }

  /** The order item a resolved cart line becomes: the product's current
      name, price and image, and the line's quantity as requested. */
  function Snapshot(productId: Id, p: Product, quantity: int): (it: OrderItem)
    ensures it.productId == productId && it.quantity == quantity
    ensures it.name == p.name && it.price == p.price && it.imageUrl == p.imageUrl
  {
    OrderItem(productId, p.name, p.price, p.imageUrl, quantity)
  }

  /** The cart lines whose product resolves, in cart order. */
  function Resolved(products: map<Id, Product>, lines: seq<CartLine>): (r: seq<CartLine>)
    ensures |r| <= |lines|
    ensures forall k :: 0 <= k < |r| ==> r[k] in lines && r[k].productId in products
  {
    if lines == [] then []
    else
      var init := Resolved(products, lines[..|lines| - 1]);
      var last := lines[|lines| - 1];
      if last.productId in products then init + [last] else init
  }

  /** No line whose product exists is dropped: with the bound above, a cart
      line is kept exactly when its product exists. */
  lemma {:induction false} ResolvedComplete(products: map<Id, Product>, lines: seq<CartLine>)
    ensures forall k :: 0 <= k < |lines| && lines[k].productId in products ==>
      lines[k] in Resolved(products, lines)
  {
    if lines != [] {
      var init := lines[..|lines| - 1];
      ResolvedComplete(products, init);
      forall k | 0 <= k < |lines| - 1 && lines[k].productId in products
        ensures lines[k] in Resolved(products, lines)
      {
        assert lines[k] == init[k];
      }
    }
  }

  /** In a cart with one line per product, the kept lines stay in cart order:
      an earlier kept line comes from an earlier cart line. */
  lemma ResolvedKeepsCartOrder(products: map<Id, Product>, lines: seq<CartLine>)
    requires UniqueProducts(lines)
    ensures var r := Resolved(products, lines);
      forall i, j :: 0 <= i < j < |r| ==>
        IndexOf(lines, r[i].productId) < IndexOf(lines, r[j].productId)
  {
    ResolvedPositionsIncrease(products, lines);
    var r := Resolved(products, lines);
    var p := Positions(lines, r);
    forall i, j | 0 <= i < j < |r|
      ensures IndexOf(lines, r[i].productId) < IndexOf(lines, r[j].productId)
    {
      assert p[i] < p[j];
    }
  }

  /** Where each line of r is found in the cart. */
  function Positions(lines: seq<CartLine>, r: seq<CartLine>): (p: seq<int>)
    ensures |p| == |r|
  {
    seq(|r|, i requires 0 <= i < |r| => IndexOf(lines, r[i].productId))
  }

  predicate Increasing(p: seq<int>) {
    forall i, j :: 0 <= i < j < |p| ==> p[i] < p[j]
  }

  lemma {:induction false} ResolvedPositionsIncrease(products: map<Id, Product>, lines: seq<CartLine>)
    requires UniqueProducts(lines)
    ensures Increasing(Positions(lines, Resolved(products, lines)))
  {
    if lines != [] {
      var n := |lines|;
      var init, last := lines[..n - 1], lines[n - 1];
      assert UniqueProducts(init);
      ResolvedPositionsIncrease(products, init);
      var ri := Resolved(products, init);
      ResolvedIndexInPrefix(products, lines);
      var p := Positions(lines, ri);
      ResolvedSnoc(products, lines);
      assert Increasing(p);
      if last.productId in products {
        IndexOfLast(lines);
        PositionsSnoc(lines, ri, last);
        IncreasingSnoc(p, n - 1);
        assert Positions(lines, Resolved(products, lines)) == p + [n - 1];
      } else {
        assert Positions(lines, Resolved(products, lines)) == p;
      }
    }
  }

  lemma ResolvedSnoc(products: map<Id, Product>, lines: seq<CartLine>)
    requires lines != []
    ensures var ri := Resolved(products, lines[..|lines| - 1]);
      var last := lines[|lines| - 1];
      Resolved(products, lines) == if last.productId in products then ri + [last] else ri
  {
  }

  lemma IndexOfLast(lines: seq<CartLine>)
    requires UniqueProducts(lines) && lines != []
    ensures IndexOf(lines, lines[|lines| - 1].productId) == |lines| - 1
  {
    var n := |lines|;
    forall k | 0 <= k < n - 1 ensures lines[k].productId != lines[n - 1].productId { }
  }

  lemma PositionsSnoc(lines: seq<CartLine>, r: seq<CartLine>, last: CartLine)
    ensures Positions(lines, r + [last]) == Positions(lines, r) + [IndexOf(lines, last.productId)]
  {
    var r' := r + [last];
    assert forall i :: 0 <= i < |r| ==> r'[i] == r[i];
  }

  lemma IncreasingSnoc(p: seq<int>, x: int)
    requires Increasing(p) && forall i :: 0 <= i < |p| ==> p[i] < x
    ensures Increasing(p + [x])
  {
  }

  /** The lines kept from all but the last cart line are found where they
      were, before the last line. */
  lemma ResolvedIndexInPrefix(products: map<Id, Product>, lines: seq<CartLine>)
    requires lines != []
    ensures var init := lines[..|lines| - 1];
      var p := Positions(lines, Resolved(products, init));
      p == Positions(init, Resolved(products, init)) &&
      forall i :: 0 <= i < |p| ==> p[i] < |lines| - 1
  {
    var init := lines[..|lines| - 1];
    var ri := Resolved(products, init);
    forall i | 0 <= i < |ri|
      ensures IndexOf(lines, ri[i].productId) == IndexOf(init, ri[i].productId) < |lines| - 1
    {
      var k :| 0 <= k < |init| && init[k] == ri[i];
      assert HasLine(init, ri[i].productId);
      IndexOfInPrefix(lines, |lines| - 1, ri[i].productId);
    }
  }

  /** The items checkout builds, one per cart line whose product resolves,
      in the order of the loop. */
  function OrderItems(products: map<Id, Product>, lines: seq<CartLine>): seq<OrderItem> {
    if lines == [] then []
    else
      var init := OrderItems(products, lines[..|lines| - 1]);
      var last := lines[|lines| - 1];
      if last.productId in products
      then init + [Snapshot(last.productId, products[last.productId], last.quantity)]
      else init
  }

  /** The product table after the loop's stock writes: each resolved line
      sets its product's stock to the clamped difference computed from the
      product as it was loaded with the cart. */
  function DecrementStock(products: map<Id, Product>, lines: seq<CartLine>): (m: map<Id, Product>)
    ensures m.Keys == products.Keys
  {
    if lines == [] then products
    else
      var m := DecrementStock(products, lines[..|lines| - 1]);
      var last := lines[|lines| - 1];
      if last.productId in products
      then m[last.productId := m[last.productId].(stock := ClampedStock(products[last.productId].stock, last.quantity))]
      else m
  }

  /** The order checkout creates. */
  function PlacedOrder(id: Id, userId: Id, products: map<Id, Product>, lines: seq<CartLine>,
                       shipping: Shipping, createdAt: nat): (o: Order)
    ensures o.items == OrderItems(products, lines) && o.subtotal == ItemsSubtotal(o.items)
    ensures o.shippingCost == ShippingCost && o.total == o.subtotal + o.shippingCost
    ensures o.status == DefaultStatus && o.paymentMethod == DefaultPaymentMethod
    ensures o.id == id && o.userId == userId && o.shippingAddress == shipping && o.createdAt == createdAt
  {
    var items := OrderItems(products, lines);
    var subtotal := ItemsSubtotal(items);
    Order(id, userId, items, shipping, subtotal, ShippingCost, subtotal + ShippingCost,
          DefaultStatus, DefaultPaymentMethod, createdAt)
  }

  // ---- properties of checkout's reference definitions ----

  /** The items are exactly the resolved lines, in cart order, each with its
      product's name and price and the line's own quantity. */
  lemma {:induction false} OrderItemsAreResolvedLines(products: map<Id, Product>, lines: seq<CartLine>)
    ensures var items := OrderItems(products, lines);
            var res := Resolved(products, lines);
            |items| == |res| &&
            forall k :: 0 <= k < |items| ==>
              && items[k].productId == res[k].productId
              && items[k].quantity == res[k].quantity
              && items[k].name == products[res[k].productId].name
              && items[k].price == products[res[k].productId].price
  {
    if lines != [] {
      OrderItemsAreResolvedLines(products, lines[..|lines| - 1]);
    }
  }

  /** No item is built exactly when no line's product resolves; in
      particular an empty cart builds none. */
  lemma {:induction false} NoItemsIff(products: map<Id, Product>, lines: seq<CartLine>)
    ensures OrderItems(products, lines) == [] <==>
            forall k :: 0 <= k < |lines| ==> lines[k].productId !in products
  {
    if lines != [] {
      var n := |lines|;
      NoItemsIff(products, lines[..n - 1]);
      assert forall k :: 0 <= k < n - 1 ==> lines[..n - 1][k] == lines[k];
    }
  }

  /** When no line resolves, the stock loop writes nothing. */
  lemma {:induction false} NoItemsNoStockChange(products: map<Id, Product>, lines: seq<CartLine>)
    requires OrderItems(products, lines) == []
    ensures DecrementStock(products, lines) == products
  {
    if lines != [] {
      var n := |lines|;
      assert lines[n - 1].productId !in products;
      NoItemsNoStockChange(products, lines[..n - 1]);
    }
  }

  /** The stock writes change nothing but stock. */
  lemma {:induction false} DecrementStockKeepsCatalog(products: map<Id, Product>, lines: seq<CartLine>, pid: Id)
    requires pid in products
    ensures DecrementStock(products, lines)[pid].(stock := products[pid].stock) == products[pid]
  {
    if lines != [] {
      DecrementStockKeepsCatalog(products, lines[..|lines| - 1], pid);
    }
  }

  lemma HasLineSnoc(lines: seq<CartLine>, line: CartLine, productId: Id)
    ensures HasLine(lines + [line], productId) <==> HasLine(lines, productId) || line.productId == productId
  {
    var r := lines + [line];
    if HasLine(lines, productId) {
      var k :| 0 <= k < |lines| && lines[k].productId == productId;
      assert r[k] == lines[k];
    }
    if line.productId == productId {
      assert r[|lines|] == line;
    }
    if HasLine(r, productId) && line.productId != productId {
      var k :| 0 <= k < |r| && r[k].productId == productId;
      assert r[k] == lines[k];
    }
  }

  /** In a valid cart (one line per product) each product with a line ends
      with stock max(0, stock - quantity), and every other product keeps its
      stock. */
  lemma {:induction false} StockAfterCheckout(products: map<Id, Product>, lines: seq<CartLine>, pid: Id)
    requires UniqueProducts(lines) && pid in products
    ensures DecrementStock(products, lines)[pid].stock ==
            if HasLine(lines, pid) then ClampedStock(products[pid].stock, QuantityOf(lines, pid))
            else products[pid].stock
  {
    if lines != [] {
      var n := |lines|;
      var init, last := lines[..n - 1], lines[n - 1];
      assert lines == init + [last];
      assert UniqueProducts(init);
      StockAfterCheckout(products, init, pid);
      HasLineSnoc(init, last, pid);
      QuantityOfSplit(init, [last], pid);
      assert QuantityOf([last], pid) == (if last.productId == pid then last.quantity else 0);
      if last.productId == pid {
        assert !HasLine(init, pid) by {
          forall k | 0 <= k < n - 1 ensures init[k].productId != pid {
            assert lines[k].productId != lines[n - 1].productId;
          }
        }
        QuantityOfAbsent(init, pid);
      }
    }
  }

  /** Stock never goes negative: products with non-negative stock keep it
      non-negative, and a product checkout touches ends non-negative. */
  lemma {:induction false} StockStaysNonNegative(products: map<Id, Product>, lines: seq<CartLine>, pid: Id)
    requires pid in products
    requires products[pid].stock >= 0 || HasLine(Resolved(products, lines), pid)
    ensures DecrementStock(products, lines)[pid].stock >= 0
  {
    if lines != [] {
      var n := |lines|;
      var init, last := lines[..n - 1], lines[n - 1];
      if last.productId != pid {
        if products[pid].stock < 0 {
          var res := Resolved(products, init);
          assert Resolved(products, lines) == (if last.productId in products then res + [last] else res);
          HasLineSnoc(res, last, pid);
        }
        StockStaysNonNegative(products, init, pid);
      }
    }
  }

  /** Two checkouts worked through: two units at 50000 against a stock of 5
      give subtotal 100000, total 120000 and stock 3; ten units against a
      stock of 3 are ordered in full and leave stock 0. */
  lemma CheckoutExamples(address: Shipping)
    ensures var products := map["p1" := Product("Kopi", "kopi", 50000, 5, "", true, "s1")];
            var lines := [CartLine("p1", 2)];
            var o := PlacedOrder("o1", "u1", products, lines, address, 0);
            && o.subtotal == 100000 && o.total == 120000
            && DecrementStock(products, lines)["p1"].stock == 3
    ensures var products := map["p1" := Product("Kopi", "kopi", 50000, 3, "", true, "s1")];
            var lines := [CartLine("p1", 10)];
            var o := PlacedOrder("o1", "u1", products, lines, address, 0);
            && |o.items| == 1 && o.items[0].quantity == 10
            && DecrementStock(products, lines)["p1"].stock == 0
  {
    var products := map["p1" := Product("Kopi", "kopi", 50000, 5, "", true, "s1")];
    var lines := [CartLine("p1", 2)];
    assert lines[..0] == [];
    var items := OrderItems(products, lines);
    assert items == [Snapshot("p1", products["p1"], 2)];
    assert items[..0] == [];
    assert ItemsSubtotal(items) == 100000;
    assert DecrementStock(products, lines)["p1"].stock == ClampedStock(5, 2);

    var products2 := map["p1" := Product("Kopi", "kopi", 50000, 3, "", true, "s1")];
    var lines2 := [CartLine("p1", 10)];
    assert lines2[..0] == [];
    assert OrderItems(products2, lines2) == [Snapshot("p1", products2["p1"], 10)];
    assert DecrementStock(products2, lines2)["p1"].stock == ClampedStock(3, 10);
  }

  // ---- the route ----

  /** POST (checkout). In order: 401 without a user; 400 when a shipping
      field is blank; 400 when the user has no cart; 400 when no cart line
      resolves to a product (an empty cart also ends here: the length test
      before the loop reads a misspelt property and never fires). Any failure
      leaves the store as it was. Otherwise the order is appended with status
      pending, the stock of every ordered product is decremented with a floor
      of 0, and the cart is emptied. `newId` is the id the store gives the
      new order. */
  method Post(db: Database, userId: Id, form: AddressForm, newId: Id) returns (r: Result<Id>)
    requires db.Valid()
    requires newId != "" && forall k :: 0 <= k < |db.orders| ==> db.orders[k].id != newId
    modifies db
    ensures db.Valid()
    ensures r.Err? ==> db.products == old(db.products) && db.carts == old(db.carts) &&
                       db.orders == old(db.orders) && db.clock == old(db.clock)
    ensures r == Err(Unauthorized) <==> userId == ""
    ensures r == Err(BadRequest(IncompleteAddress)) <==>
      userId != "" && !ShippingComplete(NormalizeAddress(form))
    ensures r == Err(BadRequest(EmptyCart)) <==>
      userId != "" && ShippingComplete(NormalizeAddress(form)) && userId !in old(db.carts)
    ensures r == Err(BadRequest(InvalidCartItems)) <==>
      userId != "" && ShippingComplete(NormalizeAddress(form)) && userId in old(db.carts) &&
      OrderItems(old(db.products), old(db.carts)[userId]) == []
    ensures r.Ok? <==>
      userId != "" && ShippingComplete(NormalizeAddress(form)) && userId in old(db.carts) &&
      OrderItems(old(db.products), old(db.carts)[userId]) != []
    ensures r.Ok? ==> userId in old(db.carts) && r.value == newId
    ensures r.Ok? ==>
      var lines := old(db.carts)[userId];
      && db.orders == old(db.orders) + [PlacedOrder(newId, userId, old(db.products), lines,
                                                    NormalizeAddress(form), old(db.clock))]
      && db.products == DecrementStock(old(db.products), lines)
      && db.carts == old(db.carts)[userId := []]
      && db.clock == old(db.clock) + 1
  {
    if userId == "" {
      return Err(Unauthorized);
    }
    var shipping := NormalizeAddress(form);
    if shipping.fullname == "" || shipping.phone == "" || shipping.line1 == "" ||
       shipping.city == "" || shipping.province == "" || shipping.postal == "" {
      return Err(BadRequest(IncompleteAddress));
    }
    if userId !in db.carts {
      return Err(BadRequest(EmptyCart));
    }
    var lines := db.carts[userId];
    ghost var loaded := db.products;
    var items, subtotal := TakeLines(db, lines);
    if |items| == 0 {
      NoItemsNoStockChange(loaded, lines);
      return Err(BadRequest(InvalidCartItems));
    }
    var total := subtotal + ShippingCost;
    var order := Order(newId, userId, items, shipping, subtotal, ShippingCost, total,
                       Pending, "manual", db.clock);
    assert order == PlacedOrder(newId, userId, loaded, lines, shipping, db.clock);
    CheckoutKeepsConsistent(loaded, old(db.carts), db.orders, db.clock, userId, order);
    db.orders := db.orders + [order];
    db.clock := db.clock + 1;
    db.carts := db.carts[userId := []];
    r := Ok(newId);
  }

  /** The checkout loop: for each cart line whose product was loaded, add
      price x quantity to the subtotal, copy the line into an order item and
      write the product's clamped stock. */
  method TakeLines(db: Database, lines: seq<CartLine>) returns (items: seq<OrderItem>, subtotal: int)
    modifies db
    ensures items == OrderItems(old(db.products), lines)
    ensures subtotal == ItemsSubtotal(items)
    ensures db.products == DecrementStock(old(db.products), lines)
    ensures db.carts == old(db.carts) && db.orders == old(db.orders) && db.clock == old(db.clock)
  {
    var loaded := db.products;   // the products populated with the cart
    items := [];
    subtotal := 0;
    var i := 0;
    while i < |lines|
      invariant 0 <= i <= |lines|
      invariant items == OrderItems(loaded, lines[..i])
      invariant subtotal == ItemsSubtotal(items)
      invariant db.products == DecrementStock(loaded, lines[..i])
      invariant db.carts == old(db.carts) && db.orders == old(db.orders) && db.clock == old(db.clock)
    {
      var line := lines[i];
      assert lines[..i + 1] == lines[..i] + [line];
      if line.productId in loaded {
        var product := loaded[line.productId];
        var lineTotal := product.price * line.quantity;
        subtotal := subtotal + lineTotal;
        items := items + [OrderItem(line.productId, product.name, product.price, product.imageUrl, line.quantity)];
        var stock := product.stock - line.quantity;
        if stock < 0 {
          stock := 0;
        }
        db.products := db.products[line.productId := db.products[line.productId].(stock := stock)];
      }
      i := i + 1;
    }
    assert lines[..i] == lines;
  }

  /** Checkout keeps the store consistent. */
  lemma CheckoutKeepsConsistent(products: map<Id, Product>, carts: map<Id, seq<CartLine>>,
                                orders: seq<Order>, clock: nat, userId: Id, o: Order)
    requires Consistent(products, carts, orders, clock)
    requires userId in carts && o.userId == userId && userId != ""
    requires o == PlacedOrder(o.id, userId, products, carts[userId], o.shippingAddress, clock)
    requires ShippingComplete(o.shippingAddress)
    requires forall k :: 0 <= k < |orders| ==> orders[k].id != o.id
    ensures Consistent(DecrementStock(products, carts[userId]), carts[userId := []],
                       orders + [o], clock + 1)
  {
    var lines := carts[userId];
    var ps := DecrementStock(products, lines);
    OrderWellFormed(products, lines, o);
    forall pid | pid in ps ensures pid != "" && ps[pid].name != "" {
      DecrementStockKeepsCatalog(products, lines, pid);
    }
    var os := orders + [o];
    forall k | 0 <= k < |os| ensures WellFormed(os[k]) && os[k].createdAt < clock + 1 {
      if k < |orders| { assert os[k] == orders[k]; }
    }
  }

  /** The order checkout builds from a valid cart satisfies the order schema. */
  lemma OrderWellFormed(products: map<Id, Product>, lines: seq<CartLine>, o: Order)
    requires LinesValid(lines)
    requires forall pid :: pid in products ==> pid != "" && products[pid].name != ""
    requires o.items == OrderItems(products, lines) && o.subtotal == ItemsSubtotal(o.items)
    requires o.total == o.subtotal + o.shippingCost && o.userId != ""
    requires ShippingComplete(o.shippingAddress)
    ensures WellFormed(o)
  {
    OrderItemsAreResolvedLines(products, lines);
    var res := Resolved(products, lines);
    forall k | 0 <= k < |o.items| ensures ItemValid(o.items[k]) {
      assert res[k] in lines;
    }
  }

  /** GET: the caller's orders and no one else's, newest first. */
  function List(db: Database, userId: Id): (r: Result<seq<Order>>)
    reads db
    ensures userId == "" <==> r == Err(Unauthorized)
    ensures r.Ok? ==> forall o :: o in r.value <==> o in db.orders && o.userId == userId
    ensures r.Ok? && CreatedInOrder(db.orders) ==> NewestFirst(r.value)
  {
    if userId == "" then Err(Unauthorized)
    else
      var mine := OwnedBy(db.orders, userId);
      var r := SortNewestFirst(mine);
      assert forall o :: o in r <==> o in mine by {
        forall o ensures o in r <==> o in mine {
          assert o in r <==> o in multiset(r);
        }
      }
      if CreatedInOrder(db.orders) then
        OwnedByKeepsOrder(db.orders, userId);
        Ok(r)
      else
        Ok(r)
  }
}
