/** src/app/api/cart/route.ts: read the cart (GET), add a product (POST),
    set or remove a line (PATCH). The caller's user id is a plain input;
    "" stands for a request without a session. */
module CartRoute {
  import opened Common
  import opened Catalog
  import opened CartModel
  import opened Store

  /** One line of the cart as GET returns it, with its product projected. */
  datatype CartEntry = CartEntry(
    productId: Id,
    name: string,
    slug: string,
    price: int,
    imageUrl: string,
    quantity: int)

  /** GET's `cart.items.map(...)`: one entry per line, in order, with the
      line's quantity and the product's current fields. A line whose product
      is gone populates to null, and reading its `_id` throws: a 500. */
  function Project(products: map<Id, Product>, lines: seq<CartLine>): (r: Result<seq<CartEntry>>)
    ensures r.Err? <==> exists k :: 0 <= k < |lines| && lines[k].productId !in products
    ensures r.Err? ==> r.error == ServerError
    ensures r.Ok? ==> |r.value| == |lines|
    ensures r.Ok? ==> forall k :: 0 <= k < |lines| ==>
      && r.value[k].productId == lines[k].productId
      && r.value[k].quantity == lines[k].quantity
      && r.value[k].price == products[lines[k].productId].price
      && r.value[k].name == products[lines[k].productId].name
      && r.value[k].slug == products[lines[k].productId].slug
      && r.value[k].imageUrl == products[lines[k].productId].imageUrl
  {
    if lines == [] then Ok([])
    else
      var rest := Project(products, lines[1..]);
      var line := lines[0];
      assert forall k :: 1 <= k < |lines| ==> lines[k] == lines[1..][k - 1];
      if line.productId !in products then Err(ServerError)
      else if rest.Err? then rest
      else
        var p := products[line.productId];
        Ok([CartEntry(line.productId, p.name, p.slug, p.price, p.imageUrl, line.quantity)] + rest.value)
  }

  /** GET: a user without a cart sees an empty list, otherwise the projection. */
  function Get(db: Database, userId: Id): (r: Result<seq<CartEntry>>)
    reads db
    ensures userId == "" <==> r == Err(Unauthorized)
    ensures userId != "" && userId !in db.carts ==> r == Ok([])
    ensures userId != "" && userId in db.carts ==> r == Project(db.products, db.carts[userId])
    ensures userId != "" && userId in db.carts && r.Ok? ==> |r.value| == |db.carts[userId]|
  {
    if userId == "" then Err(Unauthorized)
    else if userId !in db.carts then Ok([])
    else Project(db.products, db.carts[userId])
  }

  /** `Number(body.quantity || 1)`: an absent quantity, and also 0 (falsy),
      becomes 1. */
  function AddQuantity(quantity: Option<int>): (qty: int)
    ensures quantity.None? ==> qty == 1
    ensures quantity.Some? ==> qty == (if quantity.value == 0 then 1 else quantity.value)
  {
    match quantity
    case None => 1
    case Some(q) => if q == 0 then 1 else q
  }

  /** POST: add qty of a product. The request is refused when productId is
      missing or qty <= 0 (400) and when the product does not exist or is not
      active (404); otherwise the cart is created with one line, or the
      product's line grows by qty, or a line is appended. */
  method Post(db: Database, userId: Id, productId: Id, quantity: Option<int>) returns (r: Result<()>)
    requires db.Valid()
    modifies db
    ensures db.Valid()
    ensures db.products == old(db.products) && db.orders == old(db.orders) && db.clock == old(db.clock)
    ensures var qty := AddQuantity(quantity);
      && (userId == "" ==> r == Err(Unauthorized))
      && (userId != "" && (productId == "" || qty <= 0) ==> r == Err(BadRequest(InvalidData)))
      && ((userId != "" && productId != "" && qty > 0 &&
           (productId !in db.products || !db.products[productId].isActive)) ==> r == Err(NotFound))
      && (r.Ok? <==> userId != "" && productId != "" && qty > 0 &&
                     productId in db.products && db.products[productId].isActive)
    ensures r.Err? ==> db.carts == old(db.carts)
    ensures r.Ok? && userId !in old(db.carts) ==>
      db.carts == old(db.carts)[userId := [CartLine(productId, AddQuantity(quantity))]]
    ensures r.Ok? && userId in old(db.carts) ==>
      db.carts == old(db.carts)[userId := AddLine(old(db.carts)[userId], productId, AddQuantity(quantity))]
  {
    if userId == "" {
      return Err(Unauthorized);
    }
    var qty := AddQuantity(quantity);
    if productId == "" || qty <= 0 {
      return Err(BadRequest(InvalidData));
    }
    if productId !in db.products || !db.products[productId].isActive {
      return Err(NotFound);
    }
    if userId !in db.carts {
      assert LinesValid([CartLine(productId, qty)]);
      CartUpdateKeepsConsistent(db.products, db.carts, db.orders, db.clock, userId, [CartLine(productId, qty)]);
      db.carts := db.carts[userId := [CartLine(productId, qty)]];
    } else {
      var lines := db.carts[userId];
      var idx := IndexOf(lines, productId);
      AddLineValid(lines, productId, qty);
      if idx != -1 {
        AddLineMerges(lines, productId, qty);
        lines := lines[idx := lines[idx].(quantity := lines[idx].quantity + qty)];
      } else {
        AddLineAppends(lines, productId, qty);
        lines := lines + [CartLine(productId, qty)];
      }
      CartUpdateKeepsConsistent(db.products, db.carts, db.orders, db.clock, userId, lines);
      db.carts := db.carts[userId := lines];
    }
    r := Ok(());
  }

  /** PATCH: set a line's quantity. A missing productId or a quantity that is
      not a number (None) is a 400; with no cart, or no line for the product,
      nothing changes and the answer is still ok; qty <= 0 removes the line,
      any other qty replaces its quantity. */
  method Patch(db: Database, userId: Id, productId: Id, quantity: Option<int>) returns (r: Result<()>)
    requires db.Valid()
    modifies db
    ensures db.Valid()
    ensures db.products == old(db.products) && db.orders == old(db.orders) && db.clock == old(db.clock)
    ensures userId == "" ==> r == Err(Unauthorized)
    ensures userId != "" && (productId == "" || quantity.None?) ==> r == Err(BadRequest(InvalidData))
    ensures r.Ok? <==> userId != "" && productId != "" && quantity.Some?
    ensures r.Err? || userId !in old(db.carts) ==> db.carts == old(db.carts)
    ensures r.Ok? && userId in old(db.carts) ==>
      db.carts == old(db.carts)[userId := SetLineQuantity(old(db.carts)[userId], productId, quantity.value)]
  {
    if userId == "" {
      return Err(Unauthorized);
    }
    if productId == "" || quantity.None? {
      return Err(BadRequest(InvalidData));
    }
    if userId !in db.carts {
      return Ok(());
    }
    var lines := db.carts[userId];
    var qty := quantity.value;
    var idx := IndexOf(lines, productId);
    SetLineValid(lines, productId, qty);
    if idx == -1 {
      SetLineAbsent(lines, productId, qty);
      assert db.carts == db.carts[userId := SetLineQuantity(lines, productId, qty)];
      return Ok(());
    }
    if qty <= 0 {
      SetLineRemovesAt(lines, productId, qty);
      lines := lines[..idx] + lines[idx + 1..];
    } else {
      SetLineReplacesAt(lines, productId, qty);
      lines := lines[idx := lines[idx].(quantity := qty)];
    }
    CartUpdateKeepsConsistent(db.products, db.carts, db.orders, db.clock, userId, lines);
    db.carts := db.carts[userId := lines];
    r := Ok(());
  }
}
