/** src/app/api/seller/stats/route.ts: a seller's sales statistics. The
    aggregation pipeline (keep paid and completed orders, unwind their
    items, join each with its product, keep the seller's products, group by
    product, sort by units sold) is modelled as functions over the order
    collection and the product table; the totals loop over its rows is a
    method. */
module SellerStats {
  import opened Common
  import opened Catalog
  import opened OrderModel
  import opened Store

  /** `$match: {status: {$in: ["paid", "completed"]}}`. */
  predicate Counts(o: Order) {
    o.status == Paid || o.status == Completed
  }

  /** `product.userId == sellerId` after the join: the product exists and the
      seller owns it. */
  predicate Owned(products: map<Id, Product>, sellerId: Id, pid: Id) {
    pid in products && products[pid].sellerId == sellerId
  }

  /** One unwound order item joined with its product: the product id, the
      product's current name and price, and the item's quantity. */
  datatype Sale = Sale(productId: Id, name: string, price: int, quantity: int)

  /** Unwind, join and seller filter over one order's items, in item order. */
  function ItemSales(products: map<Id, Product>, sellerId: Id, items: seq<OrderItem>): (r: seq<Sale>)
    ensures forall e :: e in r ==>
      Owned(products, sellerId, e.productId) &&
      e.name == products[e.productId].name && e.price == products[e.productId].price
  {
    if items == [] then []
    else
      var init := ItemSales(products, sellerId, items[..|items| - 1]);
      var it := items[|items| - 1];
      if Owned(products, sellerId, it.productId)
      then init + [Sale(it.productId, products[it.productId].name, products[it.productId].price, it.quantity)]
      else init
  }

  /** The pipeline up to the group stage, over the whole collection. */
  function Sales(products: map<Id, Product>, sellerId: Id, orders: seq<Order>): (r: seq<Sale>)
    ensures forall e :: e in r ==>
      Owned(products, sellerId, e.productId) &&
      e.name == products[e.productId].name && e.price == products[e.productId].price
  {
    if orders == [] then []
    else
      var init := Sales(products, sellerId, orders[..|orders| - 1]);
      var last := orders[|orders| - 1];
      if Counts(last) then init + ItemSales(products, sellerId, last.items) else init
  }

  // ---- the reference: what the statistics are meant to report ----

  /** Units of one product in a list of items. */
  function ItemQuantity(items: seq<OrderItem>, pid: Id): int {
    if items == [] then 0
    else
      var it := items[|items| - 1];
      ItemQuantity(items[..|items| - 1], pid) + (if it.productId == pid then it.quantity else 0)
  }

  /** Units of one product ordered in paid or completed orders. */
  function SoldQuantity(orders: seq<Order>, pid: Id): int {
    if orders == [] then 0
    else
      var last := orders[|orders| - 1];
      SoldQuantity(orders[..|orders| - 1], pid) + (if Counts(last) then ItemQuantity(last.items, pid) else 0)
  }

  /** Units of the seller's products in a list of items, and their value at
      the products' current prices. */
  function ItemUnits(products: map<Id, Product>, sellerId: Id, items: seq<OrderItem>): int {
    if items == [] then 0
    else
      var it := items[|items| - 1];
      ItemUnits(products, sellerId, items[..|items| - 1]) +
      (if Owned(products, sellerId, it.productId) then it.quantity else 0)
  }

  function ItemValue(products: map<Id, Product>, sellerId: Id, items: seq<OrderItem>): int {
    if items == [] then 0
    else
      var it := items[|items| - 1];
      ItemValue(products, sellerId, items[..|items| - 1]) +
      (if Owned(products, sellerId, it.productId) then it.quantity * products[it.productId].price else 0)
  }

  /** Units of the seller's products sold in paid or completed orders. */
  function UnitsSold(products: map<Id, Product>, sellerId: Id, orders: seq<Order>): int {
    if orders == [] then 0
    else
      var last := orders[|orders| - 1];
      UnitsSold(products, sellerId, orders[..|orders| - 1]) +
      (if Counts(last) then ItemUnits(products, sellerId, last.items) else 0)
  }

  /** Their value at current prices. */
  function ValueSold(products: map<Id, Product>, sellerId: Id, orders: seq<Order>): int {
    if orders == [] then 0
    else
      var last := orders[|orders| - 1];
      ValueSold(products, sellerId, orders[..|orders| - 1]) +
      (if Counts(last) then ItemValue(products, sellerId, last.items) else 0)
  }

  // ---- sums over sales ----

  function SaleQuantity(sales: seq<Sale>, pid: Id): int {
    if sales == [] then 0
    else
      var e := sales[|sales| - 1];
      SaleQuantity(sales[..|sales| - 1], pid) + (if e.productId == pid then e.quantity else 0)
  }

  function SaleRevenue(sales: seq<Sale>, pid: Id): int {
    if sales == [] then 0
    else
      var e := sales[|sales| - 1];
      SaleRevenue(sales[..|sales| - 1], pid) + (if e.productId == pid then e.quantity * e.price else 0)
  }

  function TotalQuantity(sales: seq<Sale>): int {
    if sales == [] then 0 else TotalQuantity(sales[..|sales| - 1]) + sales[|sales| - 1].quantity
  }

  function TotalRevenue(sales: seq<Sale>): int {
    if sales == [] then 0
    else TotalRevenue(sales[..|sales| - 1]) + sales[|sales| - 1].quantity * sales[|sales| - 1].price
  }

  lemma {:induction false} SaleSumsConcat(a: seq<Sale>, b: seq<Sale>, pid: Id)
    ensures SaleQuantity(a + b, pid) == SaleQuantity(a, pid) + SaleQuantity(b, pid)
    ensures SaleRevenue(a + b, pid) == SaleRevenue(a, pid) + SaleRevenue(b, pid)
    ensures TotalQuantity(a + b) == TotalQuantity(a) + TotalQuantity(b)
    ensures TotalRevenue(a + b) == TotalRevenue(a) + TotalRevenue(b)
  {
    if b == [] {
      assert a + b == a;
    } else {
      var n := |b|;
      SaleSumsConcat(a, b[..n - 1], pid);
      assert (a + b)[..|a + b| - 1] == a + b[..n - 1];
    }
  }

  lemma {:induction false} SalesAbsent(sales: seq<Sale>, pid: Id)
    requires forall j :: 0 <= j < |sales| ==> sales[j].productId != pid
    ensures SaleQuantity(sales, pid) == 0 && SaleRevenue(sales, pid) == 0
  {
    if sales != [] {
      SalesAbsent(sales[..|sales| - 1], pid);
    }
  }

  /** All sales of one product carry its current price, so its revenue is
      its units times that price. */
  lemma {:induction false} RevenueAtPrice(sales: seq<Sale>, pid: Id, price: int)
    requires forall j :: 0 <= j < |sales| && sales[j].productId == pid ==> sales[j].price == price
    ensures SaleRevenue(sales, pid) == SaleQuantity(sales, pid) * price
  {
    if sales != [] {
      var n := |sales|;
      RevenueAtPrice(sales[..n - 1], pid, price);
      if sales[n - 1].productId == pid {
        assert (SaleQuantity(sales[..n - 1], pid) + sales[n - 1].quantity) * price ==
               SaleQuantity(sales[..n - 1], pid) * price + sales[n - 1].quantity * price;
      }
    }
  }

  /** The join and filter over one order's items keep exactly the seller's
      units. */
  lemma {:induction false} ItemSalesSums(products: map<Id, Product>, sellerId: Id, items: seq<OrderItem>, pid: Id)
    ensures var sales := ItemSales(products, sellerId, items);
            && SaleQuantity(sales, pid) == (if Owned(products, sellerId, pid) then ItemQuantity(items, pid) else 0)
            && TotalQuantity(sales) == ItemUnits(products, sellerId, items)
            && TotalRevenue(sales) == ItemValue(products, sellerId, items)
  {
    if items != [] {
      var n := |items|;
      var init := ItemSales(products, sellerId, items[..n - 1]);
      ItemSalesSums(products, sellerId, items[..n - 1], pid);
      var it := items[n - 1];
      if Owned(products, sellerId, it.productId) {
        var e := Sale(it.productId, products[it.productId].name, products[it.productId].price, it.quantity);
        assert (init + [e])[..|init|] == init;
      }
    }
  }

  /** Over the collection: a product's units in the pipeline are its units
      sold when the seller owns it and 0 otherwise, and the grand totals are
      the seller's units and their value. */
  lemma {:induction false} SalesSums(products: map<Id, Product>, sellerId: Id, orders: seq<Order>, pid: Id)
    ensures var sales := Sales(products, sellerId, orders);
            && SaleQuantity(sales, pid) == (if Owned(products, sellerId, pid) then SoldQuantity(orders, pid) else 0)
            && TotalQuantity(sales) == UnitsSold(products, sellerId, orders)
            && TotalRevenue(sales) == ValueSold(products, sellerId, orders)
  {
    if orders != [] {
      var n := |orders|;
      SalesSums(products, sellerId, orders[..n - 1], pid);
      var last := orders[n - 1];
      if Counts(last) {
        var init := Sales(products, sellerId, orders[..n - 1]);
        var more := ItemSales(products, sellerId, last.items);
        SaleSumsConcat(init, more, pid);
        ItemSalesSums(products, sellerId, last.items, pid);
      }
    }
  }

  // ---- the group stage ----

  /** One row of the result: the product, its name, units and revenue. */
  datatype Row = Row(productId: Id, name: string, totalSold: int, totalRevenue: int)

  predicate DistinctProducts(rows: seq<Row>) {
    forall i, j :: 0 <= i < j < |rows| ==> rows[i].productId != rows[j].productId
  }

  function SumSold(rows: seq<Row>): int {
    if rows == [] then 0 else SumSold(rows[..|rows| - 1]) + rows[|rows| - 1].totalSold
  }

  function SumRevenue(rows: seq<Row>): int {
    if rows == [] then 0 else SumRevenue(rows[..|rows| - 1]) + rows[|rows| - 1].totalRevenue
  }

  /** The row of a product, or -1. */
  function RowIndex(rows: seq<Row>, pid: Id): (i: int)
    ensures -1 <= i < |rows|
    ensures i == -1 <==> forall k :: 0 <= k < |rows| ==> rows[k].productId != pid
    ensures i >= 0 ==> rows[i].productId == pid
  {
    if rows == [] then -1
    else if rows[0].productId == pid then 0
    else
      var j := RowIndex(rows[1..], pid);
      if j == -1 then -1 else j + 1
  }

  /** `$group` on one more sale: its product's row gains the units and the
      revenue; a product without a row gets a new one named after this
      sale (`$first`). */
  function AddSale(rows: seq<Row>, e: Sale): seq<Row> {
    var i := RowIndex(rows, e.productId);
    if i == -1 then rows + [Row(e.productId, e.name, e.quantity, e.quantity * e.price)]
    else rows[i := rows[i].(totalSold := rows[i].totalSold + e.quantity,
                            totalRevenue := rows[i].totalRevenue + e.quantity * e.price)]
  }

  function Group(sales: seq<Sale>): seq<Row> {
    if sales == [] then [] else AddSale(Group(sales[..|sales| - 1]), sales[|sales| - 1])
  }

  lemma {:induction false} SumsUpdate(rows: seq<Row>, i: int, sold: int, revenue: int)
    requires 0 <= i < |rows|
    ensures var r := rows[i := rows[i].(totalSold := rows[i].totalSold + sold,
                                        totalRevenue := rows[i].totalRevenue + revenue)];
            SumSold(r) == SumSold(rows) + sold && SumRevenue(r) == SumRevenue(rows) + revenue
  {
    var n := |rows|;
    var r := rows[i := rows[i].(totalSold := rows[i].totalSold + sold,
                                totalRevenue := rows[i].totalRevenue + revenue)];
    if i < n - 1 {
      SumsUpdate(rows[..n - 1], i, sold, revenue);
      assert r[..n - 1] == rows[..n - 1][i := r[i]];
    } else {
      assert r[..n - 1] == rows[..n - 1];
    }
  }

  /** The first sale of a product, or -1. */
  function SaleIndex(sales: seq<Sale>, pid: Id): (i: int)
    ensures -1 <= i < |sales|
    ensures i == -1 <==> forall j :: 0 <= j < |sales| ==> sales[j].productId != pid
    ensures i >= 0 ==> sales[i].productId == pid && forall j :: 0 <= j < i ==> sales[j].productId != pid
  {
    if sales == [] then -1
    else if sales[0].productId == pid then 0
    else
      var j := SaleIndex(sales[1..], pid);
      if j == -1 then -1 else j + 1
  }

  lemma SaleIndexSnoc(sales: seq<Sale>, e: Sale, pid: Id)
    ensures SaleIndex(sales + [e], pid) ==
            if SaleIndex(sales, pid) != -1 then SaleIndex(sales, pid)
            else if e.productId == pid then |sales| else -1
  {
    var all := sales + [e];
    var i := SaleIndex(sales, pid);
    var i' := SaleIndex(all, pid);
    forall j | 0 <= j < |sales| ensures all[j] == sales[j] { }
    if i == -1 {
      forall j | 0 <= j < |sales| ensures all[j].productId != pid {
        assert all[j] == sales[j];
      }
      if e.productId == pid {
        assert all[|sales|] == e;
      }
    }
  }

  /** Each row holds its product's units and revenue over the sales. */
  predicate RowsMatchSales(sales: seq<Sale>, rows: seq<Row>) {
    forall k :: 0 <= k < |rows| ==>
      && rows[k].totalSold == SaleQuantity(sales, rows[k].productId)
      && rows[k].totalRevenue == SaleRevenue(sales, rows[k].productId)
  }

  /** Each row has the name of its product's first sale (`$first`). */
  predicate RowNames(sales: seq<Sale>, rows: seq<Row>) {
    forall k :: 0 <= k < |rows| ==>
      && 0 <= SaleIndex(sales, rows[k].productId)
      && rows[k].name == sales[SaleIndex(sales, rows[k].productId)].name
  }

  predicate EverySaleHasRow(sales: seq<Sale>, rows: seq<Row>) {
    forall j :: 0 <= j < |sales| ==> RowIndex(rows, sales[j].productId) != -1
  }

  /** What the group stage produces from a list of sales: one row per
      product, holding its units and revenue, and together all of them. */
  predicate Grouped(sales: seq<Sale>, rows: seq<Row>) {
    && DistinctProducts(rows)
    && RowsMatchSales(sales, rows)
    && SumSold(rows) == TotalQuantity(sales)
    && SumRevenue(rows) == TotalRevenue(sales)
  }

  lemma SaleSnoc(sales: seq<Sale>, e: Sale, pid: Id)
    ensures SaleQuantity(sales + [e], pid) == SaleQuantity(sales, pid) + (if e.productId == pid then e.quantity else 0)
    ensures SaleRevenue(sales + [e], pid) == SaleRevenue(sales, pid) + (if e.productId == pid then e.quantity * e.price else 0)
    ensures TotalQuantity(sales + [e]) == TotalQuantity(sales) + e.quantity
    ensures TotalRevenue(sales + [e]) == TotalRevenue(sales) + e.quantity * e.price
  {
    assert (sales + [e])[..|sales|] == sales;
  }

  /** The row AddSale gives a sale, and the rows it leaves as they were. */
  lemma AddSaleRows(rows: seq<Row>, e: Sale)
    ensures var i := RowIndex(rows, e.productId);
            var after := AddSale(rows, e);
            && |after| == (if i == -1 then |rows| + 1 else |rows|)
            && (forall k :: 0 <= k < |rows| ==> after[k].productId == rows[k].productId)
            && (forall k :: 0 <= k < |rows| && k != i ==> after[k] == rows[k])
            && RowIndex(after, e.productId) != -1
  {
    var i := RowIndex(rows, e.productId);
    var after := AddSale(rows, e);
    if i == -1 {
      assert after[|rows|].productId == e.productId;
    }
  }

  /** Every sale has a row. */
  lemma {:induction false} GroupCovers(sales: seq<Sale>)
    ensures EverySaleHasRow(sales, Group(sales))
  {
    if sales != [] {
      var n := |sales|;
      var init, e := sales[..n - 1], sales[n - 1];
      GroupCovers(init);
      var rows := Group(init);
      var after := AddSale(rows, e);
      AddSaleRows(rows, e);
      forall j | 0 <= j < n ensures RowIndex(after, sales[j].productId) != -1 {
        if j < n - 1 {
          assert sales[j] == init[j];
          var k := RowIndex(rows, sales[j].productId);
          assert after[k].productId == sales[j].productId;
        }
      }
    }
  }

  /** Each row is named after its product's first sale. */
  lemma {:induction false} GroupNames(sales: seq<Sale>)
    ensures RowNames(sales, Group(sales))
  {
    if sales != [] {
      var n := |sales|;
      var init, e := sales[..n - 1], sales[n - 1];
      assert sales == init + [e];
      GroupNames(init);
      GroupCovers(init);
      var rows := Group(init);
      var after := AddSale(rows, e);
      AddSaleRows(rows, e);
      forall k | 0 <= k < |after|
        ensures && 0 <= SaleIndex(sales, after[k].productId)
                && after[k].name == sales[SaleIndex(sales, after[k].productId)].name
      {
        SaleIndexSnoc(init, e, after[k].productId);
        if k == |rows| {
          forall j | 0 <= j < n - 1 ensures init[j].productId != e.productId {
            var r := RowIndex(rows, init[j].productId);
          }
        } else {
          assert sales[SaleIndex(init, rows[k].productId)] == init[SaleIndex(init, rows[k].productId)];
        }
      }
    }
  }

  /** One row per product; each row's units and revenue are its product's
      sums over the sales; the rows together hold all units and revenue. */
  lemma {:induction false} GroupRows(sales: seq<Sale>)
    ensures Grouped(sales, Group(sales))
  {
    if sales != [] {
      var n := |sales|;
      var init, e := sales[..n - 1], sales[n - 1];
      GroupRows(init);
      GroupCovers(init);
      assert sales == init + [e];
      if RowIndex(Group(init), e.productId) == -1 {
        GroupNewRow(init, Group(init), e);
      } else {
        GroupExistingRow(init, Group(init), e);
      }
    }
  }

  lemma GroupNewRow(sales: seq<Sale>, rows: seq<Row>, e: Sale)
    requires Grouped(sales, rows) && EverySaleHasRow(sales, rows) && RowIndex(rows, e.productId) == -1
    ensures Grouped(sales + [e], AddSale(rows, e))
  {
    var all := sales + [e];
    var row := Row(e.productId, e.name, e.quantity, e.quantity * e.price);
    var after := rows + [row];
    assert AddSale(rows, e) == after;
    assert after[..|rows|] == rows;
    SaleSnoc(sales, e, "");
    SalesAbsentRow(sales, rows, e.productId);
    assert DistinctProducts(after);
    forall k | 0 <= k < |after|
      ensures && after[k].totalSold == SaleQuantity(all, after[k].productId)
              && after[k].totalRevenue == SaleRevenue(all, after[k].productId)
    {
      SaleSnoc(sales, e, after[k].productId);
    }
  }

  lemma GroupExistingRow(sales: seq<Sale>, rows: seq<Row>, e: Sale)
    requires Grouped(sales, rows) && RowIndex(rows, e.productId) != -1
    ensures Grouped(sales + [e], AddSale(rows, e))
  {
    var i := RowIndex(rows, e.productId);
    var after := rows[i := rows[i].(totalSold := rows[i].totalSold + e.quantity,
                                    totalRevenue := rows[i].totalRevenue + e.quantity * e.price)];
    assert AddSale(rows, e) == after;
    SaleSnoc(sales, e, "");
    SumsUpdate(rows, i, e.quantity, e.quantity * e.price);
    forall k, j | 0 <= k < j < |after| ensures after[k].productId != after[j].productId {
      assert after[k].productId == rows[k].productId && after[j].productId == rows[j].productId;
    }
    UpdatedRowsMatch(sales, rows, e, i);
  }

  /** Adding a sale to its product's row keeps every row equal to its sums. */
  lemma UpdatedRowsMatch(sales: seq<Sale>, rows: seq<Row>, e: Sale, i: int)
    requires DistinctProducts(rows) && RowsMatchSales(sales, rows)
    requires 0 <= i < |rows| && rows[i].productId == e.productId
    ensures RowsMatchSales(sales + [e], rows[i := rows[i].(totalSold := rows[i].totalSold + e.quantity,
                                                           totalRevenue := rows[i].totalRevenue + e.quantity * e.price)])
  {
    var all := sales + [e];
    var after := rows[i := rows[i].(totalSold := rows[i].totalSold + e.quantity,
                                    totalRevenue := rows[i].totalRevenue + e.quantity * e.price)];
    forall k | 0 <= k < |after|
      ensures && after[k].totalSold == SaleQuantity(all, after[k].productId)
              && after[k].totalRevenue == SaleRevenue(all, after[k].productId)
    {
      SaleSnoc(sales, e, rows[k].productId);
      if k != i {
        assert after[k] == rows[k];
        assert rows[k].productId != e.productId;
      }
    }
  }

  /** A product with no row has no sales. */
  lemma SalesAbsentRow(sales: seq<Sale>, rows: seq<Row>, pid: Id)
    requires EverySaleHasRow(sales, rows)
    requires RowIndex(rows, pid) == -1
    ensures SaleQuantity(sales, pid) == 0 && SaleRevenue(sales, pid) == 0
  {
    forall j | 0 <= j < |sales| ensures sales[j].productId != pid {
      var k := RowIndex(rows, sales[j].productId);
    }
    SalesAbsent(sales, pid);
  }

  // ---- the sort stage ----

  predicate SoldDescending(rows: seq<Row>) {
    forall i, j :: 0 <= i < j < |rows| ==> rows[i].totalSold >= rows[j].totalSold
  }

  function Insert(r: Row, sorted: seq<Row>): (s: seq<Row>)
    ensures multiset(s) == multiset(sorted) + multiset{r}
  {
    if sorted == [] || r.totalSold >= sorted[0].totalSold then [r] + sorted
    else
      assert sorted == [sorted[0]] + sorted[1..];
      [sorted[0]] + Insert(r, sorted[1..])
  }

  /** Every row of an insertion is bounded by a bound of its inputs. */
  lemma InsertBelow(r: Row, rows: seq<Row>, bound: int)
    requires r.totalSold <= bound
    requires forall m :: 0 <= m < |rows| ==> rows[m].totalSold <= bound
    ensures forall k :: 0 <= k < |Insert(r, rows)| ==> Insert(r, rows)[k].totalSold <= bound
  {
    var s := Insert(r, rows);
    forall k | 0 <= k < |s| ensures s[k].totalSold <= bound {
      assert s[k] in multiset(rows) + multiset{r};
      if s[k] != r {
        assert s[k] in rows;
      }
    }
  }

  lemma {:induction false} InsertDescending(r: Row, sorted: seq<Row>)
    requires SoldDescending(sorted)
    ensures SoldDescending(Insert(r, sorted))
  {
    if sorted != [] && r.totalSold < sorted[0].totalSold {
      var rest := sorted[1..];
      InsertDescending(r, rest);
      InsertBelow(r, rest, sorted[0].totalSold);
      var tail := Insert(r, rest);
      var s := [sorted[0]] + tail;
      assert Insert(r, sorted) == s;
      forall i, j | 0 <= i < j < |s| ensures s[i].totalSold >= s[j].totalSold {
        assert s[j] == tail[j - 1];
        if i > 0 {
          assert s[i] == tail[i - 1];
        }
      }
    } else {
      var s := [r] + sorted;
      assert Insert(r, sorted) == s;
      forall i, j | 0 <= i < j < |s| ensures s[i].totalSold >= s[j].totalSold {
        assert s[j] == sorted[j - 1];
        if i > 0 {
          assert s[i] == sorted[i - 1];
        }
      }
    }
  }

  /** `$sort: {totalSold: -1}`: the same rows, units sold descending. */
  function SortBySold(rows: seq<Row>): (s: seq<Row>)
    ensures multiset(s) == multiset(rows)
    ensures SoldDescending(s)
  {
    if rows == [] then []
    else
      assert rows == [rows[0]] + rows[1..];
      InsertDescending(rows[0], SortBySold(rows[1..]));
      Insert(rows[0], SortBySold(rows[1..]))
  }

  lemma {:induction false} SumsCons(r: Row, rows: seq<Row>)
    ensures SumSold([r] + rows) == r.totalSold + SumSold(rows)
    ensures SumRevenue([r] + rows) == r.totalRevenue + SumRevenue(rows)
  {
    if rows != [] {
      var n := |rows|;
      SumsCons(r, rows[..n - 1]);
      assert ([r] + rows)[..n] == [r] + rows[..n - 1];
    }
  }

  lemma {:induction false} InsertSums(r: Row, sorted: seq<Row>)
    ensures SumSold(Insert(r, sorted)) == r.totalSold + SumSold(sorted)
    ensures SumRevenue(Insert(r, sorted)) == r.totalRevenue + SumRevenue(sorted)
  {
    SumsCons(r, sorted);
    if sorted != [] && r.totalSold < sorted[0].totalSold {
      InsertSums(r, sorted[1..]);
      SumsCons(sorted[0], Insert(r, sorted[1..]));
      SumsCons(sorted[0], sorted[1..]);
      assert sorted == [sorted[0]] + sorted[1..];
    }
  }

  /** Sorting neither loses nor duplicates units or revenue. */
  lemma {:induction false} SortSums(rows: seq<Row>)
    ensures SumSold(SortBySold(rows)) == SumSold(rows)
    ensures SumRevenue(SortBySold(rows)) == SumRevenue(rows)
  {
    if rows != [] {
      SortSums(rows[1..]);
      InsertSums(rows[0], SortBySold(rows[1..]));
      SumsCons(rows[0], rows[1..]);
      assert rows == [rows[0]] + rows[1..];
    }
  }

  lemma {:induction false} InsertDistinct(r: Row, sorted: seq<Row>)
    requires DistinctProducts(sorted)
    requires forall k :: 0 <= k < |sorted| ==> sorted[k].productId != r.productId
    ensures DistinctProducts(Insert(r, sorted))
  {
    if sorted != [] && r.totalSold < sorted[0].totalSold {
      var rest := sorted[1..];
      InsertDistinct(r, rest);
      var tail := Insert(r, rest);
      forall k | 0 <= k < |tail| ensures tail[k].productId != sorted[0].productId {
        assert tail[k] in multiset(rest) + multiset{r};
      }
    }
  }

  /** Sorting keeps one row per product. */
  lemma {:induction false} SortDistinct(rows: seq<Row>)
    requires DistinctProducts(rows)
    ensures DistinctProducts(SortBySold(rows))
  {
    if rows != [] {
      var rest := SortBySold(rows[1..]);
      SortDistinct(rows[1..]);
      forall k | 0 <= k < |rest| ensures rest[k].productId != rows[0].productId {
        assert rest[k] in multiset(rows[1..]);
      }
      InsertDistinct(rows[0], rest);
    }
  }

  // ---- the statistics ----

  /** The rows the pipeline returns. */
  function Stats(products: map<Id, Product>, sellerId: Id, orders: seq<Order>): seq<Row> {
    SortBySold(Group(Sales(products, sellerId, orders)))
  }

  /** A row of the group stage is one of the seller's products, with its
      current name, its units sold and their value at its current price. */
  lemma GroupedRowSound(products: map<Id, Product>, sellerId: Id, orders: seq<Order>, k: int)
    requires 0 <= k < |Group(Sales(products, sellerId, orders))|
    ensures var row := Group(Sales(products, sellerId, orders))[k];
            && Owned(products, sellerId, row.productId)
            && row.name == products[row.productId].name
            && row.totalSold == SoldQuantity(orders, row.productId)
            && row.totalRevenue == SoldQuantity(orders, row.productId) * products[row.productId].price
  {
    var sales := Sales(products, sellerId, orders);
    var row := Group(sales)[k];
    var pid := row.productId;
    GroupRows(sales);
    GroupNames(sales);
    assert sales[SaleIndex(sales, pid)] in sales;
    SalesSums(products, sellerId, orders, pid);
    RevenueAtPrice(sales, pid, products[pid].price);
  }

  /** A product of the seller that sold has a row after the group stage. */
  lemma GroupedComplete(products: map<Id, Product>, sellerId: Id, orders: seq<Order>, pid: Id)
    requires Owned(products, sellerId, pid) && SoldQuantity(orders, pid) != 0
    ensures RowIndex(Group(Sales(products, sellerId, orders)), pid) != -1
  {
    var sales := Sales(products, sellerId, orders);
    SalesSums(products, sellerId, orders, pid);
    assert SaleQuantity(sales, pid) != 0;
    GroupCovers(sales);
    if RowIndex(Group(sales), pid) == -1 {
      SalesAbsentRow(sales, Group(sales), pid);
    }
  }

  /** Each row is one of the seller's products, with its current name, the
      units of it sold in paid or completed orders, and those units priced
      at the product's current price (not the price the order recorded);
      every product of the seller that sold has a row; one row per product;
      rows by units sold, descending. */
  lemma StatsRows(products: map<Id, Product>, sellerId: Id, orders: seq<Order>)
    ensures var rows := Stats(products, sellerId, orders);
            && DistinctProducts(rows) && SoldDescending(rows)
            && (forall k :: 0 <= k < |rows| ==>
                  var pid := rows[k].productId;
                  && Owned(products, sellerId, pid)
                  && rows[k].name == products[pid].name
                  && rows[k].totalSold == SoldQuantity(orders, pid)
                  && rows[k].totalRevenue == SoldQuantity(orders, pid) * products[pid].price)
            && (forall pid :: Owned(products, sellerId, pid) && SoldQuantity(orders, pid) != 0 ==>
                  exists k :: 0 <= k < |rows| && rows[k].productId == pid)
  {
    var sales := Sales(products, sellerId, orders);
    var grouped := Group(sales);
    var rows := SortBySold(grouped);
    GroupRows(sales);
    SortDistinct(grouped);
    forall k | 0 <= k < |rows|
      ensures var pid := rows[k].productId;
              && Owned(products, sellerId, pid)
              && rows[k].name == products[pid].name
              && rows[k].totalSold == SoldQuantity(orders, pid)
              && rows[k].totalRevenue == SoldQuantity(orders, pid) * products[pid].price
    {
      assert rows[k] in multiset(grouped);
      var g :| 0 <= g < |grouped| && grouped[g] == rows[k];
      GroupedRowSound(products, sellerId, orders, g);
    }
    forall pid | Owned(products, sellerId, pid) && SoldQuantity(orders, pid) != 0
      ensures exists k :: 0 <= k < |rows| && rows[k].productId == pid
    {
      GroupedComplete(products, sellerId, orders, pid);
      var g := RowIndex(grouped, pid);
      assert grouped[g] in multiset(rows);
      var k :| 0 <= k < |rows| && rows[k] == grouped[g];
    }
  }

  /** The grand totals over the rows are all the seller's units sold in paid
      or completed orders and their value at current prices. */
  lemma StatsTotals(products: map<Id, Product>, sellerId: Id, orders: seq<Order>)
    ensures SumSold(Stats(products, sellerId, orders)) == UnitsSold(products, sellerId, orders)
    ensures SumRevenue(Stats(products, sellerId, orders)) == ValueSold(products, sellerId, orders)
  {
    var sales := Sales(products, sellerId, orders);
    GroupRows(sales);
    SortSums(Group(sales));
    SalesSums(products, sellerId, orders, "");
  }

  /** The response: the rows and the two grand totals. */
  datatype Report = Report(stats: seq<Row>, totalRevenue: int, totalProductsSold: int)

  /** GET: 401 without a user; otherwise the rows of the pipeline, copied
      one by one while the two grand totals are accumulated. */
  method Get(db: Database, sellerId: Id) returns (r: Result<Report>)
    ensures r.Err? <==> sellerId == ""
    ensures r.Err? ==> r.error == Unauthorized
    ensures r.Ok? ==> r.value.stats == Stats(db.products, sellerId, db.orders)
    ensures r.Ok? ==> r.value.totalProductsSold == SumSold(r.value.stats) &&
                      r.value.totalRevenue == SumRevenue(r.value.stats)
    ensures r.Ok? ==> r.value.totalProductsSold == UnitsSold(db.products, sellerId, db.orders) &&
                      r.value.totalRevenue == ValueSold(db.products, sellerId, db.orders)
  {
    if sellerId == "" {
      return Err(Unauthorized);
    }
    var raw := Stats(db.products, sellerId, db.orders);
    var totalRevenue := 0;
    var totalProductsSold := 0;
    var stats: seq<Row> := [];
    for i := 0 to |raw|
      invariant stats == raw[..i]
      invariant totalProductsSold == SumSold(stats)
      invariant totalRevenue == SumRevenue(stats)
    {
      var row := raw[i];
      var sold := row.totalSold;
      var rev := row.totalRevenue;
      totalProductsSold := totalProductsSold + sold;
      totalRevenue := totalRevenue + rev;
      stats := stats + [Row(row.productId, row.name, sold, rev)];
      assert stats[..i] == raw[..i];
    }
    assert raw[..|raw|] == raw;
    StatsTotals(db.products, sellerId, db.orders);
    r := Ok(Report(stats, totalRevenue, totalProductsSold));
  }
}
