# Storefront checkout and order lifecycle, in Dafny

This project models the server core of a small storefront built on Next.js route handlers and a MongoDB document store. It covers:

- **Checkout.** The checkout route turns a user's cart into a pending order. It trims and checks six shipping fields. It skips cart lines whose product no longer exists. It snapshots name, price and quantity into order items. It sums the subtotal, adds a flat 20000 shipping fee, lowers each ordered product's stock with a floor of 0, and empties the cart.
- **Order lists.** The owner sees their orders, and the administrator sees all orders, both newest first.
- **Cart route.** Add-to-cart merges into an existing line, appends a line, or creates the cart. Set-quantity replaces a line's quantity or removes the line. Reading the cart projects each line onto its product.
- **Order status.** The administrator overwrites a status after checking it against a closed list. The owner's pay action looks the order up, returns early on a paid or completed order, and otherwise sets it to paid.
- **Order and cart documents.** The status enum with its defaults, item and address requirements, and one cart per user holding lines of quantity at least 1.
- **Seller statistics.** A pipeline keeps paid and completed orders, unwinds their items, joins each with its product and keeps the seller's products. It then groups by product and sorts by units sold. A loop adds up the two grand totals.
- **Admin product creation.** How the route normalises and refuses submitted fields.
- **Middleware access rule.** Login is required on a list of path prefixes, and admin paths also need the admin role.

The shared store is a class, `Store.Database`. It holds the product table (a map), the carts (a map from user id to a sequence of lines), the order collection (a sequence in insertion order) and a creation clock.

- **Methods.** Route handlers that change the store are methods with `modifies db`. Each one's postcondition ties the new state to a pure reference function of the old state. The checkout loop is a `while` loop with invariants, and the statistics totals are a `for` loop. Each preserves `Database.Valid()`: carts satisfy the cart schema, orders are well formed, ids are unique, and creation times increase.
- **Lemmas.** The properties the routes promise are lemmas about the reference functions.
- **Errors.** Every route's error path is a `Result` with the HTTP error it answers.

User ids and roles are plain inputs; the empty string stands for a request without a session. The new order's id is a parameter of checkout.

Some behaviour of the code is easy to misread, and the model follows the code:

- **Empty cart.** The checkout's emptiness test reads the misspelt `lenght` property and never fires. An empty cart gets the "no valid items" 400 (`InvalidCartItems`).
- **Pay lookup.** The pay route filters on `user`, a path the order schema does not have, so ownership is not part of the lookup as written (see Findings).
- **Status names.** The admin status route's list misspells two of the schema's six statuses, so an order can never be set to completed or cancelled (see Findings).
- **Negative stock.** Checkout clamps only the stock of the products it orders. If the product store accepts a negative stock, a product keeps it until it is ordered (`OrdersRoute.StockStaysNonNegative`).

## Model

| member | source | states |
|---|---|---|
| `Catalog.ClampedStock` | src/app/api/orders/route.ts:85-86 | the new stock is stock − quantity when that is not negative and 0 otherwise; never negative |
| `Text.TrimStartSpec` | src/app/api/orders/route.ts:41-48 | trimming the front drops a white-space prefix and nothing else, and the result does not start with white space |
| `Text.TrimEndSpec` | src/app/api/orders/route.ts:41-48 | trimming the end drops a white-space suffix and nothing else, and the result does not end with white space |
| `Text.TrimBlank` | src/app/api/orders/route.ts:50-57 | a field trims to "" exactly when it is empty or all white space |
| `Text.TrimIdempotent` | src/app/api/admin/products/route.ts:9 | trimming twice is trimming once |
| `Text.ToLower` | src/app/api/admin/products/route.ts:10 | lower-casing keeps the length, turns each upper-case ASCII letter into its lower-case letter, leaves no upper-case ASCII letter and keeps every other character in place |
| `Text.ToLowerIdempotent` | src/app/api/admin/products/route.ts:10 | lower-casing twice is lower-casing once |
| `Text.ToLowerKeepsTrim` | src/app/api/admin/products/route.ts:10 | a trimmed, lower-cased slug is still trimmed, and it is empty exactly when the submitted slug is blank |
| `OrderModel.StatusName` | src/models/Order.ts:32-36 | every status is stored as one of the enum's six names |
| `OrderModel.ParseStatus` | src/models/Order.ts:32-36 | the enum validation accepts a string exactly when it is one of the six names, and then returns the status with that name |
| `OrderModel.StatusNameRoundTrip` | src/models/Order.ts:32-36 | parsing a status's stored name gives that status back |
| `OrderModel.PathValue` | src/models/Order.ts:22-24 | of the paths the routes' filters name (`_id`, `userId`, `user`), an order document holds `_id` and `userId`, and `user` is absent |
| `OrderModel.IdFilter` | src/app/api/admin/orders/route.ts:56 | the `findById` filter matches exactly the orders with that id |
| `OrderModel.FindOne` | src/app/api/orders/pay/route.ts:26-31 | the result is the first matching order, or −1 exactly when no order matches |
| `OrderModel.FindOneSameKeys` | src/app/api/orders/pay/route.ts:26-31 | a lookup depends only on ids and owners, so a status change never changes which order it finds |
| `OrderModel.SortNewestFirst` | src/app/api/orders/route.ts:24 | the sort keeps the same orders (same multiset), newest first when the collection is in creation order |
| `OrderModel.OwnedBy` | src/app/api/orders/route.ts:23 | `find({userId})` returns an order exactly when it is stored and belongs to the user |
| `OrderModel.OwnedByKeepsOrder` | src/app/api/orders/route.ts:23-25 | filtering by owner keeps creation order |
| `CartModel.IndexOf` | src/app/api/cart/route.ts:108-110 | `findIndex` gives the first line for the product, or −1 exactly when there is none |
| `CartModel.AddLineAppends` | src/app/api/cart/route.ts:79-80 | add-to-cart for a product without a line appends `{productId, qty}` at the end |
| `CartModel.AddLineMerges` | src/app/api/cart/route.ts:73-78 | add-to-cart for a product with a line adds qty to that line in place and changes no other line |
| `CartModel.AddLineQuantities` | src/app/api/cart/route.ts:73-82 | add-to-cart raises the product's quantity by qty and keeps every other product's quantity |
| `CartModel.AddLineValid` | src/app/api/cart/route.ts:73-82 | add-to-cart keeps one line per product and every quantity ≥ 1, and the products with a line are the old ones plus the one added |
| `CartModel.SetLineAbsent` | src/app/api/cart/route.ts:111-113 | set-quantity on a product without a line changes nothing |
| `CartModel.SetLineRemovesAt` | src/app/api/cart/route.ts:115-116 | set-quantity with qty ≤ 0 splices the product's line out at its index |
| `CartModel.SetLineReplacesAt` | src/app/api/cart/route.ts:117-118 | set-quantity with qty > 0 overwrites the quantity of the product's line in place |
| `CartModel.SetLineValid` | src/app/api/cart/route.ts:115-119 | set-quantity keeps the cart schema's invariant; the product loses its line exactly when qty ≤ 0, and every other product keeps its line |
| `CartModel.RemoveKeepsOthers` | src/app/api/cart/route.ts:115-116 | removing a line keeps all the other lines, in order, with their quantities |
| `CartModel.SetLineQuantities` | src/app/api/cart/route.ts:117-118 | with qty > 0 the product's quantity becomes exactly qty if it had a line, and every other product's quantity is unchanged |
| `CartModel.QuantityOfLine` | src/models/Cart.ts:5-19 | in a cart with one line per product, a product's quantity is the quantity on its line |
| `CartRoute.Project` | src/app/api/cart/route.ts:29-40 | one entry per line, in order, with the line's quantity and the product's current name, slug, price and image; a line whose product is gone makes the request fail with 500 |
| `CartRoute.Get` | src/app/api/cart/route.ts:14-43 | 401 without a user, an empty list without a cart, otherwise the cart's projection: one entry per line with the product's name, slug, price and image, or 500 when a line's product is gone |
| `CartRoute.AddQuantity` | src/app/api/cart/route.ts:53 | an absent or zero quantity becomes 1, any other is kept |
| `CartRoute.Post` | src/app/api/cart/route.ts:45-86 | 401; 400 for a missing product id or a quantity ≤ 0; 404 for a missing or inactive product, with the carts unchanged; otherwise a new cart with one line, or `AddLine` on the existing cart; the store stays valid |
| `CartRoute.Patch` | src/app/api/cart/route.ts:88-123 | 401; 400 for a missing product id or a non-numeric quantity; a successful no-op without a cart or a line; otherwise `SetLineQuantity` on the cart; the store stays valid |
| `Store.StatusChangeKeepsConsistent` | src/app/api/admin/orders/route.ts:64-65 | replacing order statuses, and nothing else, keeps the store's invariant |
| `Store.CartUpdateKeepsConsistent` | src/models/Cart.ts:14-19 | storing a schema-valid list of lines as a user's cart keeps the store's invariant |
| `OrdersRoute.NormalizeAddress` | src/app/api/orders/route.ts:41-48 | each of the six shipping fields is the trimmed request field |
| `OrdersRoute.AddressCompleteIff` | src/app/api/orders/route.ts:50-58 | the address check passes exactly when none of the six fields is blank |
| `OrdersRoute.Snapshot` | src/app/api/orders/route.ts:77-83 | an item copies the product's current name, price and image and the line's unclamped quantity |
| `OrdersRoute.Resolved` | src/app/api/orders/route.ts:70-72 | every kept line is a cart line whose product exists, and no more lines are kept than the cart holds |
| `OrdersRoute.ResolvedComplete` | src/app/api/orders/route.ts:69-71 | no cart line whose product exists is skipped |
| `OrdersRoute.ResolvedKeepsCartOrder` | src/app/api/orders/route.ts:69-71 | in a cart with one line per product, the kept lines stay in cart order: an earlier kept line sits earlier in the cart |
| `OrdersRoute.ResolvedPositionsIncrease` | src/app/api/orders/route.ts:69-71 | the cart positions of the kept lines increase strictly |
| `OrdersRoute.DecrementStock` | src/app/api/orders/route.ts:85-87 | the stock writes keep the product table's keys |
| `OrdersRoute.PlacedOrder` | src/app/api/orders/route.ts:94-106 | the created order has the given id, the caller as owner, the normalised shipping address and the given creation time, and holds the checkout's items, a subtotal that is the sum of price × quantity over them, shipping cost 20000, total = subtotal + shipping cost, status pending (the schema's default) and payment method "manual" |
| `OrdersRoute.OrderItemsAreResolvedLines` | src/app/api/orders/route.ts:67-83 | the items are the resolved lines in cart order, each with its product's name and price and the line's quantity |
| `OrdersRoute.NoItemsIff` | src/app/api/orders/route.ts:70-92 | no item is built exactly when no line's product exists; an empty cart included |
| `OrdersRoute.NoItemsNoStockChange` | src/app/api/orders/route.ts:70-92 | when no item is built, no stock is written |
| `OrdersRoute.DecrementStockKeepsCatalog` | src/app/api/orders/route.ts:85-87 | checkout changes no product field but stock |
| `OrdersRoute.StockAfterCheckout` | src/app/api/orders/route.ts:85-87 | with one line per product, each ordered product ends with max(0, stock − quantity), and every other product keeps its stock |
| `OrdersRoute.StockStaysNonNegative` | src/app/api/orders/route.ts:85-86 | stock that was not negative stays not negative, and an ordered product ends not negative |
| `OrdersRoute.CheckoutExamples` | src/app/api/orders/route.ts:67-106 | 2 × 50000 with stock 5 gives subtotal 100000, total 120000, stock 3; 10 units with stock 3 are ordered in full and leave stock 0 |
| `OrdersRoute.Post` | src/app/api/orders/route.ts:34-112 | 401, then 400 for a blank address, 400 without a cart, 400 when no line resolves; success exactly when none of these holds; any failure leaves the store as it was; on success the placed order is appended, stock is decremented and the cart emptied; the store stays valid |
| `OrdersRoute.TakeLines` | src/app/api/orders/route.ts:67-88 | the loop builds exactly `OrderItems`, their subtotal and `DecrementStock` of the table it loaded, and touches nothing else |
| `OrdersRoute.CheckoutKeepsConsistent` | src/app/api/orders/route.ts:94-109 | appending the placed order, decrementing stock and emptying the cart keeps the store's invariant |
| `OrdersRoute.OrderWellFormed` | src/models/Order.ts:5-40 | the order checkout builds from a valid cart satisfies the order schema: items with product, name and quantity ≥ 1, a complete address |
| `OrdersRoute.List` | src/app/api/orders/route.ts:15-31 | 401 without a user; otherwise exactly the caller's orders, newest first |
| `AdminOrdersRoute.SetStatus` | src/app/api/admin/orders/route.ts:35-75 | 400 exactly when id or status is missing; 400 exactly when the status is not accepted; 404 exactly when no order has the id; 500 exactly when the save rejects a name outside the enum; every failure leaves the orders as they were; otherwise only the status of the order with that id changes |
| `AdminOrdersRoute.SetStatusOverwrites` | src/app/api/admin/orders/route.ts:64-65 | an accepted name the schema knows overwrites that order's status from any status, backwards included, and no other order changes |
| `AdminOrdersRoute.CompletedUnreachable` | src/app/api/admin/orders/route.ts:6-13 | as written, no order becomes completed or cancelled through the route |
| `AdminOrdersRoute.MisspelledStatusFailsOnSave` | src/app/api/admin/orders/route.ts:6-13 | as written, "complete" and "canceled" pass the list and fail on save (500); "completed" and "cancelled" are refused (400) |
| `AdminOrdersRoute.CorrectedReachesEveryStatus` | src/models/Order.ts:32-36 | with the schema's names as the list, every status can be set on every stored order |
| `AdminOrdersRoute.Patch` | src/app/api/admin/orders/route.ts:35-75 | the orders become `SetStatus` with the schema's names as the list (the correction in Findings); the store stays valid |
| `AdminOrdersRoute.List` | src/app/api/admin/orders/route.ts:15-33 | every order, whoever owns it, newest first |
| `PayRoute.PayFilter` | src/app/api/orders/pay/route.ts:26-31 | the lookup as written matches no order |
| `PayRoute.OwnerFilter` | src/app/api/orders/pay/route.ts:26-31 | the corrected lookup matches exactly the order with that id and that owner |
| `PayRoute.StrictFilter` | src/app/api/orders/pay/route.ts:26-31 | with strictQuery on, a filter over the paths the routes name keeps its `_id` and `userId` conditions and drops the undeclared `user` |
| `PayRoute.Pay` | src/app/api/orders/pay/route.ts:26-41 | 404 exactly when nothing matches, with nothing changed; otherwise reports paid or completed, completed exactly when the order was; only the found order can change, and only to paid |
| `PayRoute.PayIdempotent` | src/app/api/orders/pay/route.ts:36-41 | paying twice reports the same result and the second call changes nothing |
| `PayRoute.PayAsWrittenNotFound` | src/app/api/orders/pay/route.ts:26-35 | as written, every pay request answers 404 and changes nothing |
| `PayRoute.StrictPayIgnoresOwner` | src/app/api/orders/pay/route.ts:26-41 | under strictQuery, a caller pays a pending order owned by someone else |
| `PayRoute.OwnerPayIsolated` | src/app/api/orders/pay/route.ts:26-35 | corrected: 404 exactly when the caller owns no order with that id, and no one else's order ever changes |
| `PayRoute.OwnerPaysOwnOrder` | src/app/api/orders/pay/route.ts:36-41 | corrected: the owner's order keeps paid or completed and otherwise becomes paid, shipped and cancelled included |
| `PayRoute.Post` | src/app/api/orders/pay/route.ts:8-46 | 401 without a user; 400 without an order id; otherwise `Pay` with the corrected lookup; the store stays valid |
| `PayRoute.PayMatching` | src/app/api/orders/pay/route.ts:26-41 | the orders and the response are `Pay` of the old orders, and the store stays valid |
| `SellerStats.ItemSales` | src/app/api/seller/stats/route.ts:21-31 | every joined sale is of a product the seller owns, with that product's current name and price |
| `SellerStats.Sales` | src/app/api/seller/stats/route.ts:17-31 | the same for the whole collection |
| `SellerStats.ItemSalesSums` | src/app/api/seller/stats/route.ts:21-31 | the join and seller filter over one order keep exactly the seller's units and their value |
| `SellerStats.SalesSums` | src/app/api/seller/stats/route.ts:17-31 | a product's units after the filter are its units sold in paid or completed orders if the seller owns it and 0 otherwise; the totals are the seller's units and their value |
| `SellerStats.RevenueAtPrice` | src/app/api/seller/stats/route.ts:37 | a product's revenue is its units times its current price |
| `SellerStats.GroupCovers` | src/app/api/seller/stats/route.ts:32-39 | every sale has a row after grouping |
| `SellerStats.GroupNames` | src/app/api/seller/stats/route.ts:35 | each row carries the name of its product's first sale |
| `SellerStats.GroupRows` | src/app/api/seller/stats/route.ts:32-39 | one row per product, each holding its product's units and revenue, together holding all of them |
| `SellerStats.SortBySold` | src/app/api/seller/stats/route.ts:40 | the sort keeps the same rows (same multiset), by units sold, descending |
| `SellerStats.SortSums` | src/app/api/seller/stats/route.ts:40 | sorting keeps the total units and revenue |
| `SellerStats.SortDistinct` | src/app/api/seller/stats/route.ts:40 | sorting keeps one row per product |
| `SellerStats.GroupedRowSound` | src/app/api/seller/stats/route.ts:17-39 | a grouped row is a product of the seller, with its current name, its units sold and their value at its current price |
| `SellerStats.GroupedComplete` | src/app/api/seller/stats/route.ts:17-39 | every product of the seller that sold has a row |
| `SellerStats.StatsRows` | src/app/api/seller/stats/route.ts:17-41 | the pipeline's rows: one per product of the seller that sold, with its current name, its units sold in paid or completed orders and their value at the current price, by units sold descending |
| `SellerStats.StatsTotals` | src/app/api/seller/stats/route.ts:44-57 | the rows' units and revenue add up to all the seller's units sold and their value |
| `SellerStats.Get` | src/app/api/seller/stats/route.ts:8-59 | 401 without a user; otherwise the pipeline's rows, with totals that are the sums over the rows and so the seller's units sold and their value |
| `AdminProductsRoute.NumberOrZero` | src/app/api/admin/products/route.ts:11-12 | an absent number reads as 0, a number as itself, text that is not a number as NaN |
| `AdminProductsRoute.Normalize` | src/app/api/admin/products/route.ts:5-35 | 400 exactly when the name or slug is blank or the price is zero, absent or not a number (a negative price passes); 500 exactly when otherwise the stock is not a number; accepted exactly when neither holds, giving the trimmed name, the trimmed lower-case slug, the price, the stock (0 when absent) and the trimmed optional texts |
| `AdminProductsRoute.NormalizeIdempotent` | src/app/api/admin/products/route.ts:9-15 | submitting an accepted draft again gives the same draft |
| `Middleware.Decide` | src/middleware.ts:6-32 | login redirect with callback path + query exactly when login is needed and there is no token; home redirect exactly for an admin path with a non-admin token; everything else passes |
| `Middleware.NeedLoginIff` | src/middleware.ts:10-18 | login is needed exactly when the path starts with one of the eight listed prefixes |
| `Middleware.CartPageOpen` | src/middleware.ts:14 | a path under /cart needs no login and passes, token or not |
| `Middleware.CartPrefixDead` | src/middleware.ts:14 | the "cart" test never fires on a path starting with "/" |
| `Middleware.AdminGate` | src/middleware.ts:20-30 | an admin path passes exactly with the admin role, and without a token it goes to login |
| `Middleware.Route` | src/middleware.ts:34 | paths outside the matcher pass; matched paths get the middleware's decision |
| `Middleware.MatchedNeedLogin` | src/middleware.ts:10-18 | of the paths the matcher sends, exactly those not under /cart need login |

## Left out

- `OrderModel.PathValue`: filters on the order's other declared string paths (`status`, `paymentMethod`, the shipping fields) are not modelled; those paths read as absent, because no route filters on them.
- `PayRoute.StrictFilter`: for the same reason it keeps only `_id` and `userId`; a condition on another declared path, which strictQuery would keep, is dropped in the model.
- Session and token resolution: the user id, the seller id and the role are inputs, and "" stands for "no session".
- Database plumbing: connecting, `populate`, `lean` and JSON copies are not modelled. Collections are maps and sequences, and `createdAt` is a counter that increases with every order.
- Failures of the database itself are not modelled: a lost connection, a failed `Order.create` or `save()`, or an exception from `findById`.
- Concurrency and atomicity: checkout's stock writes, order creation and cart clear are separate, non-transactional writes. Checkout is modelled as one sequential step, without races or partial failure.
- Identifiers that are not valid ObjectIds (a CastError, answered with 500) are not modelled: ids are plain strings.
- `CartRoute.Post`: a non-numeric quantity is not modelled. `Number("abc")` is NaN, which passes the `qty <= 0` guard, and the request then fails on save with 500.
- JavaScript numbers are integers here (the smallest currency unit). Fractional quantities, NaN in arithmetic and floating-point rounding are not modelled. For the same reason `row.totalSold || 0` in the statistics loop is the identity.
- Body fields that are not strings (where `.trim()` would throw) are not modelled. Nor is a body that is not JSON.
- `Text.ToLower`: only ASCII letters are lower-cased; other Unicode case mappings are not modelled.
- The aggregation's order among rows with equal units sold, and the admin and owner lists' order among orders with equal creation times, are unspecified by the store and are not modelled; creation times here are distinct.
- `Product.create` and the product schema file (src/models/product) are not part of this model. Normalisation stops at the draft the route hands to it, and a NaN stock is taken to fail there with 500.
- The admin product list (`GET` in src/app/api/admin/products/route.ts:38-55) is a plain sorted query with no logic of its own.
- The admin order routes check no session themselves. Access to them rests on the middleware rule, which is modelled.
- The register route, the product list routes, the React pages and components, and currency formatting are not modelled.
- `Catalog.ClampedStock` takes an absent stock as 0 implicitly: stock is always an integer here, so `(stock || 0)` is the stock itself.

## Findings

| source | as written | input that shows it | evidently intended | confidence | as-written member | corrected member |
|---|---|---|---|---|---|---|
| src/app/api/orders/pay/route.ts:29 | the lookup filters on `user`, a path the order schema does not declare (the owner is stored under `userId`, src/models/Order.ts:24). With unknown paths sent to the database (strictQuery off, Mongoose 7's default), no order matches. With strictQuery on, the condition is dropped and any caller can pay any order (`PayRoute.StrictPayIgnoresOwner`) | a signed-in owner pays their own pending order: 404, status unchanged | the lookup matches `_id` and `userId` | not executed (depends on the Mongoose strictQuery setting) | `PayRoute.PayAsWrittenNotFound` | `PayRoute.OwnerPaysOwnOrder` |
| src/app/api/admin/orders/route.ts:11-12 | the accepted list spells "complete" and "canceled", while the schema enum has "completed" and "cancelled" (src/models/Order.ts:34). The route's spellings pass the check and fail enum validation on save (500); the schema's spellings are refused (400). No order can be completed or cancelled (`AdminOrdersRoute.CompletedUnreachable`) | PATCH `{orderID: <existing id>, status: "complete"}`: 500, status unchanged | the accepted list is the schema's six names | not executed | `AdminOrdersRoute.MisspelledStatusFailsOnSave` | `AdminOrdersRoute.CorrectedReachesEveryStatus` |

The store-changing routes (`PayRoute.Post`, `AdminOrdersRoute.Patch`) use the corrected lookup and the corrected list. The behaviour as written remains stated by `PayRoute.Pay` applied to `PayRoute.PayFilter`, and by `AdminOrdersRoute.SetStatus` applied to `AdminOrdersRoute.AllowedStatus`.
