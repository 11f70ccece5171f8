/** The product record as the core routes read and write it. The product
    schema file itself (src/models/product) is not part of this model; the
    fields below are the ones the routes use. */
module Catalog {
  import opened Common

  datatype Product = Product(
    name: string,
    slug: string,
    price: int,       // smallest currency unit
    stock: int,
    imageUrl: string,
    isActive: bool,
    sellerId: Id)     // the product's `userId`, the seller who owns it

  /** `(product.stock || 0) - quantity`, raised to 0 when it goes negative
      (checkout, src/app/api/orders/route.ts:85-86). An absent stock is 0. */
  function ClampedStock(stock: int, quantity: int): (r: int)
    ensures r >= 0
    ensures r == stock - quantity || (r == 0 && stock - quantity < 0)
  {
    if stock - quantity < 0 then 0 else stock - quantity
  }
}
