/** src/app/api/admin/products/route.ts: how the administrator's product
    creation (POST) normalises the submitted fields and which submissions it
    refuses before the product is created. */
module AdminProductsRoute {
  import opened Common
  import opened Text

  /** A numeric field of the request body as `Number(field || 0)` sees it:
      a falsy value (absent, "", 0), a number, or text that is not one. */
  datatype NumberInput = Missing | Num(n: int) | NotANumber

  /** `Number(field || 0)`; None stands for NaN. */
  function NumberOrZero(x: NumberInput): (v: Option<int>)
    ensures v.None? <==> x.NotANumber?
    ensures x.Num? ==> v == Some(x.n)
    ensures x.Missing? ==> v == Some(0)
  {
    match x
    case Missing => Some(0)
    case Num(n) => Some(n)
    case NotANumber => None
  }

  /** The request body; an absent text field is "". */
  datatype ProductForm = ProductForm(
    name: string,
    slug: string,
    price: NumberInput,
    stock: NumberInput,
    imageUrl: string,
    category: string,
    description: string)

  /** The fields handed to the product store. */
  datatype ProductDraft = ProductDraft(
    name: string,
    slug: string,
    price: int,
    stock: int,
    imageUrl: string,
    category: string,
    description: string)

  /** A price the guard refuses: `!price` holds for 0 and for NaN. */
  predicate PriceMissing(x: NumberInput) {
    NumberOrZero(x) == None || NumberOrZero(x) == Some(0)
  }

  /** POST up to the creation. A blank name, a blank slug, or a price that is
      zero, absent or not a number is refused with 400 (a negative price is
      accepted); a stock that is not a number makes the creation fail (500);
      otherwise the draft holds the trimmed name, the trimmed lower-case
      slug, the price, the stock (0 when absent) and the trimmed optional
      texts. */
  function Normalize(f: ProductForm): (r: Result<ProductDraft>)
    ensures r == Err(BadRequest(MissingProductFields)) <==>
      AllSpace(f.name) || AllSpace(f.slug) || PriceMissing(f.price)
    ensures r == Err(ServerError) <==>
      !AllSpace(f.name) && !AllSpace(f.slug) && !PriceMissing(f.price) && f.stock.NotANumber?
    ensures r.Ok? <==>
      !AllSpace(f.name) && !AllSpace(f.slug) && !PriceMissing(f.price) && !f.stock.NotANumber?
    ensures r.Ok? ==>
      && r.value.name == Trim(f.name) && r.value.slug == ToLower(Trim(f.slug))
      && r.value.name != "" && r.value.slug != "" && !HasUpper(r.value.slug)
      && Some(r.value.price) == NumberOrZero(f.price) && r.value.price != 0
      && Some(r.value.stock) == NumberOrZero(f.stock)
      && r.value.imageUrl == Trim(f.imageUrl) && r.value.category == Trim(f.category)
      && r.value.description == Trim(f.description)
  {
    TrimBlank(f.name);
    ToLowerKeepsTrim(f.slug);
    var name := Trim(f.name);
    var slug := ToLower(Trim(f.slug));
    var price := NumberOrZero(f.price);
    var stock := NumberOrZero(f.stock);
    if name == "" || slug == "" || price == None || price == Some(0) then
      Err(BadRequest(MissingProductFields))
    else if stock.None? then
      Err(ServerError)
    else
      Ok(ProductDraft(name, slug, price.value, stock.value,
                      Trim(f.imageUrl), Trim(f.category), Trim(f.description)))
  }

  /** The submission that reproduces a draft field for field. */
  function DraftForm(d: ProductDraft): (f: ProductForm)
    ensures f.name == d.name && f.slug == d.slug && f.price == Num(d.price) && f.stock == Num(d.stock)
  {
    ProductForm(d.name, d.slug, Num(d.price), Num(d.stock), d.imageUrl, d.category, d.description)
  }

  /** Normalisation is idempotent: submitting an accepted draft again gives
      the same draft. */
  lemma NormalizeIdempotent(f: ProductForm)
    ensures Normalize(f).Ok? ==> Normalize(DraftForm(Normalize(f).value)) == Normalize(f)
  {
    if Normalize(f).Ok? {
      var d := Normalize(f).value;
      TrimIdempotent(f.name);
      TrimIdempotent(f.imageUrl);
      TrimIdempotent(f.category);
      TrimIdempotent(f.description);
      ToLowerKeepsTrim(f.slug);
      ToLowerIdempotent(Trim(f.slug));
      TrimBlank(d.name);
      TrimBlank(d.slug);
    }
  }
}
