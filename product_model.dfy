/** The Product schema: a store's catalogue entry with price (integer cents)
    and stock, and the unique index on (store, name). */
module ProductModel {
  import opened Common

  datatype Product = Product(
    name: string,
    description: string,
    price: int,
    priceDiscount: Option<int>,
    stock: int,
    store: StoreId)

  /** The schema's validators: a trimmed name of 3 to 100 characters, a
      non-empty trimmed description of at most 1000, a non-negative price, a
      discount (when there is one) strictly below the price, non-negative stock. */
  predicate ProductValid(p: Product)
  {
    && IsTrimmed(p.name) && 3 <= |p.name| <= 100
    && IsTrimmed(p.description) && 1 <= |p.description| <= 1000
    && p.price >= 0
    && DiscountValid(p.price, p.priceDiscount)
    && p.stock >= 0
  }

  /** The `priceDiscount` validator runs only when a discount is set. */
  predicate DiscountValid(price: int, discount: Option<int>)
  {
    discount.Some? ==> discount.value < price
  }

  /** The product a merchant submits, after Mongoose's setters: the text
      fields are trimmed and stock defaults to 0. */
  function NewProduct(name: string, description: string, price: int, discount: Option<int>,
                      stock: Option<int>, store: StoreId): (p: Product)
    ensures p.name == Trim(name) && p.description == Trim(description) && IsTrimmed(p.name)
    ensures p.stock == (if stock.Some? then stock.value else 0)
    ensures ProductValid(p) <==>
      3 <= |Trim(name)| <= 100 && 1 <= |Trim(description)| <= 1000 && price >= 0
      && DiscountValid(price, discount) && p.stock >= 0
  {
    TrimSpec(name);
    TrimSpec(description);
    Product(Trim(name), Trim(description), price, discount,
            if stock.Some? then stock.value else 0, store)
  }

  predicate CatalogValid(products: map<ProductId, Product>)
  {
    forall id :: id in products ==> ProductValid(products[id])
  }

  /** The unique index `{ store: 1, name: 1 }`: no two products of one store share a name. */
  predicate NamesUniquePerStore(products: map<ProductId, Product>)
  {
    forall a, b :: a in products && b in products && a != b ==>
      products[a].store != products[b].store || products[a].name != products[b].name
  }

  /** The MongoDB duplicate-key error, naming the clashing key. */
  datatype DuplicateKey = DuplicateKey(store: StoreId, name: string)

  /** Writing product `id` through the unique index: refused exactly when a
      different product of the same store already has that name. */
  function SaveProduct(products: map<ProductId, Product>, id: ProductId, p: Product): (r: Result<map<ProductId, Product>, DuplicateKey>)
    ensures r.Err? <==> exists b :: b in products && b != id && products[b].store == p.store && products[b].name == p.name
    ensures r.Err? ==> r.error == DuplicateKey(p.store, p.name)
    ensures r.Ok? ==> r.value == products[id := p]
    ensures r.Ok? && NamesUniquePerStore(products) ==> NamesUniquePerStore(r.value)
  {
    if exists b :: b in products && b != id && products[b].store == p.store && products[b].name == p.name then
      Err(DuplicateKey(p.store, p.name))
    else
      Ok(products[id := p])
  }
}
