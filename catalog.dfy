/**
 * The product catalog: products with size variants, the first-match lookups
 * the front ends use (`Array.prototype.find`), and the outcome of loading
 * the catalog from the fulfilment provider with a static fallback.
 */
module Catalog {
  import opened Wrappers

  /** A size of a product. `printfulVariantId` is the fulfilment provider's variant reference, where the catalog has one. */
  datatype Variant = Variant(id: string, name: string, price: real, printfulVariantId: Option<string>)

  datatype Product = Product(
    id: int,
    name: string,
    price: real,
    printfulId: Option<string>,
    image: string,
    variants: seq<Variant>)

  /** Position of the first element that `matches`, or `|s|` when there is none. */
  function FirstIndex<T>(s: seq<T>, matches: T -> bool): (k: nat)
    ensures k <= |s|
    ensures k < |s| ==> matches(s[k])
    ensures forall j :: 0 <= j < k ==> !matches(s[j])
  {
    if s == [] then 0
    else if matches(s[0]) then 0
    else 1 + FirstIndex(s[1..], matches)
  }

  /** `Array.prototype.find`: the first element that `matches`, if any. */
  function Find<T>(s: seq<T>, matches: T -> bool): (r: Option<T>)
    ensures r.Some? ==> r.value in s && matches(r.value)
    ensures r.Some? ==> exists k :: 0 <= k < |s| && s[k] == r.value && forall j :: 0 <= j < k ==> !matches(s[j])
    ensures r.None? <==> forall j :: 0 <= j < |s| ==> !matches(s[j])
  {
    var k := FirstIndex(s, matches);
    if k < |s| then Some(s[k]) else None
  }

  /** `products.find(p => p.id == productId)` */
  function FindProduct(products: seq<Product>, productId: int): (r: Option<Product>)
    ensures r.Some? ==> r.value in products && r.value.id == productId
    ensures r.Some? ==> exists k :: 0 <= k < |products| && products[k] == r.value
                                    && forall j :: 0 <= j < k ==> products[j].id != productId
    ensures r.None? <==> forall j :: 0 <= j < |products| ==> products[j].id != productId
  {
    Find(products, (p: Product) => p.id == productId)
  }

  /** `product.variants.find(v => v.id === size)` */
  function FindVariant(product: Product, size: string): (r: Option<Variant>)
    ensures r.Some? ==> r.value in product.variants && r.value.id == size
    ensures r.Some? ==> exists k :: 0 <= k < |product.variants| && product.variants[k] == r.value
                                    && forall j :: 0 <= j < k ==> product.variants[j].id != size
    ensures r.None? <==> forall j :: 0 <= j < |product.variants| ==> product.variants[j].id != size
  {
    Find(product.variants, (v: Variant) => v.id == size)
  }

  /** The product has a variant of the given size. */
  predicate Offers(products: seq<Product>, productId: int, size: string)
  {
    FindProduct(products, productId).Some? && FindVariant(FindProduct(products, productId).value, size).Some?
  }

  /** The size labels of a product, in catalog order. */
  function SizeIds(vs: seq<Variant>): (ids: seq<string>)
    ensures |ids| == |vs|
    ensures forall i :: 0 <= i < |vs| ==> ids[i] == vs[i].id
  {
    if vs == [] then [] else [vs[0].id] + SizeIds(vs[1..])
  }

  const StandardSizes: seq<string> := ["S", "M", "L", "XL"]

  /** Every variant of the product costs the product's base price. */
  predicate FlatPriced(p: Product)
  {
    forall i :: 0 <= i < |p.variants| ==> p.variants[i].price == p.price
  }

  /**
   * Outcome of the catalog load: the request to the fulfilment provider and
   * the rendering of what it returned, both inside one `try`.
   */
  datatype FetchOutcome =
    | FetchFailed                            // network error, non-ok status, unreadable body, or rendering the fetched catalog threw
    | Fetched(result: Option<seq<Product>>)  // the body's `result` field, if present, rendered without error
}
