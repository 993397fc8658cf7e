/**
 * printful-integration.js: a catalog-and-cart client for the fulfilment
 * provider. It loads the catalog (falling back to a static list), renders
 * each product's size selector with the variant prices as `data-price`,
 * appends a line per add-to-cart click, and builds order bodies from the
 * data it is given.
 */
module Printful {
  import opened Wrappers
  import opened Notices
  import opened Catalog
  import opened CartStore
  import opened Fulfilment
  import opened Payment
  import StripePrintful

  /** `loadStaticProducts`: four products in sizes S, M, L, XL, each size at the product's price. */
  function StaticProducts(): (r: seq<Product>)
    ensures |r| == 4
    ensures forall i, j :: 0 <= i < j < |r| ==> r[i].id != r[j].id
    ensures forall i :: 0 <= i < |r| ==>
      && SizeIds(r[i].variants) == StandardSizes
      && FlatPriced(r[i])
      && r[i].printfulId.None?
      && forall j :: 0 <= j < |r[i].variants| ==> r[i].variants[j].printfulVariantId.None?
  {
    [ Product(1, "Chaos Hoodie", 89.99, None, "https://via.placeholder.com/300x300/000000/FFFFFF?text=Hoodie",
        StaticVariants(89.99)),
      Product(2, "Insanity Tee", 39.99, None, "https://via.placeholder.com/300x300/000000/FFFFFF?text=T-Shirt",
        StaticVariants(39.99)),
      Product(3, "Madness Pants", 79.99, None, "https://via.placeholder.com/300x300/000000/FFFFFF?text=Pants",
        StaticVariants(79.99)),
      Product(4, "Psycho Jacket", 129.99, None, "https://via.placeholder.com/300x300/000000/FFFFFF?text=Jacket",
        StaticVariants(129.99)) ]
  }

  /** The four sizes of a static product, each at the product's price, without fulfilment references. */
  function StaticVariants(price: real): (vs: seq<Variant>)
    ensures SizeIds(vs) == StandardSizes
    ensures forall j :: 0 <= j < |vs| ==> vs[j].price == price && vs[j].printfulVariantId.None?
  {
    [ Variant("S", "Small", price, None), Variant("M", "Medium", price, None),
      Variant("L", "Large", price, None), Variant("XL", "X-Large", price, None) ]
  }

  /** An `<option>` of a product's size selector: its `value` and its `data-price`, if any. */
  datatype SizeOption = SizeOption(value: string, dataPrice: Option<real>)

  /** The options rendered into a product card: "Select Size" first, then one per variant. */
  function SizeOptions(p: Product): (opts: seq<SizeOption>)
  {
    [SizeOption("", None)] + seq(|p.variants|, i requires 0 <= i < |p.variants| => SizeOption(p.variants[i].id, Some(p.variants[i].price)))
  }

  /** A priced option the shopper can select stands for a variant of that id and price. */
  lemma OptionIsVariant(p: Product, size: string, price: real)
    requires SizeOption(size, Some(price)) in SizeOptions(p)
    ensures exists v :: v in p.variants && v.id == size && v.price == price
  {
  }

  /** `orderData` as given to `createOrder`. */
  datatype OrderData = OrderData(orderId: string, shipping: string, recipient: Recipient, items: seq<OrderItem>)

  /** `createOrder(orderData)`: the order body. */
  function CreateOrderBody(data: OrderData): (o: Order)
    ensures o.externalId == data.orderId
    ensures o.shipping == data.shipping && o.recipient == data.recipient && o.items == data.items
  {
    Order(data.orderId, data.shipping, data.recipient, data.items)
  }

  /**
   * Given the fields the Stripe integration uses, this client's order body
   * is the same as the one the Stripe integration builds for that cart.
   */
  lemma CreateOrderAgreesWithStripeIntegration(orderId: string, customer: CustomerInfo, lines: seq<Line>)
    ensures
      var recipient := Recipient(customer.firstname + " " + customer.lastname, customer.address, None,
                                 customer.city, customer.state, customer.country, customer.zip);
      CreateOrderBody(OrderData(orderId, StandardShipping, recipient, OrderItems(lines)))
        == StripePrintful.OrderBody(orderId, customer, lines)
  {
  }

  class PrintfulIntegration {
    var products: seq<Product>
    var cart: seq<Line>

    constructor ()
      ensures products == [] && cart == []
    {
      products := [];
      cart := [];
    }

    /** `loadProducts`: the fetched `result` (or nothing), and on any failure exactly the static list. */
    method LoadProducts(outcome: FetchOutcome)
      modifies this`products
      ensures outcome.FetchFailed? ==> products == StaticProducts()
      ensures outcome.Fetched? ==> products == outcome.result.GetOr([])
    {
      match outcome
      case FetchFailed =>
        LoadStaticProducts();
      case Fetched(result) =>
        products := result.GetOr([]);
    }

    method LoadStaticProducts()
      modifies this`products
      ensures products == StaticProducts()
    {
      products := StaticProducts();
    }

    /**
     * `addToCart(productId)` with the selected option's value and
     * `data-price` (the value is `""` when no size is selected). Once a
     * size is selected, the product must exist and the option must be one
     * its card rendered.
     */
    method AddToCart(productId: int, selectedSize: string, dataPrice: real) returns (n: Notice)
      requires selectedSize != "" ==>
        FindProduct(products, productId).Some?
        && SizeOption(selectedSize, Some(dataPrice)) in SizeOptions(FindProduct(products, productId).value)
      modifies this`cart
      ensures selectedSize == "" ==> n == Alert(SelectSizeMessage) && cart == old(cart)
      ensures selectedSize != "" ==>
        var p := FindProduct(products, productId).value;
        && cart == old(cart) + [Line(Some(productId), None, None, p.name, selectedSize, dataPrice, p.image)]
        && (exists v :: v in p.variants && v.id == selectedSize && v.price == cart[|cart| - 1].price)
        && n == Added(p.name, selectedSize)
    {
      if selectedSize == "" {
        return Alert(SelectSizeMessage);
      }
      var product := FindProduct(products, productId).value;
      OptionIsVariant(product, selectedSize, dataPrice);
      cart := cart + [Line(Some(productId), None, None, product.name, selectedSize, dataPrice, product.image)];
      n := Added(product.name, selectedSize);
    }
  }
}
