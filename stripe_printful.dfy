/**
 * stripe-printful.js: the browser integration that keeps its own cart,
 * loads the catalog from the fulfilment provider (falling back to a demo
 * catalog), collects customer details, asks the relay server for a payment
 * session, and builds the fulfilment order body from the cart.
 */
module StripePrintful {
  import opened Wrappers
  import opened Notices
  import opened Catalog
  import opened CartStore
  import opened Payment
  import opened Fulfilment

  /** `loadDemoProducts`: two products in sizes S, M, L, XL, each size at the product's price. */
  function DemoProducts(): (r: seq<Product>)
    ensures |r| == 2 && r[0].id != r[1].id
    ensures forall i :: 0 <= i < |r| ==>
      && SizeIds(r[i].variants) == StandardSizes
      && FlatPriced(r[i])
      && r[i].printfulId.Some?
      && forall j :: 0 <= j < |r[i].variants| ==> r[i].variants[j].printfulVariantId.Some?
  {
    [ Product(1, "Chaos Hoodie", 89.99, Some("demo_hoodie"),
        "https://via.placeholder.com/300x300/000000/FFFFFF?text=Hoodie",
        [ Variant("S", "Small", 89.99, Some("hoodie_s")),
          Variant("M", "Medium", 89.99, Some("hoodie_m")),
          Variant("L", "Large", 89.99, Some("hoodie_l")),
          Variant("XL", "X-Large", 89.99, Some("hoodie_xl")) ]),
      Product(2, "Insanity Tee", 39.99, Some("demo_tee"),
        "https://via.placeholder.com/300x300/000000/FFFFFF?text=T-Shirt",
        [ Variant("S", "Small", 39.99, Some("tee_s")),
          Variant("M", "Medium", 39.99, Some("tee_m")),
          Variant("L", "Large", 39.99, Some("tee_l")),
          Variant("XL", "X-Large", 39.99, Some("tee_xl")) ]) ]
  }

  /** `customerInfo` before the checkout form has been submitted (`{}`). */
  const NoCustomer := CustomerInfo("", "", "", "", "", "", "", "")

  /** What `initiateCheckout` does. */
  datatype CheckoutStep = Refused(notice: Notice) | ShowCustomerForm

  /** How the session request and the redirect to the hosted payment page ended. */
  datatype PaymentOutcome =
    | Redirected      // the browser leaves for the hosted payment page
    | RedirectFailed  // `redirectToCheckout` returned an error
    | RequestFailed   // the relay request or the redirect threw

  /**
   * `createPrintfulOrder(orderData)`: the order body built from the stored
   * customer details and the cart.
   */
  function OrderBody(orderId: string, customer: CustomerInfo, lines: seq<Line>): (o: Order)
    ensures o.externalId == orderId && o.shipping == StandardShipping
    ensures o.recipient == Recipient(customer.firstname + " " + customer.lastname, customer.address, None,
                                     customer.city, customer.state, customer.country, customer.zip)
    ensures |o.items| == |lines|
    ensures forall i :: 0 <= i < |lines| ==> o.items[i].variantId == lines[i].variantId && o.items[i].quantity == 1
  {
    Order(orderId, StandardShipping,
          Recipient(customer.firstname + " " + customer.lastname, customer.address, None,
                    customer.city, customer.state, customer.country, customer.zip),
          OrderItems(lines))
  }

  class StripePrintfulIntegration {
    const cart: Cart
    /** `this.products`: `None` while it is still `undefined`, until the catalog load settles. */
    var products: Option<seq<Product>>
    var customerInfo: CustomerInfo

    /** The cart view shows the cart's total and count. */
    ghost predicate Valid()
      reads cart
    {
      cart.Synced()
    }

    /**
     * The constructor never assigns `this.products`: it starts `init()`,
     * whose catalog load sets it only once the request has settled.
     */
    constructor ()
      ensures Valid() && fresh(cart)
      ensures cart.lines == [] && products.None? && customerInfo == NoCustomer
    {
      cart := new Cart();
      products := None;
      customerInfo := NoCustomer;
    }

    /** `loadPrintfulProducts`: the fetched `result` (or nothing), and on any failure the demo catalog. */
    method LoadPrintfulProducts(outcome: FetchOutcome)
      modifies this`products
      ensures outcome.FetchFailed? ==> products == Some(DemoProducts())
      ensures outcome.Fetched? ==> products == Some(outcome.result.GetOr([]))
    {
      match outcome
      case FetchFailed =>
        LoadDemoProducts();
      case Fetched(result) =>
        products := Some(result.GetOr([]));
    }

    method LoadDemoProducts()
      modifies this`products
      ensures products == Some(DemoProducts())
    {
      products := Some(DemoProducts());
    }

    /**
     * `addToCart(productId)` with the size currently selected in that
     * product's size selector (`""` when none is). Before the catalog has
     * loaded, `this.products.find` throws: nothing changes and nothing is
     * shown (`n` is `None`). Once a size is selected, the product must
     * exist and offer the size: the source dereferences both lookups
     * without a check.
     */
    method AddToCart(productId: int, selectedSize: string) returns (n: Option<Notice>)
      requires Valid()
      requires products.Some? && selectedSize != "" ==> Offers(products.value, productId, selectedSize)
      modifies cart
      ensures Valid()
      ensures products.None? ==> n.None? && unchanged(cart)
      ensures products.Some? && selectedSize == "" ==> n == Some(Toast(SelectSizeMessage, Error)) && unchanged(cart)
      ensures products.Some? && selectedSize != "" ==>
        var p := FindProduct(products.value, productId).value;
        var v := FindVariant(p, selectedSize).value;
        && cart.lines == old(cart.lines)
             + [Line(Some(productId), p.printfulId, v.printfulVariantId, p.name, selectedSize, v.price, p.image)]
        && n == Some(Added(p.name, selectedSize))
    {
      if products.None? {
        return None;
      }
      if selectedSize == "" {
        return Some(Toast(SelectSizeMessage, Error));
      }
      var product := FindProduct(products.value, productId).value;
      var variant := FindVariant(product, selectedSize).value;
      var item := Line(Some(productId), product.printfulId, variant.printfulVariantId,
                       product.name, selectedSize, variant.price, product.image);
      cart.Push(item);
      cart.UpdateCartDisplay();
      n := Some(Added(product.name, selectedSize));
    }

    /** `removeFromCart(index)`: `splice(index, 1)`, then refresh the view. */
    method RemoveFromCart(index: int)
      requires Valid()
      modifies cart
      ensures Valid()
      ensures cart.lines == SpliceOne(old(cart.lines), index)
    {
      cart.Splice(index);
      cart.UpdateCartDisplay();
    }

    /** `initiateCheckout`: an empty cart is refused with a notification; otherwise the customer form opens. */
    function InitiateCheckout(): (step: CheckoutStep)
      reads cart
      ensures step.Refused? <==> cart.lines == []
      ensures step.Refused? ==> step.notice == Toast(EmptyCartMessage, Error)
    {
      if |cart.lines| == 0 then Refused(Toast(EmptyCartMessage, Error)) else ShowCustomerForm
    }

    /**
     * `processPayment` on submission of the customer form: the details are
     * stored, `{ items: cart, customer }` is sent to the relay, and a
     * failure is reported to the shopper. The cart is left as it was so
     * the shopper may retry.
     */
    method ProcessPayment(form: CustomerInfo, outcome: PaymentOutcome) returns (sent: SessionRequest, n: Option<Notice>)
      modifies this`customerInfo
      ensures customerInfo == form
      ensures sent.items == cart.lines && sent.customer == form
      ensures n.None? <==> outcome.Redirected?
      ensures outcome.RedirectFailed? ==> n == Some(Toast("Payment failed. Please try again.", Error))
      ensures outcome.RequestFailed? ==> n == Some(Toast("Payment processing failed. Please try again.", Error))
    {
      customerInfo := form;
      sent := SessionRequest(cart.lines, customerInfo);
      match outcome
      case Redirected =>
        n := None;
      case RedirectFailed =>
        n := Some(Toast("Payment failed. Please try again.", Error));
      case RequestFailed =>
        n := Some(Toast("Payment processing failed. Please try again.", Error));
    }
  }

  /**
   * Adding the same product and size twice gives two equal, separate lines:
   * quantities are never merged.
   */
  method AddSameSizeTwice(s: StripePrintfulIntegration, productId: int, size: string)
    requires s.Valid() && s.products.Some? && size != "" && Offers(s.products.value, productId, size)
    modifies s.cart
    ensures s.Valid()
    ensures |s.cart.lines| == |old(s.cart.lines)| + 2 && s.cart.count == old(s.cart.count) + 2
    ensures s.cart.lines[..|old(s.cart.lines)|] == old(s.cart.lines)
    ensures s.cart.lines[|s.cart.lines| - 1] == s.cart.lines[|s.cart.lines| - 2]
  {
    var _ := s.AddToCart(productId, size);
    var _ := s.AddToCart(productId, size);
  }
}
