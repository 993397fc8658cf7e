/**
 * server.js: the relay server. `/create-checkout-session` turns the cart
 * into payment line items and opens a hosted payment session that carries
 * the cart and customer as metadata; `/payment-success` places the
 * fulfilment order, built from that metadata and the shipping address the
 * payment page collected, only when the session has been paid.
 */
module RelayServer {
  import opened Wrappers
  import opened CartStore
  import opened Payment
  import opened Fulfilment
  import StripePrintful

  /** `metadata: { customer_info, cart_items }`; the JSON encoding is taken to round-trip exactly. */
  datatype Metadata = Metadata(customerInfo: CustomerInfo, cartItems: seq<Line>)

  /** The parameters of `stripe.checkout.sessions.create`. */
  datatype SessionParams = SessionParams(
    paymentMethodTypes: seq<string>,
    lineItems: seq<LineItem>,
    mode: string,
    successUrl: string,
    cancelUrl: string,
    customerEmail: string,
    allowedCountries: seq<string>,
    metadata: Metadata)

  datatype ResponseBody =
    | SessionCreated(id: string)
    | Confirmed(success: bool, message: string)
    | Failure(error: string)

  datatype Response = Response(status: int, body: ResponseBody)

  /** The product name the hosted payment page shows: `${item.name} (${item.size})`. */
  function LineTitle(line: Line): string
  {
    line.name + " (" + line.size + ")"
  }

  /** The session parameters built from a `{ items, customer }` request. */
  function CheckoutSessionParams(req: SessionRequest, origin: string): (p: SessionParams)
    ensures p.mode == "payment" && p.paymentMethodTypes == ["card"]
    ensures p.allowedCountries == ["US", "CA", "GB", "AU"]
    ensures |p.lineItems| == |req.items|
    ensures forall i :: 0 <= i < |req.items| ==>
      var item := req.items[i];
      p.lineItems[i] == LineItem("usd", item.name + " (" + item.size + ")", [item.image], RoundCents(item.price), 1)
    ensures p.customerEmail == req.customer.email
    ensures p.metadata.cartItems == req.items && p.metadata.customerInfo == req.customer
  {
    SessionParams(
      ["card"],
      LineItemsFor(req.items, LineTitle),
      "payment",
      origin + "/success.html?session_id={CHECKOUT_SESSION_ID}",
      origin + "/cancel.html",
      req.customer.email,
      AllowedCountries,
      Metadata(req.customer, req.items))
  }

  datatype CreateSessionResult = CreateSessionResult(params: SessionParams, response: Response)

  /**
   * `POST /create-checkout-session`. `created` is the identifier of the
   * session the payment provider opened, or `None` when that call failed.
   */
  function CreateCheckoutSession(req: SessionRequest, origin: string, created: Option<string>): (r: CreateSessionResult)
    ensures r.params == CheckoutSessionParams(req, origin)
    ensures r.response.status == 200 <==> created.Some?
    ensures created.Some? ==> r.response.body == SessionCreated(created.value)
    ensures created.None? ==> r.response == Response(500, Failure("Failed to create checkout session"))
  {
    var params := CheckoutSessionParams(req, origin);
    match created
    case Some(id) => CreateSessionResult(params, Response(200, SessionCreated(id)))
    case None => CreateSessionResult(params, Response(500, Failure("Failed to create checkout session")))
  }

  datatype Address = Address(line1: string, line2: Option<string>, city: string, state: string, country: string, postalCode: string)

  datatype ShippingDetails = ShippingDetails(name: string, address: Address)

  /** A retrieved checkout session: its id, payment status, metadata and collected shipping details. */
  datatype Session = Session(id: string, paymentStatus: string, metadata: Metadata, shipping: ShippingDetails)

  /**
   * The session the payment provider hands back for a session it opened
   * with `params`: it keeps the metadata and adds an id, a payment status
   * and the shipping details the shopper entered.
   */
  function StoredSession(params: SessionParams, id: string, status: string, shipping: ShippingDetails): Session
  {
    Session(id, status, params.metadata, shipping)
  }

  /** `shipping.address.line2 || ''` */
  function SecondLine(line2: Option<string>): (s: string)
    ensures line2.Some? ==> s == line2.value
    ensures line2.None? ==> s == ""
  {
    if line2.Some? && line2.value != "" then line2.value else ""
  }

  /** `createPrintfulOrder(session)`: the order body. */
  function OrderFromSession(session: Session): (o: Order)
    ensures o.externalId == session.id && o.shipping == StandardShipping
    ensures
      var a := session.shipping.address;
      o.recipient == Recipient(session.shipping.name, a.line1, Some(SecondLine(a.line2)),
                               a.city, a.state, a.country, a.postalCode)
    ensures |o.items| == |session.metadata.cartItems|
    ensures forall i :: 0 <= i < |o.items| ==>
      o.items[i] == OrderItem(session.metadata.cartItems[i].variantId, 1)
  {
    var a := session.shipping.address;
    Order(session.id, StandardShipping,
          Recipient(session.shipping.name, a.line1, Some(SecondLine(a.line2)), a.city, a.state, a.country, a.postalCode),
          OrderItems(session.metadata.cartItems))
  }

  /** The fulfilment order sent, if any, and the HTTP response. */
  datatype PaymentSuccessResult = PaymentSuccessResult(order: Option<Order>, response: Response)

  /**
   * `POST /payment-success`. `retrieved` is the session the payment
   * provider returned, or `None` when retrieval failed; `fulfilled` says
   * whether the fulfilment provider accepted the order.
   */
  function PaymentSuccess(retrieved: Option<Session>, fulfilled: bool): (r: PaymentSuccessResult)
    ensures r.order.Some? <==> retrieved.Some? && retrieved.value.paymentStatus == "paid"
    ensures r.order.Some? ==> r.order.value == OrderFromSession(retrieved.value)
    ensures r.response.status == 200 <==> r.order.Some? && fulfilled
    ensures r.response.status == 200 ==> r.response.body == Confirmed(true, "Order created successfully")
    ensures retrieved.Some? && retrieved.value.paymentStatus != "paid" ==>
      r.response == Response(400, Failure("Payment not completed"))
    ensures retrieved.None? || (r.order.Some? && !fulfilled) ==>
      r.response == Response(500, Failure("Failed to process payment"))
  {
    match retrieved
    case None =>
      PaymentSuccessResult(None, Response(500, Failure("Failed to process payment")))
    case Some(session) =>
      if session.paymentStatus == "paid" then
        var order := OrderFromSession(session);
        if fulfilled then
          PaymentSuccessResult(Some(order), Response(200, Confirmed(true, "Order created successfully")))
        else
          PaymentSuccessResult(Some(order), Response(500, Failure("Failed to process payment")))
      else
        PaymentSuccessResult(None, Response(400, Failure("Payment not completed")))
  }

  /**
   * End to end: once a session opened for a request has been paid, the
   * fulfilment order carries that session's id and asks for exactly the
   * request's cart lines, one unit each and in cart order; it has the same
   * items as the order the browser integration would build for that cart.
   */
  lemma PaidSessionOrdersCart(req: SessionRequest, origin: string, id: string, shipping: ShippingDetails, fulfilled: bool)
    ensures
      var session := StoredSession(CheckoutSessionParams(req, origin), id, "paid", shipping);
      var r := PaymentSuccess(Some(session), fulfilled);
      && r.order.Some?
      && r.order.value.externalId == id
      && r.order.value.items == OrderItems(req.items)
      && Units(r.order.value.items) == |req.items|
      && r.order.value.items == StripePrintful.OrderBody(id, req.customer, req.items).items
  {
    UnitsAreLines(req.items);
  }

  /** An unpaid session never produces a fulfilment order, whatever was in the cart. */
  lemma UnpaidSessionOrdersNothing(req: SessionRequest, origin: string, id: string, status: string,
                                   shipping: ShippingDetails, fulfilled: bool)
    requires status != "paid"
    ensures PaymentSuccess(Some(StoredSession(CheckoutSessionParams(req, origin), id, status, shipping)), fulfilled).order.None?
  {
  }

  /**
   * The session charges the cart total the shopper saw, in cents, when the
   * prices are whole cents; otherwise within half a cent per line.
   */
  lemma SessionChargesCartTotal(req: SessionRequest, origin: string)
    ensures
      var due := AmountDue(CheckoutSessionParams(req, origin).lineItems) as real;
      Total(req.items) * 100.0 - (|req.items| as real) / 2.0 <= due <= Total(req.items) * 100.0 + (|req.items| as real) / 2.0
    ensures (forall i :: 0 <= i < |req.items| ==> WholeCents(req.items[i].price)) ==>
      AmountDue(CheckoutSessionParams(req, origin).lineItems) as real == Total(req.items) * 100.0
  {
    AmountDueNearTotal(req.items, LineTitle);
    if forall i :: 0 <= i < |req.items| ==> WholeCents(req.items[i].price) {
      AmountDueIsTotal(req.items, LineTitle);
    }
  }
}
