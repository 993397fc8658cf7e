/**
 * The payment provider's side of checkout: the conversion of a price to
 * minor currency units, the line items a hosted payment page is given (one
 * per cart line, quantity one), and the request a front end sends to the
 * relay server to open a payment session.
 */
module Payment {
  import opened CartStore

  /**
   * `Math.round(price * 100)`: the nearest whole number of cents, halves
   * rounded up. Prices are exact here, so this is `floor(price * 100 + 1/2)`.
   */
  function RoundCents(price: real): (cents: int)
    ensures price * 100.0 - 0.5 < cents as real <= price * 100.0 + 0.5
  {
    (price * 100.0 + 0.5).Floor
  }

  /** The price is a whole number of cents. */
  predicate WholeCents(price: real)
  {
    (price * 100.0).Floor as real == price * 100.0
  }

  /** Rounding never changes a price that is already a whole number of cents. */
  lemma RoundWholeCents(price: real)
    requires WholeCents(price)
    ensures RoundCents(price) as real == price * 100.0
  {
    var n := (price * 100.0).Floor;
    var f := RoundCents(price);
    assert n as real - 0.5 < f as real <= n as real + 0.5;
    assert n - 1 < f < n + 1;
  }

  /** Rounding is monotone: a dearer line is never charged fewer cents. */
  lemma RoundMonotone(a: real, b: real)
    requires a <= b
    ensures RoundCents(a) <= RoundCents(b)
  {
  }

  const Currency := "usd"
  const AllowedCountries: seq<string> := ["US", "CA", "GB", "AU"]

  /** `{ price_data: { currency, product_data: { name, images }, unit_amount }, quantity }` */
  datatype LineItem = LineItem(currency: string, name: string, images: seq<string>, unitAmount: int, quantity: int)

  /**
   * `cart.map(item => ...)` into payment line items, in cart order; the
   * front ends differ only in the product name shown (`title`).
   */
  function LineItemsFor(lines: seq<Line>, title: Line -> string): (items: seq<LineItem>)
    ensures |items| == |lines|
    ensures forall i :: 0 <= i < |lines| ==>
      items[i] == LineItem(Currency, title(lines[i]), [lines[i].image], RoundCents(lines[i].price), 1)
  {
    if lines == [] then []
    else [LineItem(Currency, title(lines[0]), [lines[0].image], RoundCents(lines[0].price), 1)]
         + LineItemsFor(lines[1..], title)
  }

  lemma {:induction false} LineItemsAppend(a: seq<Line>, b: seq<Line>, title: Line -> string)
    ensures LineItemsFor(a + b, title) == LineItemsFor(a, title) + LineItemsFor(b, title)
  {
    if a == [] {
      assert a + b == b;
    } else {
      assert (a + b)[1..] == a[1..] + b;
      LineItemsAppend(a[1..], b, title);
    }
  }

  /** What the payment page charges: the sum of unit amount times quantity. */
  function AmountDue(items: seq<LineItem>): int
  {
    if items == [] then 0
    else AmountDue(items[..|items| - 1]) + items[|items| - 1].unitAmount * items[|items| - 1].quantity
  }

  /**
   * When every price is a whole number of cents, the amount charged is
   * exactly the cart total the shopper was shown, in cents.
   */
  lemma {:induction false} AmountDueIsTotal(lines: seq<Line>, title: Line -> string)
    requires forall i :: 0 <= i < |lines| ==> WholeCents(lines[i].price)
    ensures AmountDue(LineItemsFor(lines, title)) as real == Total(lines) * 100.0
  {
    if lines != [] {
      var init, last := lines[..|lines| - 1], lines[|lines| - 1];
      assert lines == init + [last];
      LineItemsAppend(init, [last], title);
      var items := LineItemsFor(lines, title);
      assert items[..|items| - 1] == LineItemsFor(init, title);
      AmountDueIsTotal(init, title);
      RoundWholeCents(last.price);
    }
  }

  /**
   * Whatever the prices, the amount charged differs from the displayed total
   * by at most half a cent per line.
   */
  lemma {:induction false} AmountDueNearTotal(lines: seq<Line>, title: Line -> string)
    ensures Total(lines) * 100.0 - (|lines| as real) / 2.0 <= AmountDue(LineItemsFor(lines, title)) as real
    ensures AmountDue(LineItemsFor(lines, title)) as real <= Total(lines) * 100.0 + (|lines| as real) / 2.0
  {
    if lines != [] {
      var init, last := lines[..|lines| - 1], lines[|lines| - 1];
      assert lines == init + [last];
      LineItemsAppend(init, [last], title);
      var items := LineItemsFor(lines, title);
      assert items[..|items| - 1] == LineItemsFor(init, title);
      AmountDueNearTotal(init, title);
    }
  }

  /** Customer details collected by the checkout form. */
  datatype CustomerInfo = CustomerInfo(
    email: string,
    firstname: string,
    lastname: string,
    address: string,
    city: string,
    state: string,
    zip: string,
    country: string)

  /** The body of the request to the relay's `/create-checkout-session`: `{ items, customer }`. */
  datatype SessionRequest = SessionRequest(items: seq<Line>, customer: CustomerInfo)
}
