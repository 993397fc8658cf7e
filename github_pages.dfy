/**
 * github-pages.js: the serverless front end. It keeps its own cart, whose
 * line names already carry the size, and on checkout redirects straight to
 * the hosted payment page with one line item per cart line.
 */
module GitHubPages {
  import opened Wrappers
  import opened Notices
  import opened CartStore
  import opened Payment
  import RelayServer

  /**
   * What `addToCart(button)` reads: the card heading, the button's
   * `data-price` (parsed), the selected size (`""` when none) and the
   * `src` of the card's `<img>` (`None` when the card has no image).
   */
  datatype AddButton = AddButton(productTitle: string, dataPrice: real, selectedSize: string, imageSrc: Option<string>)

  /** The line a click appends for image `src`: the name is `${productName} (${selectedSize})`. */
  function ButtonLine(b: AddButton, src: string): (line: Line)
    ensures line.name == b.productTitle + " (" + b.selectedSize + ")"
    ensures line.price == b.dataPrice && line.size == b.selectedSize && line.image == src
  {
    Line(None, None, None, b.productTitle + " (" + b.selectedSize + ")", b.selectedSize, b.dataPrice, src)
  }

  /** The line item title: the cart line's name as it is. */
  function PagesTitle(line: Line): string
  {
    line.name
  }

  /** The options of `stripe.redirectToCheckout`. */
  datatype RedirectRequest = RedirectRequest(
    lineItems: seq<LineItem>,
    mode: string,
    successUrl: string,
    cancelUrl: string,
    allowedCountries: seq<string>)

  /** How the redirect ended. */
  datatype RedirectOutcome =
    | Redirected      // the browser leaves for the hosted payment page
    | RedirectFailed  // `redirectToCheckout` returned an error
    | Threw           // building the request or the redirect threw

  /** The redirect requested, if any, and the notification shown, if any. */
  datatype Checkout = Checkout(request: Option<RedirectRequest>, notice: Option<Notice>)

  /**
   * The payment page shows the same product title for a line added here as
   * the relay server shows for a line of the same product and size added by
   * the other front ends.
   */
  lemma TitleMatchesRelay(b: AddButton, src: string, other: Line)
    requires other.name == b.productTitle && other.size == b.selectedSize
    ensures PagesTitle(ButtonLine(b, src)) == RelayServer.LineTitle(other)
  {
  }

  class GitHubPagesStripe {
    const cart: Cart

    ghost predicate Valid()
      reads cart
    {
      cart.Synced()
    }

    constructor ()
      ensures Valid() && fresh(cart) && cart.lines == []
    {
      cart := new Cart();
    }

    /**
     * `addToCart(button)`. A card without an `<img>` makes reading its
     * `src` throw after the size check: the cart is left as it was and
     * nothing is shown (`n` is `None`).
     */
    method AddToCart(b: AddButton) returns (n: Option<Notice>)
      requires Valid()
      modifies cart
      ensures Valid()
      ensures b.selectedSize == "" ==> n == Some(Toast(SelectSizeMessage, Error)) && unchanged(cart)
      ensures b.selectedSize != "" && b.imageSrc.None? ==> n.None? && unchanged(cart)
      ensures b.selectedSize != "" && b.imageSrc.Some? ==>
        && cart.lines == old(cart.lines) + [ButtonLine(b, b.imageSrc.value)]
        && n == Some(Added(b.productTitle, b.selectedSize))
    {
      if b.selectedSize == "" {
        return Some(Toast(SelectSizeMessage, Error));
      }
      if b.imageSrc.None? {
        return None;
      }
      cart.Push(ButtonLine(b, b.imageSrc.value));
      cart.UpdateCartDisplay();
      n := Some(Added(b.productTitle, b.selectedSize));
    }

    /** `removeFromCart(index)`: `splice(index, 1)`, then refresh the view. */
    method RemoveFromCart(index: int)
      requires Valid()
      modifies cart
      ensures Valid()
      ensures cart.lines == SpliceOne(old(cart.lines), index)
    {
      cart.Splice(index);
      cart.UpdateCartDisplay();
    }

    /**
     * `initiateCheckout`: an empty cart is refused with a notification and
     * no redirect; otherwise the hosted payment page is requested with one
     * line item per cart line, in order, and a failed redirect is reported.
     */
    function InitiateCheckout(origin: string, outcome: RedirectOutcome): (c: Checkout)
      reads cart
      ensures c.request.None? <==> cart.lines == []
      ensures cart.lines == [] ==> c.notice == Some(Toast(EmptyCartMessage, Error))
      ensures c.request.Some? ==>
        var r := c.request.value;
        && r.mode == "payment"
        && r.allowedCountries == ["US", "CA", "GB", "AU"]
        && |r.lineItems| == |cart.lines|
        && forall i :: 0 <= i < |cart.lines| ==>
             r.lineItems[i] == LineItem("usd", cart.lines[i].name, [cart.lines[i].image], RoundCents(cart.lines[i].price), 1)
      ensures c.request.Some? ==> (c.notice.None? <==> outcome.Redirected?)
      ensures c.request.Some? && !outcome.Redirected? ==> c.notice == Some(Toast("Checkout failed. Please try again.", Error))
    {
      if |cart.lines| == 0 then
        Checkout(None, Some(Toast(EmptyCartMessage, Error)))
      else
        var request := RedirectRequest(
          LineItemsFor(cart.lines, PagesTitle),
          "payment",
          origin + "/success.html",
          origin + "/cancel.html",
          AllowedCountries);
        match outcome
        case Redirected => Checkout(Some(request), None)
        case RedirectFailed => Checkout(Some(request), Some(Toast("Checkout failed. Please try again.", Error)))
        case Threw => Checkout(Some(request), Some(Toast("Checkout failed. Please try again.", Error)))
    }
  }
}
