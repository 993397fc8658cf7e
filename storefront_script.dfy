/**
 * script.js: the page-wide cart (`let cart`, `let cartTotal`) driven by
 * click handlers on the rendered product cards, the checkout button, and
 * the contact and newsletter forms. The page-wide cart is the `Cart`
 * object handed to each handler; its `total` is `cartTotal`.
 */
module StorefrontScript {
  import opened Wrappers
  import opened Notices
  import opened CartStore

  /**
   * What the add-to-cart handler reads from the clicked product card: the
   * heading text, the price shown on the card (already parsed from its
   * `$` text), the selected size (`""` when none) and the card image's
   * `src`, if the card has an image.
   */
  datatype ProductCard = ProductCard(title: string, shownPrice: real, selectedSize: string, imageSrc: Option<string>)

  const PlaceholderImage := "https://via.placeholder.com/300x300/000000/FFFFFF?text=Product"

  /** `productCard.querySelector('img')?.src || placeholder` */
  function CardImage(src: Option<string>): (image: string)
    ensures src.Some? && src.value != "" ==> image == src.value
    ensures src.None? || src.value == "" ==> image == PlaceholderImage
  {
    if src.Some? && src.value != "" then src.value else PlaceholderImage
  }

  /** The add-to-cart click handler. */
  method OnAddToCart(cart: Cart, card: ProductCard) returns (n: Notice)
    requires cart.Synced()
    modifies cart
    ensures cart.Synced()
    ensures card.selectedSize == "" ==> n == Toast(SelectSizeMessage, Error) && unchanged(cart)
    ensures card.selectedSize != "" ==>
      && cart.lines == old(cart.lines)
           + [Line(None, None, None, card.title, card.selectedSize, card.shownPrice, CardImage(card.imageSrc))]
      && n == Added(card.title, card.selectedSize)
  {
    if card.selectedSize == "" {
      return Toast(SelectSizeMessage, Error);
    }
    var item := Line(None, None, None, card.title, card.selectedSize, card.shownPrice, CardImage(card.imageSrc));
    cart.Push(item);
    cart.UpdateCartDisplay();
    n := Added(card.title, card.selectedSize);
  }

  /** `removeFromCart(index)`: `cart.splice(index, 1)`, then refresh the view. */
  method RemoveFromCart(cart: Cart, index: int)
    modifies cart
    ensures cart.Synced()
    ensures cart.lines == SpliceOne(old(cart.lines), index)
  {
    cart.Splice(index);
    cart.UpdateCartDisplay();
  }

  /** What the checkout button does. */
  datatype CheckoutClick = Refused(notice: Notice) | ShowTotal(cartTotal: real)

  /**
   * The checkout click handler: an empty cart is refused with an error
   * notification and no total alert; otherwise an alert shows `cartTotal`,
   * which is the sum of the line prices whenever the view is up to date.
   */
  function OnCheckout(cart: Cart): (click: CheckoutClick)
    reads cart
    ensures click.Refused? <==> cart.lines == []
    ensures click.Refused? ==> click.notice == Toast(EmptyCartMessage, Error)
    ensures cart.Synced() && click.ShowTotal? ==> click.cartTotal == Total(cart.lines)
  {
    if |cart.lines| == 0 then Refused(Toast(EmptyCartMessage, Error)) else ShowTotal(cart.total)
  }

  /** The result of submitting a form: rejected, or accepted and the form reset. */
  datatype FormResult = Rejected(notice: Notice) | Accepted(notice: Notice)

  /** The contact form is accepted only when name, email and message are all filled in. */
  function SubmitContact(name: string, email: string, message: string): (r: FormResult)
    ensures r.Accepted? <==> name != "" && email != "" && message != ""
    ensures r.Rejected? ==> r.notice == Toast("Please fill in all fields", Error)
    ensures r.Accepted? ==> r.notice.Toast? && r.notice.kind == Success
  {
    if name == "" || email == "" || message == "" then
      Rejected(Toast("Please fill in all fields", Error))
    else
      Accepted(Toast("Message sent successfully! We'll get back to you soon.", Success))
  }

  /** The newsletter form is accepted exactly when an email address was entered. */
  function SubscribeNewsletter(email: string): (r: FormResult)
    ensures r.Accepted? <==> email != ""
    ensures r.Rejected? ==> r.notice == Toast("Please enter your email address", Error)
    ensures r.Accepted? ==> r.notice.Toast? && r.notice.kind == Success
  {
    if email == "" then
      Rejected(Toast("Please enter your email address", Error))
    else
      Accepted(Toast("Thanks for subscribing! You'll receive updates about our latest drops.", Success))
  }

  /**
   * The scenario of a Tee at 39.99 and a Hoodie at 89.99 added to an empty
   * page cart: the view shows a total of 129.98 and a count of 2.
   */
  method TwoItemScenario() returns (cart: Cart)
    ensures cart.Synced() && cart.total == 129.98 && cart.count == 2
  {
    cart := new Cart();
    var _ := OnAddToCart(cart, ProductCard("Tee", 39.99, "M", None));
    var _ := OnAddToCart(cart, ProductCard("Hoodie", 89.99, "L", None));
  }
}
