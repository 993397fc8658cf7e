# Storefront cart and checkout handoff, modelled in Dafny

This project models the cart and checkout logic of a small clothing
storefront. The storefront has a product catalog with size variants and a
client-side cart. At checkout it hands off to a hosted payment page and,
once payment is confirmed, to a print-on-demand fulfilment provider. The
repository implements the same flow five times, with small differences:

- `stripe-printful.js` is a browser class that keeps a cart and loads the catalog from the fulfilment provider, falling back to a demo catalog. It collects customer details, asks a relay server for a payment session and builds fulfilment orders.
- `script.js` is the page script. It keeps a page-wide `cart` and `cartTotal` and handles add-to-cart, remove and checkout clicks. It also validates the contact and newsletter forms.
- `server.js` is the relay server. It maps cart lines to payment line items and opens the session. After payment it places the fulfilment order, but only for a session that has been paid.
- `printful-integration.js` is a catalog-and-cart client for the fulfilment provider. It has a static fallback catalog.
- `github-pages.js` is a serverless front end that redirects straight to the hosted payment page.

Modules:

- `CartStore` holds the shared cart. A `Cart` object has its `lines` and the `total` and `count` the cart view last showed. Lines change only by `Push` (`Array.prototype.push`) and `Splice` (`splice(i, 1)`, modelled exactly, negative starts included). `UpdateCartDisplay` is the recompute loop. After it runs, `Synced()` holds: the shown total is the sum of the prices and the shown count is the number of lines.
- `Catalog` holds products and variants, the first-match lookups (`find`) and the catalog fetch outcome.
- `Payment` holds the price-to-cents rounding (`Math.round(price * 100)`), the payment line items, the customer details and the relay request.
- `Fulfilment` holds the fulfilment order and its one-unit-per-line items.
- `StripePrintful`, `StorefrontScript`, `RelayServer`, `Printful` and `GitHubPages` model the five source files, one module each. A class whose source updates fields keeps them as Dafny fields, and its methods carry `modifies` clauses. The methods of `StripePrintfulIntegration` and `GitHubPagesStripe` also preserve `Valid()`, meaning the view is in sync with the cart. `PrintfulIntegration` has no cart view and keeps its cart as a plain `seq<Line>` field. Pure payload builders are functions.

Prices are exact reals in dollars, so `Math.round(x)` is `floor(x + 1/2)`. Calls to the network, the payment provider and the fulfilment provider are not modelled as behaviour. Each one becomes a parameter that carries its outcome: success with a value, or failure. The shopper's notifications are returned as `Notice` values.

Two details of the code that the model keeps:

- `removeFromCart` passes its index straight to `splice(index, 1)`. A start from `-len` to `-1` removes the line counted from the end, a start below `-len` removes the first line, and a start at or past the end changes nothing. On an empty cart every start changes nothing. `SpliceOne` models all of these cases.
- The relay server's order carries `address2: line2 || ''`. The browser integration's order has no `address2` field.

## Model

| member | source | states |
|---|---|---|
| CartStore.SpliceStart | stripe-printful.js:219 | Where `splice(start, 1)` acts: at the start itself when it is within the array; past the end, clamped to the length; when negative, counted back from the end and clamped at 0 |
| CartStore.SpliceOne | stripe-printful.js:219 | With `0 <= i < len`, removes exactly line `i`: one line fewer, the lines before `i` unchanged, later lines shifted down one in order, and the multiset loses exactly `s[i]`. With `-len <= i < 0`, removes exactly line `len + i`, counted from the end. With `i < -len` on a non-empty cart, removes the first line. With `i >= len`, the cart is unchanged. On an empty cart every start leaves it unchanged |
| CartStore.TotalAppend | stripe-printful.js:194-197 | The total of two carts placed one after the other is the sum of their totals |
| CartStore.TotalAfterRemove | stripe-printful.js:218-221 | Removing line `i` lowers the sum of prices by exactly that line's price |
| CartStore.TotalAfterPush | stripe-printful.js:173-174 | Appending a line raises the sum of prices by exactly its price |
| CartStore.Cart.constructor | script.js:31-32 | A new cart is empty, with total 0 and count 0, and is in sync |
| CartStore.Cart.Push | stripe-printful.js:173 | Appends exactly one line at the end. Earlier lines and the displayed total and count are untouched |
| CartStore.Cart.Splice | stripe-printful.js:219 | The lines become `SpliceOne(old lines, start)`. The displayed values are untouched until the next refresh |
| CartStore.Cart.UpdateCartDisplay | stripe-printful.js:193-214 | The loop resets the total to 0 and adds each line's price in order. Afterwards the shown total is the sum of all line prices and the count is the cart length. The lines are unchanged. The copies at script.js:60-81 and github-pages.js:71-91 are the same loop |
| Catalog.FirstIndex | stripe-printful.js:152 | The index of the first matching element, or the length when none matches. Every earlier element fails to match |
| Catalog.Find | stripe-printful.js:152 | `Array.prototype.find`: the result is an element of the array that matches, with no earlier match. It is absent exactly when no element matches |
| Catalog.FindProduct | stripe-printful.js:152 | The product found has the requested id, with no earlier match: it is the first product with that id. It is absent exactly when no product has that id |
| Catalog.FindVariant | stripe-printful.js:161 | The variant found belongs to the product and has the requested size id, with no earlier match: it is the first variant with that id. It is absent exactly when no variant has that id |
| Catalog.SizeIds | printful-integration.js:56-61 | The size labels of a variant list, one per variant, in order |
| Payment.RoundCents | server.js:33 | `Math.round(price*100)` is the integer within half a cent of `price*100`, with halves rounded up. It rounds and does not truncate |
| Payment.RoundWholeCents | server.js:33 | A price that is already a whole number of cents converts to exactly `price*100` |
| Payment.RoundMonotone | github-pages.js:114 | A dearer line is never charged fewer cents |
| Payment.LineItemsFor | server.js:26-36 | One line item per cart line, in cart order: currency `usd`, the front end's title, images exactly `[image]`, `unit_amount = Math.round(price*100)`, quantity 1 |
| Payment.LineItemsAppend | github-pages.js:107-117 | Mapping a cart made of two parts gives the two parts' line items one after the other |
| Payment.AmountDueIsTotal | server.js:23-36 | When every price is a whole number of cents, the amount charged (the sum of unit amount times quantity) equals the displayed cart total in cents |
| Payment.AmountDueNearTotal | server.js:23-36 | For any prices, the amount charged is within half a cent per line of the cart total in cents |
| Fulfilment.OrderItems | server.js:108-111 | One `{variant_id: item.variantId, quantity: 1}` per cart line, in cart order |
| Fulfilment.UnitsAreLines | server.js:108-111 | An order asks for exactly as many units as there are cart lines |
| Fulfilment.OrderItemsAfterRemove | stripe-printful.js:367-370 | For any index, negative or out of range included, `splice(index, 1)` on the cart and then building the items gives the same items as building them and then splicing: removing a cart line removes exactly its order item |
| Fulfilment.OrderItemsAfterPush | stripe-printful.js:367-370 | Adding a cart line adds exactly one item, with that line's variant id, at the end of the order |
| StripePrintful.DemoProducts | stripe-printful.js:60-90 | The demo catalog has two products with distinct ids. Each has sizes exactly `S, M, L, XL`, each size at the product's base price, with fulfilment product and variant references |
| StripePrintful.OrderBody | stripe-printful.js:348-371 | The order has `external_id = orderId` and shipping `STANDARD`. The recipient name is `firstname + " " + lastname` and the address fields come from the customer details, with no `address2`. There is one item per cart line, in order, with `variant_id = line.variantId` and quantity 1 |
| StripePrintful.StripePrintfulIntegration.constructor | stripe-printful.js:5-16 | Starts with an empty cart, in sync, and no customer details. `this.products` is not assigned: it stays undefined until the catalog load settles |
| StripePrintful.StripePrintfulIntegration.LoadPrintfulProducts | stripe-printful.js:36-57 | On success the products become the fetched `result`, or `[]` when it is absent. On any failure they become exactly the demo catalog |
| StripePrintful.StripePrintfulIntegration.LoadDemoProducts | stripe-printful.js:60-90 | The products become the demo catalog |
| StripePrintful.StripePrintfulIntegration.AddToCart | stripe-printful.js:151-176 | Before the catalog has loaded, `this.products.find` throws: the cart is unchanged and nothing is notified, even with no size selected. With no size selected, the cart and view are unchanged and only an error is notified. Otherwise exactly one line is appended with earlier lines untouched. Its price and `variantId` come from the chosen variant, and its name, image and `printfulId` from the product. The view is back in sync |
| StripePrintful.StripePrintfulIntegration.RemoveFromCart | stripe-printful.js:218-221 | The lines become `splice(index, 1)` of the old lines, and the view is in sync |
| StripePrintful.StripePrintfulIntegration.InitiateCheckout | stripe-printful.js:224-232 | An empty cart is refused with the "Your cart is empty" error and nothing else. Otherwise the customer form opens |
| StripePrintful.StripePrintfulIntegration.ProcessPayment | stripe-printful.js:304-345 | Stores the submitted customer details. Sends `{items: cart, customer}`. Notifies exactly when the redirect fails or the request throws. The cart is left intact |
| StripePrintful.AddSameSizeTwice | stripe-printful.js:163-174 | Adding the same product and size twice gives two equal, separate lines. The count grows by two and quantities are not merged |
| StorefrontScript.CardImage | script.js:108 | The card image's `src` when present and non-empty, otherwise the placeholder URL |
| StorefrontScript.OnAddToCart | script.js:91-126 | With an empty size, the cart is unchanged and an error is notified. Otherwise one `{name, size, price, image}` line is appended, `cartTotal` is recomputed and the view is in sync |
| StorefrontScript.RemoveFromCart | script.js:85-88 | `splice(index, 1)` of the page cart, followed by a recompute |
| StorefrontScript.OnCheckout | script.js:129-137 | An empty cart shows an error and no total alert. Otherwise the alert shows `cartTotal`, which is the sum of the line prices when the view is in sync |
| StorefrontScript.SubmitContact | script.js:142-159 | Accepted exactly when name, email and message are all non-empty. Otherwise the "Please fill in all fields" error |
| StorefrontScript.SubscribeNewsletter | script.js:165-176 | Accepted exactly when the email is non-empty |
| StorefrontScript.TwoItemScenario | script.js:60-81 | A Tee at 39.99 and a Hoodie at 89.99 give a displayed total of 129.98 and a count of 2 |
| RelayServer.CheckoutSessionParams | server.js:26-53 | The session is in `payment` mode, for `card`, with shipping countries exactly `US, CA, GB, AU`. There is one line item per request item, in order, named `${name} (${size})`, with images `[image]`, `Math.round(price*100)` cents and quantity 1. The customer email and the metadata hold the request's customer and items |
| RelayServer.CreateCheckoutSession | server.js:18-60 | Responds 200 with the session id exactly when the provider created the session. Otherwise 500 "Failed to create checkout session" |
| RelayServer.SecondLine | server.js:102 | `line2` when present, otherwise `''` |
| RelayServer.OrderFromSession | server.js:85-112 | The order has `external_id = session.id` and shipping `STANDARD`. The whole recipient comes from the collected shipping details: the name; `address1 = line1`; `address2` is `line2`, or `''` when that is absent or empty; the city; `state_code = state`; `country_code = country`; `zip = postal_code`. There is one `{variant_id, quantity: 1}` per stored cart item, in order |
| RelayServer.PaymentSuccess | server.js:63-82 | A fulfilment order is sent exactly when the session was retrieved and its status is `paid`. An unpaid session gets 400 "Payment not completed" and no order. A retrieval or fulfilment failure gets 500. The response is 200 only when the order was accepted |
| RelayServer.PaidSessionOrdersCart | server.js:49-111 | For a paid session opened for a request, the order carries the session id and exactly the request's cart lines, in order, one unit each. These are the cart items stored in the metadata at creation. They are the same items the browser integration would order |
| RelayServer.UnpaidSessionOrdersNothing | server.js:70-77 | A session whose status is not `paid` never produces a fulfilment order |
| RelayServer.SessionChargesCartTotal | server.js:23-36 | The session charges the cart total in cents: exactly when prices are whole cents, and within half a cent per line otherwise |
| Printful.StaticProducts | printful-integration.js:49-99 | The static catalog has four products with distinct ids. Each has sizes exactly `S, M, L, XL`, each size at the product's base price |
| Printful.StaticVariants | printful-integration.js:56-61 | The four sizes `S, M, L, XL`, all at one price, without fulfilment variant references |
| Printful.OptionIsVariant | printful-integration.js:127-131 | A priced size option in a rendered card stands for a variant with that id whose price is the option's `data-price` |
| Printful.CreateOrderBody | printful-integration.js:204-217 | `external_id = orderData.orderId`. Shipping, recipient and items pass through unchanged |
| Printful.CreateOrderAgreesWithStripeIntegration | printful-integration.js:212-217 | Given the same fields, this client's order body is identical to the one the Stripe integration builds |
| Printful.PrintfulIntegration.constructor | printful-integration.js:5-11 | Starts with no products and an empty cart |
| Printful.PrintfulIntegration.LoadProducts | printful-integration.js:25-46 | On success the products become the fetched `result`, or `[]`. On any failure they become exactly the static list |
| Printful.PrintfulIntegration.LoadStaticProducts | printful-integration.js:49-101 | The products become the static catalog |
| Printful.PrintfulIntegration.AddToCart | printful-integration.js:155-176 | With no size selected, the cart is unchanged and an alert is shown. Otherwise exactly one line is appended. Its name and image come from the product, and its price is the selected option's `data-price`, which is the price of a variant of that size |
| GitHubPages.ButtonLine | github-pages.js:54-59 | The line's name is `productName (size)`. Its price is the button's `data-price`, and it also records the size and the card image's `src` |
| GitHubPages.TitleMatchesRelay | github-pages.js:54-59 | The payment page title of a line added here equals the relay server's title for the same product and size |
| GitHubPages.GitHubPagesStripe.constructor | github-pages.js:5-12 | Starts with an empty cart, in sync |
| GitHubPages.GitHubPagesStripe.AddToCart | github-pages.js:42-64 | With no size selected, the cart and view are unchanged and an error is notified. A card without an `<img>` throws after the size check: the cart and view are unchanged and nothing is notified. Otherwise exactly one `ButtonLine` with the image's `src` is appended, the view is in sync and the added notice is shown |
| GitHubPages.GitHubPagesStripe.RemoveFromCart | github-pages.js:94-97 | `splice(index, 1)` of the cart, preserving the order of the rest, and the view is in sync |
| GitHubPages.GitHubPagesStripe.InitiateCheckout | github-pages.js:99-138 | An empty cart is refused with a notification and no redirect. Otherwise there is one line item per cart line, in order: `name = item.name`, `usd`, `Math.round(price*100)` cents, quantity 1, in `payment` mode, with countries `US, CA, GB, AU`. A failed or throwing redirect is notified |

## Left out

- DOM rendering is not modelled: product cards, `updateProductDisplay`, `createProductCard`, `updatePrice`, the cart item markup and the `toFixed(2)` formatting. `Cart.total` and `Cart.count` stand for the values written into the total and count elements.
- The only rendered markup modelled is the size selector's option list, as `Printful.SizeOptions`. It is needed for the `data-price` property.
- Event-listener wiring, the mobile menu, scrolling and animation effects, notification styling and timers are not modelled. Neither is the button "Added!" feedback in script.js.
- When no page-wide `showNotification` exists, the classes fall back to `alert`. That fallback is not modelled.
- The calls to the network, the payment provider and the fulfilment provider are outcome parameters, not behaviour. This covers `fetch`, `Stripe(...)`, `redirectToCheckout`, `checkout.sessions.create`/`retrieve` and the order POST.
- Express routing, `listen`, static files and the success and cancel pages are not modelled.
- `StoredSession` is the assumed behaviour of the payment provider: a retrieved session carries the metadata it was created with.
- JSON encoding of the metadata is taken to round-trip exactly. The model does not capture `JSON.stringify` dropping `undefined` fields.
- Prices are exact reals, not IEEE doubles. Floating-point rounding in sums and in `price * 100` is not modelled.
- The unused `totalAmount` in server.js is not modelled.
- In stripe-printful.js, once the catalog has loaded, an unknown product id or a selected size that is not among the product's variants makes `addToCart` throw. The model makes this a precondition of `StripePrintful.StripePrintfulIntegration.AddToCart` whenever a size is selected.
- In printful-integration.js, `addToCart` looks up no variant: it reads the selected option's `data-price`, and only an unknown product id makes it throw (at `product.name`). `Printful.PrintfulIntegration.AddToCart` assumes, once a size is selected, that the product exists and that the selector holds the options `createProductCard` rendered for that product.
- In script.js the card price is parsed from its `$` text. The model takes that number as given.
- In printful-integration.js, `parseFloat` of the rendered `data-price` is taken to return the variant's price.
- `p.id == productId` compares a number with a string by loose equality. The model uses integer ids on both sides.
- The Stripe integration's `customerInfo` starts as `{}`. The model uses all-empty fields, while in JavaScript an order built before checkout would contain the text "undefined".
- The browser's `required` checks on the checkout form are not modelled.
- `init` failing, for example when `Stripe(...)` throws, is not modelled.
- In both `loadPrintfulProducts` (stripe-printful.js) and `loadProducts` (printful-integration.js), an exception from `updateProductDisplay` inside the `try` also triggers the fallback, which overwrites the fetched products. The model counts that case as a `FetchFailed` outcome, so the products end as the fallback catalog. The rendering itself is not modelled.
- In server.js, a missing `shipping_details`, `items` or `customer` makes the code throw and return a 500. The model assumes they are present.
- The id of the relay's session response, passed on to `redirectToCheckout` in stripe-printful.js, is not modelled.
- printful-integration.js has no cart view; its `updateCartDisplay` only logs. Its cart is therefore a plain sequence field with no displayed total.
