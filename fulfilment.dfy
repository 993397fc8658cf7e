/**
 * The order-creation request sent to the print-on-demand fulfilment
 * provider: `{ external_id, shipping, recipient, items }`, with one
 * `{ variant_id, quantity: 1 }` item per cart line.
 */
module Fulfilment {
  import opened Wrappers
  import opened CartStore

  /** `address2` is present only in the relay server's orders. */
  datatype Recipient = Recipient(
    name: string,
    address1: string,
    address2: Option<string>,
    city: string,
    stateCode: string,
    countryCode: string,
    zip: string)

  datatype OrderItem = OrderItem(variantId: Option<string>, quantity: int)

  datatype Order = Order(externalId: string, shipping: string, recipient: Recipient, items: seq<OrderItem>)

  const StandardShipping := "STANDARD"

  /** `cart.map(item => ({ variant_id: item.variantId, quantity: 1 }))` */
  function OrderItems(lines: seq<Line>): (items: seq<OrderItem>)
    ensures |items| == |lines|
    ensures forall i :: 0 <= i < |lines| ==> items[i] == OrderItem(lines[i].variantId, 1)
  {
    if lines == [] then [] else [OrderItem(lines[0].variantId, 1)] + OrderItems(lines[1..])
  }

  /** Total number of units ordered. */
  function Units(items: seq<OrderItem>): int
  {
    if items == [] then 0 else items[0].quantity + Units(items[1..])
  }

  /** An order asks for exactly one unit per cart line: nothing is merged or dropped. */
  lemma {:induction false} UnitsAreLines(lines: seq<Line>)
    ensures Units(OrderItems(lines)) == |lines|
  {
    if lines != [] {
      assert OrderItems(lines)[1..] == OrderItems(lines[1..]);
      UnitsAreLines(lines[1..]);
    }
  }

  /** Serialising after a removal is removing after serialising: the order follows the cart. */
  lemma OrderItemsAfterRemove(lines: seq<Line>, i: int)
    ensures OrderItems(SpliceOne(lines, i)) == SpliceOne(OrderItems(lines), i)
  {
  }

  /** An appended cart line adds exactly one item, at the end of the order. */
  lemma OrderItemsAfterPush(lines: seq<Line>, line: Line)
    ensures OrderItems(lines + [line]) == OrderItems(lines) + [OrderItem(line.variantId, 1)]
  {
  }
}
