/**
 * What the storefront shows the shopper: a toast from the page's notification
 * system, or a browser alert. Every user-visible message of the cart and
 * checkout code is one of these.
 */
module Notices {

  datatype Kind = Success | Error

  datatype Notice =
    | Toast(message: string, kind: Kind)
    | Alert(message: string)

  const SelectSizeMessage := "Please select a size"
  const EmptyCartMessage := "Your cart is empty"

  /** `${name} (${size}) added to cart!` */
  function AddedMessage(name: string, size: string): string {
    name + " (" + size + ") added to cart!"
  }

  /** The success toast shown after a line has been appended to a cart. */
  function Added(name: string, size: string): Notice {
    Toast(AddedMessage(name, size), Success)
  }
}
