/** The records the storefront client passes between its components, the
    API results it waits for, and the shared cart store. JavaScript's
    `undefined`/`null` is `None`; numbers are integers (prices in cents). */
module Shapes {
  import opened Util

  /** A variant as the catalogue API returns it. */
  datatype ApiVariant = ApiVariant(id: int, size: string, color: string, price: int, stockQuantity: int)

  /** The `{id, size, color, price}` variant of a checkout line. */
  datatype LineVariant = LineVariant(id: Option<int>, size: string, color: string, price: int)

  /** The `{name, main_image}` product of a checkout line. */
  datatype LineProduct = LineProduct(name: Option<string>, mainImage: Option<string>)

  /** A `{product, variant, quantity}` line, as the cart panel and the
      checkout show them. */
  datatype Line = Line(product: LineProduct, variant: LineVariant, quantity: int)

  /** The settled outcome of an API call: the decoded body, or the message
      of the error it threw. */
  datatype ApiResult<T> = Success(body: T) | Failure(message: string)

  /** A number in a truthiness test: present and not zero. */
  predicate Truthy(x: Option<int>) {
    x.Some? && x.value != 0
  }

  /** `x || d` for a number. */
  function OrElse(x: Option<int>, d: int): (r: int)
    ensures Truthy(x) ==> r == x.value
    ensures !Truthy(x) ==> r == d
  {
    if Truthy(x) then x.value else d
  }

  /** `s || d` for a string: an absent or empty string gives `d`. */
  function TextOrElse(s: Option<string>, d: string): (r: string)
    ensures s.Some? && s.value != "" ==> r == s.value
    ensures s.None? || s.value == "" ==> r == d
  {
    if s.Some? && s.value != "" then s.value else d
  }

  /** A call on the cart store (`useCart()`); what the store does with it is
      not part of this model. */
  datatype CartCall =
    | AddToCart(productId: int, productName: string, variant: ApiVariant, quantity: int)
    | UpdateQuantity(variantId: Option<int>, quantity: int)
    | RemoveFromCart(variantId: Option<int>)
    | ClearCart

  /** The shared cart store as the components see it: the calls they made on it, in order. */
  class CartStore {
    var calls: seq<CartCall>

    constructor ()
      ensures calls == []
    {
      calls := [];
    }

    method Dispatch(c: CartCall)
      modifies this
      ensures calls == old(calls) + [c]
    {
      calls := calls + [c];
    }
  }
}
