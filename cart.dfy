/** The cart panel (Cart.jsx): every button on a line dispatches one call
    on the cart store, keyed by the line's variant id, and checkout hands
    the items to the parent before closing. */
module CartPanel {
  import opened Util
  import opened Shapes

  /** The call `handleQuantityChange(variantId, newQuantity)` makes: a
      quantity below one removes the line, any other sets it. */
  function QuantityChangeCall(variantId: Option<int>, newQuantity: int): (c: CartCall)
    ensures c.RemoveFromCart? <==> newQuantity < 1
    ensures c.UpdateQuantity? <==> newQuantity >= 1
    ensures c.RemoveFromCart? ==> c.variantId == variantId
    ensures c.UpdateQuantity? ==> c.variantId == variantId && c.quantity == newQuantity
  {
    if newQuantity < 1 then RemoveFromCart(variantId) else UpdateQuantity(variantId, newQuantity)
  }

  /** The variant id a per-line call is keyed by. */
  function CallKey(c: CartCall): Option<int>
    requires c.UpdateQuantity? || c.RemoveFromCart?
  {
    c.variantId
  }

  /** `handleQuantityChange`: exactly one call, never both. */
  method HandleQuantityChange(cart: CartStore, variantId: Option<int>, newQuantity: int)
    modifies cart
    ensures cart.calls == old(cart.calls) + [QuantityChangeCall(variantId, newQuantity)]
  {
    if newQuantity < 1 {
      cart.Dispatch(RemoveFromCart(variantId));
    } else {
      cart.Dispatch(UpdateQuantity(variantId, newQuantity));
    }
  }

  /** A line's minus button. */
  method Minus(cart: CartStore, item: Line)
    modifies cart
    ensures cart.calls == old(cart.calls) + [QuantityChangeCall(item.variant.id, item.quantity - 1)]
  {
    HandleQuantityChange(cart, item.variant.id, item.quantity - 1);
  }

  /** A line's plus button. */
  method Plus(cart: CartStore, item: Line)
    modifies cart
    ensures cart.calls == old(cart.calls) + [QuantityChangeCall(item.variant.id, item.quantity + 1)]
  {
    HandleQuantityChange(cart, item.variant.id, item.quantity + 1);
  }

  /** A line's remove button. */
  method Remove(cart: CartStore, item: Line)
    modifies cart
    ensures cart.calls == old(cart.calls) + [RemoveFromCart(item.variant.id)]
  {
    cart.Dispatch(RemoveFromCart(item.variant.id));
  }

  /** The clear-cart button under the lines. */
  method Clear(cart: CartStore)
    modifies cart
    ensures cart.calls == old(cart.calls) + [ClearCart]
  {
    cart.Dispatch(ClearCart);
  }

  /** Minus on a line at quantity one (or less) removes the line instead
      of setting its quantity to zero; above one it lowers the quantity. */
  lemma MinusAtOneRemoves(item: Line)
    ensures item.quantity <= 1 ==> QuantityChangeCall(item.variant.id, item.quantity - 1) == RemoveFromCart(item.variant.id)
    ensures item.quantity > 1 ==>
      QuantityChangeCall(item.variant.id, item.quantity - 1) == UpdateQuantity(item.variant.id, item.quantity - 1)
  {
  }

  /** Plus on a line with a non-negative quantity always sets the next quantity. */
  lemma PlusUpdates(item: Line)
    requires item.quantity >= 0
    ensures QuantityChangeCall(item.variant.id, item.quantity + 1) == UpdateQuantity(item.variant.id, item.quantity + 1)
  {
  }

  /** Every per-line button is keyed by the line's variant id. */
  lemma LineCallsKeyedByVariant(item: Line, delta: int)
    ensures CallKey(QuantityChangeCall(item.variant.id, item.quantity + delta)) == item.variant.id
    ensures CallKey(RemoveFromCart(item.variant.id)) == item.variant.id
  {
  }

  /** The parent's callbacks, in the order the panel calls them. */
  datatype PanelCallback = Checkout(items: seq<Line>) | ClosePanel

  /** `handleCheckout`: `onCheckout(items)` then `onClose()`. */
  method HandleCheckout(items: seq<Line>) returns (callbacks: seq<PanelCallback>)
    ensures |callbacks| == 2 && callbacks[0] == Checkout(items) && callbacks[1] == ClosePanel
  {
    callbacks := [Checkout(items), ClosePanel];
  }

  /** The footer with the total and the checkout button is shown only for a non-empty cart. */
  predicate ShowFooter(items: seq<Line>) {
    |items| > 0
  }
}
