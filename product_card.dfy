/** A product tile (ProductCard.jsx): the quick-add button, the price
    line, the sizes preview and the image with its load-error fallback. */
module Card {
  import opened Util
  import opened Shapes

  /** The fields of a listed product the tile reads; a field the response
      lacks is `None`. */
  datatype CardProduct = CardProduct(
    id: int, slug: Option<string>, name: string, category: Option<string>,
    variants: Option<seq<ApiVariant>>, minPrice: int, maxPrice: int,
    availableSizes: Option<seq<string>>, mainImageUrl: Option<string>)

  /** `product.variants?.[0]`. */
  function FirstVariant(p: CardProduct): (r: Option<ApiVariant>)
    ensures r.Some? <==> p.variants.Some? && |p.variants.value| > 0
    ensures r.Some? ==> r.value == p.variants.value[0]
  {
    if p.variants.Some? && |p.variants.value| > 0 then Some(p.variants.value[0]) else None
  }

  /** The quick-add button's `disabled`. */
  predicate QuickAddDisabled(p: CardProduct) {
    p.variants.None? || |p.variants.value| == 0
  }

  /** The button is disabled exactly when there is no first variant to add. */
  lemma QuickAddDisabledIff(p: CardProduct)
    ensures QuickAddDisabled(p) <==> FirstVariant(p).None?
  {
  }

  /** The price line: one amount, or a `min - max` range. */
  datatype PriceLine = Single(amount: int) | Range(low: int, high: int)

  function PriceLabel(p: CardProduct): (r: PriceLine)
    ensures r.Single? <==> p.minPrice == p.maxPrice
    ensures r.Single? ==> r.amount == p.minPrice
    ensures r.Range? ==> r.low == p.minPrice && r.high == p.maxPrice && r.low != r.high
  {
    if p.minPrice == p.maxPrice then Single(p.minPrice) else Range(p.minPrice, p.maxPrice)
  }

  /** The sizes preview: the first sizes shown, and the `+k` count of the rest. */
  datatype Preview = Preview(shown: seq<string>, more: Option<int>)

  /** `available_sizes.slice(0, 4)` and `+{length - 4}` when more than four;
      no preview without sizes. */
  function SizesPreview(sizes: Option<seq<string>>): (r: Option<Preview>)
    ensures r.None? <==> sizes.None? || |sizes.value| == 0
    ensures r.Some? ==>
      var n := |sizes.value|;
      && r.value.shown == sizes.value[..if n < 4 then n else 4]
      && (r.value.more.Some? <==> n > 4)
      && (r.value.more.Some? ==> r.value.more.value == n - 4)
      && |r.value.shown| + r.value.more.GetOr(0) == n
  {
    if sizes.None? || |sizes.value| == 0 then None
    else
      var n := |sizes.value|;
      Some(Preview(sizes.value[..if n < 4 then n else 4], if n > 4 then Some(n - 4) else None))
  }

  class ProductCard {
    const product: CardProduct
    var isLiked: bool
    var imageError: bool

    constructor (product: CardProduct)
      ensures this.product == product && !isLiked && !imageError
    {
      this.product := product;
      isLiked := false;
      imageError := false;
    }

    /** `getImageUrl`: the main image URL while it is present and has not
        failed to load, else null. */
    function ImageUrl(): (r: Option<string>)
      reads this
      ensures r.Some? <==> product.mainImageUrl.Some? && product.mainImageUrl.value != "" && !imageError
      ensures r.Some? ==> r == product.mainImageUrl
    {
      if product.mainImageUrl.Some? && product.mainImageUrl.value != "" && !imageError then product.mainImageUrl else None
    }

    /** The image's `onError`: from then on the placeholder shows. */
    method ImageFailed()
      modifies this
      ensures imageError && isLiked == old(isLiked)
      ensures ImageUrl().None?
    {
      imageError := true;
    }

    /** `handleLike`. */
    method HandleLike()
      modifies this
      ensures isLiked == !old(isLiked) && imageError == old(imageError)
    {
      isLiked := !isLiked;
    }

    /** `handleAddToCart`: one unit of the first variant, or no call at all. */
    method HandleAddToCart(cart: CartStore)
      modifies cart
      ensures FirstVariant(product).Some? ==>
        cart.calls == old(cart.calls) + [AddToCart(product.id, product.name, FirstVariant(product).value, 1)]
      ensures FirstVariant(product).None? ==> cart.calls == old(cart.calls)
    {
      if product.variants.Some? && |product.variants.value| > 0 {
        var firstVariant := product.variants.value[0];
        cart.Dispatch(AddToCart(product.id, product.name, firstVariant, 1));
      }
    }
  }
}
