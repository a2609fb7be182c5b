/** The product dialog (ProductModal.jsx): choosing a size and a colour
    resolves a variant, the image strip follows the colour, the quantity
    stepper never goes below one, and Proceed hands the choice on. */
module ProductDialog {
  import opened Util
  import opened Shapes

  /** An entry of the detail response's `images`; `color` may be null or `''`. */
  datatype Image = Image(imageUrl: Option<string>, color: Option<string>)

  /** The fields of the product-detail response the dialog reads; a list
      the response lacks is `None`. */
  datatype Details = Details(
    id: int, name: string,
    variants: Option<seq<ApiVariant>>, images: Option<seq<Image>>,
    availableSizes: Option<seq<string>>, availableColors: Option<seq<string>>,
    minPrice: int, maxPrice: int)

  /** What `onProceed` receives. */
  datatype Selection = Selection(product: Details, variant: ApiVariant, quantity: int)

  /** `v.size === size && v.color === color`. */
  predicate Fits(v: ApiVariant, size: string, color: string) {
    v.size == size && v.color == color
  }

  /** `variants.find(...)`: the first variant with this size and colour. */
  function FindVariant(vs: seq<ApiVariant>, size: string, color: string): (r: Option<ApiVariant>)
    ensures r.Some? <==> exists i :: 0 <= i < |vs| && Fits(vs[i], size, color)
    ensures r.Some? ==> exists i :: (0 <= i < |vs| && vs[i] == r.value && Fits(vs[i], size, color)
      && forall j :: 0 <= j < i ==> !Fits(vs[j], size, color))
    decreases |vs|
  {
    if vs == [] then None
    else if Fits(vs[0], size, color) then Some(vs[0])
    else
      var r := FindVariant(vs[1..], size, color);
      assert forall i :: 1 <= i < |vs| ==> vs[i] == vs[1..][i - 1];
      r
  }

  /** `productDetails.variants`, or no variants. */
  function VariantsOf(details: Option<Details>): seq<ApiVariant> {
    if details.Some? && details.value.variants.Some? then details.value.variants.value else []
  }

  /** An image shown with the selected colour: of that colour, or of none. */
  function ShownWith(color: string): Image -> bool {
    (im: Image) => im.color == Some(color) || im.color.None? || im.color == Some("")
  }

  /** `getFilteredImages`. */
  function FilteredImages(details: Option<Details>, selectedColor: string): seq<Image> {
    if details.None? || details.value.images.None? then []
    else if selectedColor != "" then Filter(details.value.images.value, ShownWith(selectedColor))
    else details.value.images.value
  }

  /** Without images the strip is empty; with a colour it holds exactly the
      images of that colour or of no colour, in their order; with none, all. */
  lemma FilteredImagesSpec(details: Option<Details>, selectedColor: string)
    ensures details.None? || details.value.images.None? ==> FilteredImages(details, selectedColor) == []
    ensures details.Some? && details.value.images.Some? && selectedColor == "" ==>
      FilteredImages(details, selectedColor) == details.value.images.value
    ensures details.Some? && details.value.images.Some? && selectedColor != "" ==>
      var all := details.value.images.value;
      var r := FilteredImages(details, selectedColor);
      IsSubseq(r, all)
      && (forall im :: im in r <==> im in all && (im.color == Some(selectedColor) || im.color.None? || im.color == Some("")))
  {
    if details.Some? && details.value.images.Some? && selectedColor != "" {
      var all := details.value.images.value;
      FilterIsSubseq(all, ShownWith(selectedColor));
      var r := FilteredImages(details, selectedColor);
      forall im ensures im in r <==> im in all && ShownWith(selectedColor)(im) {
        if im in r {
          var i :| 0 <= i < |r| && r[i] == im;
        }
        if im in all && ShownWith(selectedColor)(im) {
          var i :| 0 <= i < |all| && all[i] == im;
        }
      }
    }
  }

  function SizeIs(size: string): ApiVariant -> bool {
    (v: ApiVariant) => v.size == size
  }

  function ColorIs(color: string): ApiVariant -> bool {
    (v: ApiVariant) => v.color == color
  }

  function ColorOf(): ApiVariant -> string {
    (v: ApiVariant) => v.color
  }

  function SizeOf(): ApiVariant -> string {
    (v: ApiVariant) => v.size
  }

  /** `getAvailableColors`: the distinct colours among the variants of the selected size. */
  function AvailableColors(details: Option<Details>, selectedSize: string): seq<string> {
    if details.None? || details.value.variants.None? then []
    else Dedup(Map(Filter(details.value.variants.value, SizeIs(selectedSize)), ColorOf()))
  }

  /** `getAvailableSizes`: the distinct sizes among the variants of the selected colour. */
  function AvailableSizes(details: Option<Details>, selectedColor: string): seq<string> {
    if details.None? || details.value.variants.None? then []
    else Dedup(Map(Filter(details.value.variants.value, ColorIs(selectedColor)), SizeOf()))
  }

  /** The colours offered for a size are exactly the colours of its
      variants, once each, in first-occurrence order; none without variants. */
  lemma AvailableColorsSpec(details: Option<Details>, selectedSize: string)
    ensures details.None? || details.value.variants.None? ==> AvailableColors(details, selectedSize) == []
    ensures NoDups(AvailableColors(details, selectedSize))
    ensures forall c :: c in AvailableColors(details, selectedSize) <==>
      exists i :: 0 <= i < |VariantsOf(details)| && Fits(VariantsOf(details)[i], selectedSize, c)
  {
    if details.Some? && details.value.variants.Some? {
      var vs := details.value.variants.value;
      DedupMapFilter(vs, SizeIs(selectedSize), ColorOf());
      assert VariantsOf(details) == vs;
      assert forall i, c :: 0 <= i < |vs| ==>
        (SizeIs(selectedSize)(vs[i]) && ColorOf()(vs[i]) == c <==> Fits(vs[i], selectedSize, c));
    }
  }

  /** The sizes offered for a colour, likewise. */
  lemma AvailableSizesSpec(details: Option<Details>, selectedColor: string)
    ensures details.None? || details.value.variants.None? ==> AvailableSizes(details, selectedColor) == []
    ensures NoDups(AvailableSizes(details, selectedColor))
    ensures forall s :: s in AvailableSizes(details, selectedColor) <==>
      exists i :: 0 <= i < |VariantsOf(details)| && Fits(VariantsOf(details)[i], s, selectedColor)
  {
    if details.Some? && details.value.variants.Some? {
      var vs := details.value.variants.value;
      DedupMapFilter(vs, ColorIs(selectedColor), SizeOf());
      assert VariantsOf(details) == vs;
      assert forall i, z :: 0 <= i < |vs| ==>
        (ColorIs(selectedColor)(vs[i]) && SizeOf()(vs[i]) == z <==> Fits(vs[i], z, selectedColor));
    }
  }

  /** The two filters constrain each other: a colour is offered for a size
      exactly when the size is offered for that colour, and exactly when
      the pair resolves to a variant. */
  lemma AvailabilityAgrees(details: Option<Details>, size: string, color: string)
    ensures color in AvailableColors(details, size) <==> size in AvailableSizes(details, color)
    ensures color in AvailableColors(details, size) <==> FindVariant(VariantsOf(details), size, color).Some?
  {
    AvailableColorsSpec(details, size);
    AvailableSizesSpec(details, color);
  }

  /** The previous-image arrow. */
  function PrevIndex(prev: int, len: int): int {
    if prev == 0 then len - 1 else prev - 1
  }

  /** The next-image arrow. */
  function NextIndex(prev: int, len: int): int {
    if prev == len - 1 then 0 else prev + 1
  }

  /** Both arrows keep an index inside the strip, wrap at its ends and undo
      each other. */
  lemma ImageNavigation(i: int, len: int)
    requires 0 <= i < len
    ensures 0 <= PrevIndex(i, len) < len && 0 <= NextIndex(i, len) < len
    ensures i == 0 ==> PrevIndex(i, len) == len - 1
    ensures i == len - 1 ==> NextIndex(i, len) == 0
    ensures NextIndex(PrevIndex(i, len), len) == i && PrevIndex(NextIndex(i, len), len) == i
  {
  }

  /** The arrows do not repair an index the strip no longer covers: the
      next arrow keeps counting upward. Such an index arises when the
      dialog, still mounted, loads another product with a shorter strip
      and its colour effect does not run, because the default colour is
      the one already chosen or the product has no colours. */
  lemma NextPastTheEnd(i: int, len: int)
    requires i >= len
    ensures NextIndex(i, len) == i + 1
  {
  }

  /** The Proceed button's `disabled`. */
  predicate ProceedDisabled(v: Option<ApiVariant>) {
    v.None? || v.value.stockQuantity == 0
  }

  /** With the selection resolved, Proceed is enabled exactly when the
      first variant of that size and colour exists and its stock is not zero. */
  lemma ProceedEnabledIff(vs: seq<ApiVariant>, size: string, color: string)
    ensures !ProceedDisabled(FindVariant(vs, size, color)) <==>
      exists i :: (0 <= i < |vs| && Fits(vs[i], size, color) && vs[i].stockQuantity != 0
        && forall j :: 0 <= j < i ==> !Fits(vs[j], size, color))
  {
    var r := FindVariant(vs, size, color);
    if i :| (0 <= i < |vs| && Fits(vs[i], size, color) && vs[i].stockQuantity != 0
        && forall j :: 0 <= j < i ==> !Fits(vs[j], size, color)) {
      var k :| (0 <= k < |vs| && vs[k] == r.value && Fits(vs[k], size, color)
        && forall j :: 0 <= j < k ==> !Fits(vs[j], size, color));
      assert k == i;
    }
  }

  /** The quantity stepper's minus button. */
  function Decrement(q: int): (r: int)
    ensures r >= 1
    ensures q > 1 ==> r == q - 1
    ensures q <= 1 ==> r == 1
  {
    if 1 > q - 1 then 1 else q - 1
  }

  class ProductModal {
    var selectedSize: string
    var selectedColor: string
    var quantity: int
    var selectedVariant: Option<ApiVariant>
    var productDetails: Option<Details>
    var loading: bool
    var currentImageIndex: int

    /** Whether the variant effect resolves anything: details loaded and both
        a size and a colour chosen. */
    predicate Resolves()
      reads this
    {
      productDetails.Some? && selectedSize != "" && selectedColor != ""
    }

    /** The quantity is at least one, and once the selection resolves the
        selected variant is the one it resolves to. */
    predicate Valid()
      reads this
    {
      quantity >= 1
      && (Resolves() ==> selectedVariant == FindVariant(VariantsOf(productDetails), selectedSize, selectedColor))
    }

    constructor ()
      ensures Valid()
      ensures selectedSize == "" && selectedColor == "" && quantity == 1 && selectedVariant.None?
      ensures productDetails.None? && !loading && currentImageIndex == 0
    {
      selectedSize := "";
      selectedColor := "";
      quantity := 1;
      selectedVariant := None;
      productDetails := None;
      loading := false;
      currentImageIndex := 0;
    }

    /** The variant effect: with details and both choices set, the first
        matching variant or null; otherwise the selection is left alone. */
    method ResolveVariant()
      requires quantity >= 1
      modifies this
      ensures Valid()
      ensures Resolves() ==> selectedVariant == FindVariant(VariantsOf(productDetails), selectedSize, selectedColor)
      ensures !Resolves() ==> selectedVariant == old(selectedVariant)
      ensures selectedSize == old(selectedSize) && selectedColor == old(selectedColor) && quantity == old(quantity)
      ensures productDetails == old(productDetails) && loading == old(loading) && currentImageIndex == old(currentImageIndex)
    {
      if productDetails.Some? && selectedSize != "" && selectedColor != "" {
        selectedVariant := FindVariant(VariantsOf(productDetails), selectedSize, selectedColor);
      }
    }

    /** The colour effect: a new non-empty colour shows the first image. */
    method ColorChanged(previous: string)
      modifies this
      ensures currentImageIndex == if selectedColor != "" && selectedColor != previous then 0 else old(currentImageIndex)
      ensures selectedSize == old(selectedSize) && selectedColor == old(selectedColor) && quantity == old(quantity)
      ensures productDetails == old(productDetails) && loading == old(loading) && selectedVariant == old(selectedVariant)
    {
      if selectedColor != "" && selectedColor != previous {
        currentImageIndex := 0;
      }
    }

    /** A size button, then the variant effect. */
    method SelectSize(size: string)
      requires Valid()
      modifies this
      ensures Valid()
      ensures selectedSize == size && selectedColor == old(selectedColor)
      ensures Resolves() ==> selectedVariant == FindVariant(VariantsOf(productDetails), size, selectedColor)
      ensures !Resolves() ==> selectedVariant == old(selectedVariant)
      ensures quantity == old(quantity) && productDetails == old(productDetails) && currentImageIndex == old(currentImageIndex)
      ensures loading == old(loading)
    {
      selectedSize := size;
      ResolveVariant();
    }

    /** A colour button, then the colour and variant effects. */
    method SelectColor(color: string)
      requires Valid()
      modifies this
      ensures Valid()
      ensures selectedColor == color && selectedSize == old(selectedSize)
      ensures currentImageIndex == if color != "" && color != old(selectedColor) then 0 else old(currentImageIndex)
      ensures Resolves() ==> selectedVariant == FindVariant(VariantsOf(productDetails), selectedSize, color)
      ensures !Resolves() ==> selectedVariant == old(selectedVariant)
      ensures quantity == old(quantity) && productDetails == old(productDetails) && loading == old(loading)
    {
      var previous := selectedColor;
      selectedColor := color;
      ColorChanged(previous);
      ResolveVariant();
    }

    /** `loadProductDetails` once `getProduct(slug)` has settled: without a
        slug nothing happens; on success the details are kept and the first
        available size and colour become the defaults (the effects then
        run); on failure only the loading flag ends. */
    method LoadProductDetails(slug: Option<string>, response: ApiResult<Details>)
      requires Valid()
      modifies this
      ensures Valid()
      ensures slug.None? || slug.value == "" ==>
        productDetails == old(productDetails) && selectedSize == old(selectedSize) && selectedColor == old(selectedColor)
        && selectedVariant == old(selectedVariant) && loading == old(loading) && currentImageIndex == old(currentImageIndex)
      ensures slug.Some? && slug.value != "" ==> !loading
      ensures slug.Some? && slug.value != "" && response.Success? ==>
        var d := response.body;
        productDetails == Some(d)
        && selectedSize == (if d.availableSizes.Some? && |d.availableSizes.value| > 0 then d.availableSizes.value[0] else old(selectedSize))
        && selectedColor == (if d.availableColors.Some? && |d.availableColors.value| > 0 then d.availableColors.value[0] else old(selectedColor))
        && (Resolves() ==> selectedVariant == FindVariant(VariantsOf(productDetails), selectedSize, selectedColor))
        && (!Resolves() ==> selectedVariant == old(selectedVariant))
        && currentImageIndex == (if selectedColor != "" && selectedColor != old(selectedColor) then 0 else old(currentImageIndex))
      ensures slug.Some? && slug.value != "" && response.Failure? ==>
        productDetails == old(productDetails) && selectedSize == old(selectedSize) && selectedColor == old(selectedColor)
        && selectedVariant == old(selectedVariant) && currentImageIndex == old(currentImageIndex)
      ensures quantity == old(quantity)
    {
      if slug.None? || slug.value == "" {
        return;
      }
      loading := true;
      match response {
        case Success(d) =>
          var previous := selectedColor;
          productDetails := Some(d);
          if d.availableSizes.Some? && |d.availableSizes.value| > 0 {
            selectedSize := d.availableSizes.value[0];
          }
          if d.availableColors.Some? && |d.availableColors.value| > 0 {
            selectedColor := d.availableColors.value[0];
          }
          ColorChanged(previous);
          ResolveVariant();
        case Failure(_) =>
      }
      loading := false;
    }

    /** The previous-image arrow, shown when the strip has more than one image. */
    method PreviousImage()
      requires Valid() && |FilteredImages(productDetails, selectedColor)| > 1
      modifies this
      ensures Valid()
      ensures currentImageIndex == PrevIndex(old(currentImageIndex), |FilteredImages(productDetails, selectedColor)|)
      ensures selectedSize == old(selectedSize) && selectedColor == old(selectedColor) && quantity == old(quantity)
      ensures productDetails == old(productDetails) && selectedVariant == old(selectedVariant) && loading == old(loading)
    {
      currentImageIndex := PrevIndex(currentImageIndex, |FilteredImages(productDetails, selectedColor)|);
    }

    /** The next-image arrow, shown when the strip has more than one image. */
    method NextImage()
      requires Valid() && |FilteredImages(productDetails, selectedColor)| > 1
      modifies this
      ensures Valid()
      ensures currentImageIndex == NextIndex(old(currentImageIndex), |FilteredImages(productDetails, selectedColor)|)
      ensures selectedSize == old(selectedSize) && selectedColor == old(selectedColor) && quantity == old(quantity)
      ensures productDetails == old(productDetails) && selectedVariant == old(selectedVariant) && loading == old(loading)
    {
      currentImageIndex := NextIndex(currentImageIndex, |FilteredImages(productDetails, selectedColor)|);
    }

    /** A thumbnail of the strip. */
    method SelectImage(index: int)
      requires Valid() && 0 <= index < |FilteredImages(productDetails, selectedColor)|
      modifies this
      ensures Valid()
      ensures currentImageIndex == index
      ensures selectedSize == old(selectedSize) && selectedColor == old(selectedColor) && quantity == old(quantity)
      ensures productDetails == old(productDetails) && selectedVariant == old(selectedVariant) && loading == old(loading)
    {
      currentImageIndex := index;
    }

    /** The minus button: `Math.max(1, quantity - 1)`. */
    method DecreaseQuantity()
      requires Valid()
      modifies this
      ensures Valid()
      ensures quantity == Decrement(old(quantity))
      ensures selectedSize == old(selectedSize) && selectedColor == old(selectedColor) && currentImageIndex == old(currentImageIndex)
      ensures productDetails == old(productDetails) && selectedVariant == old(selectedVariant) && loading == old(loading)
    {
      quantity := if 1 > quantity - 1 then 1 else quantity - 1;
    }

    /** The plus button. */
    method IncreaseQuantity()
      requires Valid()
      modifies this
      ensures Valid()
      ensures quantity == old(quantity) + 1
      ensures selectedSize == old(selectedSize) && selectedColor == old(selectedColor) && currentImageIndex == old(currentImageIndex)
      ensures productDetails == old(productDetails) && selectedVariant == old(selectedVariant) && loading == old(loading)
    {
      quantity := quantity + 1;
    }

    /** `handleProceed`: with a variant and details, either hand the choice to
        `onProceed` (when given) or add it to the cart, then close; otherwise
        nothing happens. */
    method HandleProceed(hasOnProceed: bool, cart: CartStore) returns (proceeded: Option<Selection>, closed: bool)
      requires Valid()
      modifies cart
      ensures selectedVariant.None? || productDetails.None? ==>
        proceeded.None? && !closed && cart.calls == old(cart.calls)
      ensures selectedVariant.Some? && productDetails.Some? ==> closed
      ensures selectedVariant.Some? && productDetails.Some? && hasOnProceed ==>
        proceeded == Some(Selection(productDetails.value, selectedVariant.value, quantity))
        && cart.calls == old(cart.calls)
      ensures selectedVariant.Some? && productDetails.Some? && !hasOnProceed ==>
        proceeded.None?
        && cart.calls == old(cart.calls) + [AddToCart(productDetails.value.id, productDetails.value.name, selectedVariant.value, quantity)]
    {
      proceeded, closed := None, false;
      if selectedVariant.Some? && productDetails.Some? {
        if hasOnProceed {
          proceeded := Some(Selection(productDetails.value, selectedVariant.value, quantity));
        } else {
          cart.Dispatch(AddToCart(productDetails.value.id, productDetails.value.name, selectedVariant.value, quantity));
        }
        closed := true;
      }
    }
  }
}
