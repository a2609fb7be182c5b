/** The storefront shell (App.jsx): the category chips of the showcase
    grid, the category label, the legacy checkout page's total and order
    items, the checkout items handed to the checkout dialog, the
    `onProceed` line and the product click. */
module Storefront {
  import opened Util
  import opened Text
  import opened Language
  import opened Shapes
  import Card
  import ProductDialog
  import Checkout
  import OrderCreation
  import Catalog
  import Orders

  /** A product's `category` as the showcase grid sees it: a string, or
      anything else (missing, null, an object). */
  datatype CategoryValue = Text(s: string) | NotText

  /** A showcase product, as far as the chips and the filter read it. */
  datatype ShowcaseProduct = ShowcaseProduct(id: int, category: CategoryValue)

  /** The chip a product contributes: its category, or `'other'`. */
  function ChipValue(): ShowcaseProduct -> string {
    (p: ShowcaseProduct) => if p.category.Text? then p.category.s else "other"
  }

  /** `['all', ...new Set(products.map(...))]`. */
  function Categories(products: seq<ShowcaseProduct>): seq<string> {
    ["all"] + Dedup(Map(products, ChipValue()))
  }

  function Everything(): ShowcaseProduct -> bool {
    (p: ShowcaseProduct) => true
  }

  /** The chips: `'all'` first, then each product's chip value once, in
      first-occurrence order. */
  lemma CategoriesSpec(products: seq<ShowcaseProduct>)
    ensures Categories(products)[0] == "all"
    ensures NoDups(Categories(products)[1..])
    ensures forall c :: c in Categories(products)[1..] <==>
      exists i :: 0 <= i < |products| && ChipValue()(products[i]) == c
    ensures forall i :: 0 <= i < |products| && products[i].category.NotText? ==> "other" in Categories(products)[1..]
  {
    FilterAll(products, Everything());
    DedupMapFilter(products, Everything(), ChipValue());
    assert Categories(products)[1..] == Dedup(Map(products, ChipValue()));
  }

  /** A product whose category is literally `'all'` gives a second `'all'`
      chip: the set does not see the leading one. */
  lemma CategoryNamedAllRepeats(products: seq<ShowcaseProduct>)
    requires |products| > 0 && products[0].category == Text("all")
    ensures Categories(products)[0] == "all" && Categories(products)[1] == "all"
  {
    DedupSpec(Map(products, ChipValue()));
  }

  /** `p.category === filter`. */
  function InCategory(filter: string): ShowcaseProduct -> bool {
    (p: ShowcaseProduct) => p.category == Text(filter)
  }

  /** `filteredProducts`. */
  function FilteredProducts(products: seq<ShowcaseProduct>, filter: string): seq<ShowcaseProduct> {
    if filter == "all" then products else Filter(products, InCategory(filter))
  }

  /** The `'all'` chip shows every product; any other shows, in order, the
      products whose category is that very string. */
  lemma FilteredProductsSpec(products: seq<ShowcaseProduct>, filter: string)
    ensures filter == "all" ==> FilteredProducts(products, filter) == products
    ensures IsSubseq(FilteredProducts(products, filter), products)
    ensures filter != "all" ==> forall p :: p in FilteredProducts(products, filter) <==> p in products && p.category == Text(filter)
  {
    if filter == "all" {
      SubseqRefl(products);
    } else {
      FilterIsSubseq(products, InCategory(filter));
      var r := FilteredProducts(products, filter);
      forall p ensures p in r <==> p in products && p.category == Text(filter) {
        if p in products && p.category == Text(filter) {
          var i :| 0 <= i < |products| && products[i] == p;
        }
        if p in r {
          var i :| 0 <= i < |r| && r[i] == p;
        }
      }
    }
  }

  /** The `'other'` chip, offered for products without a text category,
      never shows them: they appear only under `'all'`. */
  lemma OtherChipHidesItsProducts(products: seq<ShowcaseProduct>, filter: string, p: ShowcaseProduct)
    requires p in products && p.category.NotText?
    ensures p in FilteredProducts(products, filter) <==> filter == "all"
  {
    FilteredProductsSpec(products, filter);
  }

  /** A chip's label: the first character upper-cased (through `upper`,
      JavaScript's `toUpperCase` on that one character) before the rest; an
      empty or non-text chip reads `Autres`, or `أخرى` in Arabic. */
  function CategoryLabel(cat: CategoryValue, lang: Lang, upper: string -> string): (r: string)
    ensures cat.Text? && cat.s != "" ==> r == upper([cat.s[0]]) + cat.s[1..]
    ensures !(cat.Text? && cat.s != "") ==> r == (if lang == Arabic then "أخرى" else "Autres")
  {
    if cat.Text? && cat.s != "" then upper([cat.s[0]]) + cat.s[1..]
    else if lang == Arabic then "أخرى" else "Autres"
  }

  /** The label keeps the text after the first character; the fallback
      labels are never empty. */
  lemma CategoryLabelSpec(cat: CategoryValue, lang: Lang, upper: string -> string)
    ensures cat.Text? && cat.s != "" ==>
      var r := CategoryLabel(cat, lang, upper);
      |r| >= |cat.s| - 1 && r[|r| - (|cat.s| - 1)..] == cat.s[1..]
    ensures !(cat.Text? && cat.s != "") ==> CategoryLabel(cat, lang, upper) != ""
  {
  }

  /** An entry of the cart store as the shell reads it: the store's own
      fields and, when present, the `{product, variant}` pair the checkout
      dialog needs. */
  datatype CartEntry = CartEntry(
    id: Option<int>, name: Option<string>, image: Option<string>, price: Option<int>,
    quantity: Option<int>, variant: Option<LineVariant>, product: Option<LineProduct>)

  /** Σ `Number(it.price || 0)`. */
  function LegacyTotal(items: seq<CartEntry>): int
    decreases |items|
  {
    if items == [] then 0 else OrElse(items[0].price, 0) + LegacyTotal(items[1..])
  }

  /** The legacy total ignores quantities: entries that differ only in
      their quantity have the same total. */
  lemma {:induction false} LegacyTotalIgnoresQuantity(a: seq<CartEntry>, b: seq<CartEntry>)
    requires |a| == |b|
    requires forall i :: 0 <= i < |a| ==> a[i].(quantity := None) == b[i].(quantity := None)
    ensures LegacyTotal(a) == LegacyTotal(b)
    decreases |a|
  {
    if a != [] {
      assert a[0].price == a[0].(quantity := None).price;
      assert b[0].price == b[0].(quantity := None).price;
      LegacyTotalIgnoresQuantity(a[1..], b[1..]);
    }
  }

  /** A priced entry counts its price once whatever its quantity, so for
      any quantity above one the legacy total is below price × quantity. */
  lemma LegacyTotalUndercounts(e: CartEntry, q: int)
    requires e.price.Some? && e.price.value > 0 && q > 1
    ensures LegacyTotal([e.(quantity := Some(q))]) == LegacyTotal([e.(quantity := None)]) == e.price.value
    ensures LegacyTotal([e.(quantity := Some(q))]) < e.price.value * q
  {
    LegacyTotalIgnoresQuantity([e.(quantity := Some(q))], [e.(quantity := None)]);
  }

  /** `it?.variant?.id` is truthy. */
  predicate HasVariantId(it: CartEntry) {
    it.variant.Some? && Truthy(it.variant.value.id)
  }

  /** `first?.id` is truthy for the first fetched variant. */
  predicate FirstIdFetched(fetched: ApiResult<seq<Option<int>>>) {
    fetched.Success? && |fetched.body| > 0 && Truthy(fetched.body[0])
  }

  /** One order item of `placeOrder`: the entry's variant id with
      `Number(quantity) || 1`; else the first fetched variant's id with one
      unit; else the entry's own id with one unit. `fetched` is the
      settled `getProductVariants(it.id)`, as the variants' ids. */
  function PlaceOrderItem(it: CartEntry, fetched: ApiResult<seq<Option<int>>>): (r: OrderCreation.ItemRequest)
    ensures HasVariantId(it) ==> r == OrderCreation.ItemRequest(it.variant.value.id, Some(OrElse(it.quantity, 1)))
    ensures !HasVariantId(it) ==> r.quantity == Some(1)
    ensures !HasVariantId(it) && FirstIdFetched(fetched) ==> r.variantId == fetched.body[0]
    ensures !HasVariantId(it) && !FirstIdFetched(fetched) ==> r.variantId == it.id
    ensures r.quantity.Some? && r.quantity.value != 0
    ensures r.variantId.None? <==> !HasVariantId(it) && !FirstIdFetched(fetched) && it.id.None?
  {
    if HasVariantId(it) then
      OrderCreation.ItemRequest(it.variant.value.id, Some(OrElse(it.quantity, 1)))
    else if FirstIdFetched(fetched) then
      OrderCreation.ItemRequest(fetched.body[0], Some(1))
    else
      OrderCreation.ItemRequest(it.id, Some(1))
  }

  /** `Promise.all(items.map(...))`: one item per entry, in order. */
  function PlaceOrderItems(items: seq<CartEntry>, fetched: seq<ApiResult<seq<Option<int>>>>): (r: seq<OrderCreation.ItemRequest>)
    requires |fetched| == |items|
    ensures |r| == |items| && forall i :: 0 <= i < |items| ==> r[i] == PlaceOrderItem(items[i], fetched[i])
  {
    seq(|items|, i requires 0 <= i < |items| => PlaceOrderItem(items[i], fetched[i]))
  }

  /** The last resort of `placeOrder` sends the entry's own id, a product
      id, as `product_variant_id`. When this is the first line, the back
      end refuses the order as a missing variant unless some variant has
      that primary key; and when one has, it orders one unit of that
      variant, whichever product the variant belongs to. Without an id the
      key is dropped and the order is refused for the missing key. */
  lemma LastResortSendsProductId(products: map<nat, Catalog.Product>, pk: nat, l0: OrderCreation.Ledger,
                                 items: seq<CartEntry>, fetched: seq<ApiResult<seq<Option<int>>>>)
    requires OrderCreation.Linked(products, l0.variants)
    requires |fetched| == |items| && items != []
    requires !HasVariantId(items[0]) && !FirstIdFetched(fetched[0])
    ensures var reqs := PlaceOrderItems(items, fetched);
      var o := OrderCreation.Run(products, pk, l0, reqs);
      && reqs[0] == OrderCreation.ItemRequest(items[0].id, Some(1))
      && (items[0].id.None? ==> o == OrderCreation.Failed(OrderCreation.MissingKey("product_variant_id"), l0))
      && (items[0].id.Some? && (items[0].id.value < 0 || items[0].id.value as nat !in l0.variants) ==>
            o == OrderCreation.Failed(OrderCreation.VariantNotFound(OrderCreation.NotFoundMessage(items[0].id.value)), l0))
      && (items[0].id.Some? && 0 <= items[0].id.value && items[0].id.value as nat in l0.variants
          && l0.variants[items[0].id.value as nat].stock >= 1
          && !HasKey(l0.items, Orders.ItemKey, (pk, items[0].id.value as nat)) ==>
            var id := items[0].id.value as nat;
            OrderCreation.Run(products, pk, l0, reqs[..1]).ledger.items
              == l0.items + [Orders.OrderItem(pk, id, 1, OrderCreation.UnitPrice(products, l0.variants, id))])
  {
    var reqs := PlaceOrderItems(items, fetched);
    assert reqs[..1][..0] == [];
    assert OrderCreation.Run(products, pk, l0, reqs[..1]) == OrderCreation.Step(products, pk, l0, reqs[0]);
    if OrderCreation.Run(products, pk, l0, reqs[..1]).Failed? {
      OrderCreation.RunStaysFailed(products, pk, l0, reqs, 1);
    }
  }

  /** A line whose entry carries a variant id asks for that variant with a
      quantity the back end never sees as 0: `Number(quantity) || 1`. */
  lemma ResolvedLineQuantity(items: seq<CartEntry>, fetched: seq<ApiResult<seq<Option<int>>>>, i: nat)
    requires |fetched| == |items| && i < |items| && HasVariantId(items[i])
    ensures var r := PlaceOrderItems(items, fetched)[i];
      && r.variantId == items[i].variant.value.id
      && r.quantity.Some? && r.quantity.value != 0
      && (Truthy(items[i].quantity) ==> r.quantity.value == items[i].quantity.value)
      && (!Truthy(items[i].quantity) ==> r.quantity.value == 1)
  {
  }

  /** Line `i` of the checkout items from a cart entry: kept as it is when it
      has a variant id and a product; otherwise rebuilt with one unit from
      the first fetched variant, or from the entry itself. */
  function Enrich(it: CartEntry, fetched: ApiResult<seq<ApiVariant>>): (r: Line)
    ensures HasVariantId(it) && it.product.Some? ==>
      r == Line(it.product.value, it.variant.value, it.quantity.GetOr(0))
    ensures !(HasVariantId(it) && it.product.Some?) ==>
      r.quantity == 1 && r.product == LineProduct(it.name, it.image)
    ensures !(HasVariantId(it) && it.product.Some?) && fetched.Success? && |fetched.body| > 0 ==>
      var first := fetched.body[0];
      r.variant == LineVariant(Some(first.id), first.size, first.color, OrElse(Some(first.price), OrElse(it.price, 0)))
    ensures !(HasVariantId(it) && it.product.Some?) && !(fetched.Success? && |fetched.body| > 0) ==>
      r.variant == LineVariant(it.id, "", "", OrElse(it.price, 0))
  {
    if HasVariantId(it) && it.product.Some? then
      Line(it.product.value, it.variant.value, it.quantity.GetOr(0))
    else if fetched.Success? && |fetched.body| > 0 then
      var first := fetched.body[0];
      Line(LineProduct(it.name, it.image),
           LineVariant(Some(first.id), TextOrElse(Some(first.size), ""), TextOrElse(Some(first.color), ""),
                       OrElse(Some(first.price), OrElse(it.price, 0))),
           1)
    else
      Line(LineProduct(it.name, it.image), LineVariant(it.id, "", "", OrElse(it.price, 0)), 1)
  }

  /** The enriched list: one line per cart entry, in order. */
  function EnrichAll(items: seq<CartEntry>, fetched: seq<ApiResult<seq<ApiVariant>>>): (r: seq<Line>)
    requires |fetched| == |items|
    ensures |r| == |items| && forall i :: 0 <= i < |items| ==> r[i] == Enrich(items[i], fetched[i])
  {
    seq(|items|, i requires 0 <= i < |items| => Enrich(items[i], fetched[i]))
  }

  /** An entry with neither a variant id nor fetched variants nor an id of
      its own reaches the checkout without a variant id, and the back end
      refuses the order at its first line. */
  lemma UnresolvedEntryRefused(products: map<nat, Catalog.Product>, pk: nat, l0: OrderCreation.Ledger,
                               it: CartEntry, fetched: ApiResult<seq<ApiVariant>>, rest: seq<Line>)
    requires OrderCreation.Linked(products, l0.variants)
    requires !HasVariantId(it) && it.id.None?
    requires !(fetched.Success? && |fetched.body| > 0)
    ensures OrderCreation.Run(products, pk, l0, Checkout.ItemRequests([Enrich(it, fetched)] + rest))
      == OrderCreation.Failed(OrderCreation.MissingKey("product_variant_id"), l0)
  {
    Checkout.LineWithoutVariantIdRefused(products, pk, l0, [Enrich(it, fetched)] + rest);
  }

  /** The alerts and errors of the legacy checkout page, by language. */
  function PlacedMessage(lang: Lang): string {
    if lang == Arabic then "تم إنشاء الطلب. سنتواصل معك قريبًا." else "Commande créée. Nous vous contacterons bientôt."
  }

  function PlaceFailedMessage(lang: Lang): string {
    if lang == Arabic then "فشل إنشاء الطلب. حاول مرة أخرى." else "Échec de création de la commande. Réessayez."
  }

  /** The legacy `CheckoutPage`'s request state. */
  class CheckoutPage {
    var loading: bool
    var error: string
    const lang: Lang

    constructor (lang: Lang)
      ensures !loading && error == "" && this.lang == lang
    {
      this.lang := lang;
      loading := false;
      error := "";
    }

    /** `placeOrder` once its requests have settled (`fetched[i]` for entry
        `i`, `response` for the order): on success the cart is cleared, the
        confirmation shows and the page closes; on failure the error shows. */
    method PlaceOrder(items: seq<CartEntry>, fetched: seq<ApiResult<seq<Option<int>>>>, response: ApiResult<bool>, cart: CartStore)
      returns (orderItems: seq<OrderCreation.ItemRequest>, alert: Option<string>, closed: bool)
      requires |fetched| == |items|
      modifies this, cart
      ensures orderItems == PlaceOrderItems(items, fetched) && !loading
      ensures response.Success? ==>
        cart.calls == old(cart.calls) + [ClearCart] && alert == Some(PlacedMessage(lang)) && closed && error == ""
      ensures response.Failure? ==>
        cart.calls == old(cart.calls) && alert.None? && !closed && error == PlaceFailedMessage(lang)
    {
      loading := true;
      error := "";
      orderItems := PlaceOrderItems(items, fetched);
      match response {
        case Success(_) =>
          cart.Dispatch(ClearCart);
          alert := Some(PlacedMessage(lang));
          closed := true;
        case Failure(_) =>
          alert := None;
          closed := false;
          error := PlaceFailedMessage(lang);
      }
      loading := false;
    }
  }

  /** The line `onProceed` builds from the dialog's choice: `quantity || 1`,
      `price || 0`, size and colour or `''`; the detail response carries
      no main image. */
  function ProceedLine(s: ProductDialog.Selection): (r: Line)
    ensures r.product == LineProduct(Some(s.product.name), None)
    ensures r.variant.id == Some(s.variant.id) && r.variant.size == s.variant.size && r.variant.color == s.variant.color
    ensures r.variant.price == s.variant.price
    ensures r.quantity == (if s.quantity != 0 then s.quantity else 1)
  {
    Line(LineProduct(Some(s.product.name), None),
         LineVariant(Some(s.variant.id), TextOrElse(Some(s.variant.size), ""), TextOrElse(Some(s.variant.color), ""),
                     OrElse(Some(s.variant.price), 0)),
         OrElse(Some(s.quantity), 1))
  }

  /** What the product dialog is opened with. */
  datatype ModalProduct = ModalProduct(product: Card.CardProduct, slug: string)

  /** The slug `handleProductClick` passes: `product.slug || String(product.id)`. */
  function ClickSlug(p: Card.CardProduct): (r: string)
    ensures p.slug.Some? && p.slug.value != "" ==> r == p.slug.value
    ensures !(p.slug.Some? && p.slug.value != "") ==> r == IntToString(p.id)
  {
    TextOrElse(p.slug, IntToString(p.id))
  }

  /** The slug is never empty, so the dialog always asks for the details. */
  lemma ClickSlugNonEmpty(p: Card.CardProduct)
    ensures ClickSlug(p) != ""
  {
  }

  /** The shell's checkout state. */
  class Shell {
    var route: string
    var modalProduct: Option<ModalProduct>
    var directCheckoutItems: Option<seq<Line>>
    var checkoutItems: seq<Line>

    constructor (route: string)
      ensures this.route == route && modalProduct.None? && directCheckoutItems.None? && checkoutItems == []
    {
      this.route := route;
      modalProduct := None;
      directCheckoutItems := None;
      checkoutItems := [];
    }

    /** `handleProductClick`: open the dialog on the product. */
    method HandleProductClick(p: Card.CardProduct)
      modifies this
      ensures modalProduct == Some(ModalProduct(p, ClickSlug(p)))
      ensures route == old(route) && directCheckoutItems == old(directCheckoutItems) && checkoutItems == old(checkoutItems)
    {
      var slug := if p.slug.Some? && p.slug.value != "" then p.slug.value else IntToString(p.id);
      modalProduct := Some(ModalProduct(p, slug));
    }

    /** The checkout-items effect once its variant requests have settled
        (`fetched[i]` for entry `i`): only on the checkout route; a
        non-empty direct selection wins over the cart. */
    method LoadVariantsIfNeeded(items: seq<CartEntry>, fetched: seq<ApiResult<seq<ApiVariant>>>)
      requires |fetched| == |items|
      modifies this
      ensures route != "/checkout" ==> checkoutItems == old(checkoutItems)
      ensures route == "/checkout" && directCheckoutItems.Some? && |directCheckoutItems.value| > 0 ==>
        checkoutItems == directCheckoutItems.value
      ensures route == "/checkout" && !(directCheckoutItems.Some? && |directCheckoutItems.value| > 0) ==>
        checkoutItems == EnrichAll(items, fetched)
      ensures route == old(route) && modalProduct == old(modalProduct) && directCheckoutItems == old(directCheckoutItems)
    {
      if route != "/checkout" {
        return;
      }
      if directCheckoutItems.Some? && |directCheckoutItems.value| > 0 {
        checkoutItems := directCheckoutItems.value;
        return;
      }
      checkoutItems := EnrichAll(items, fetched);
    }

    /** The dialog's `onProceed`: a one-line direct checkout, the dialog
        closed, the checkout route, and then the effect. */
    method OnProceed(s: ProductDialog.Selection, items: seq<CartEntry>, fetched: seq<ApiResult<seq<ApiVariant>>>)
      requires |fetched| == |items|
      modifies this
      ensures directCheckoutItems == Some([ProceedLine(s)]) && modalProduct.None? && route == "/checkout"
      ensures checkoutItems == [ProceedLine(s)]
    {
      directCheckoutItems := Some([ProceedLine(s)]);
      modalProduct := None;
      route := "/checkout";
      LoadVariantsIfNeeded(items, fetched);
    }
  }
}
