/** The catalogue's function views (products/views.py): the advanced search
    and the per-product variant list. A queryset is a list of rows and each
    `.filter(...)` keeps the rows a predicate accepts. Case-insensitive
    matching goes through an arbitrary lower-casing function `lower`, and
    Python's `float(...)` through an arbitrary parser `parse` that fails with
    `None` where Python raises `ValueError`. */
module Search {
  import opened Util
  import opened Text
  import opened Catalog

  /** The query-string parameters of `search_products`; an absent parameter is `""`. */
  datatype SearchParams = SearchParams(q: string, category: string, minPrice: string, maxPrice: string)

  /** `field__icontains=query`. */
  predicate IContains(lower: string -> string, field: string, query: string) {
    Contains(lower(field), lower(query))
  }

  /** The text filter: name, description or category name contains the query. */
  predicate TextMatches(lower: string -> string, p: Product, query: string) {
    IContains(lower, p.name, query) || IContains(lower, p.description, query)
    || IContains(lower, p.category.name, query)
  }

  /** `base_price` in currency units, as the database compares it with a float. */
  function BasePriceUnits(p: Product): real {
    p.basePrice as real / 100.0
  }

  /** The lower price bound holds, or is absent, or does not parse. */
  predicate MinPriceOk(parse: string -> Option<real>, p: Product, bound: string) {
    bound == "" || parse(bound).None? || BasePriceUnits(p) >= parse(bound).value
  }

  /** The upper price bound holds, or is absent, or does not parse. */
  predicate MaxPriceOk(parse: string -> Option<real>, p: Product, bound: string) {
    bound == "" || parse(bound).None? || BasePriceUnits(p) <= parse(bound).value
  }

  /** What a product must satisfy to be found, stated as one conjunction. */
  predicate Matches(lower: string -> string, parse: string -> Option<real>, ps: SearchParams, p: Product) {
    && p.isActive
    && (ps.q == "" || TextMatches(lower, p, ps.q))
    && (ps.category == "" || p.category.slug == ps.category)
    && MinPriceOk(parse, p, ps.minPrice)
    && MaxPriceOk(parse, p, ps.maxPrice)
  }

  /** `products = products.filter(...)` run only when `c` holds. */
  function FilterIf<T>(s: seq<T>, c: bool, p: T -> bool): seq<T> {
    if c then Filter(s, p) else s
  }

  /** The predicates the view's `.filter(...)` calls apply. */
  function IsActiveFilter(): Product -> bool {
    (p: Product) => p.isActive
  }

  function TextFilter(lower: string -> string, query: string): Product -> bool {
    (p: Product) => TextMatches(lower, p, query)
  }

  function CategoryFilter(slug: string): Product -> bool {
    (p: Product) => p.category.slug == slug
  }

  function MinPriceFilter(bound: real): Product -> bool {
    (p: Product) => BasePriceUnits(p) >= bound
  }

  function MaxPriceFilter(bound: real): Product -> bool {
    (p: Product) => BasePriceUnits(p) <= bound
  }

  /** `search_products`: the queryset rebound by one filter per non-empty parameter. */
  function SearchProducts(all: seq<Product>, ps: SearchParams, lower: string -> string, parse: string -> Option<real>): seq<Product> {
    var active := Filter(all, IsActiveFilter());
    var byText := FilterIf(active, ps.q != "", TextFilter(lower, ps.q));
    var byCategory := FilterIf(byText, ps.category != "", CategoryFilter(ps.category));
    var byMin := FilterIf(byCategory, ps.minPrice != "" && parse(ps.minPrice).Some?,
      MinPriceFilter(parse(ps.minPrice).GetOr(0.0)));
    FilterIf(byMin, ps.maxPrice != "" && parse(ps.maxPrice).Some?,
      MaxPriceFilter(parse(ps.maxPrice).GetOr(0.0)))
  }

  /** The predicate a conditional filter amounts to: `c` false, or `p`. */
  function Unless<T>(c: bool, p: T -> bool): T -> bool {
    x => !c || p(x)
  }

  lemma FilterIfSpec<T>(s: seq<T>, c: bool, p: T -> bool)
    ensures FilterIf(s, c, p) == Filter(s, Unless(c, p))
  {
    if c {
      FilterExt(s, p, Unless(c, p));
    } else {
      FilterAll(s, Unless(c, p));
    }
  }

  /** The search's conditions as one predicate. */
  function SearchFilter(lower: string -> string, parse: string -> Option<real>, ps: SearchParams): Product -> bool {
    (p: Product) => Matches(lower, parse, ps, p)
  }

  /** The filter chain is one filter by the conjunction of all the conditions. */
  lemma SearchIsConjunction(all: seq<Product>, ps: SearchParams, lower: string -> string, parse: string -> Option<real>)
    ensures SearchProducts(all, ps, lower, parse) == Filter(all, SearchFilter(lower, parse, ps))
  {
    var cq, cc := ps.q != "", ps.category != "";
    var cl, ch := ps.minPrice != "" && parse(ps.minPrice).Some?, ps.maxPrice != "" && parse(ps.maxPrice).Some?;
    var pq, pc := TextFilter(lower, ps.q), CategoryFilter(ps.category);
    var pl, ph := MinPriceFilter(parse(ps.minPrice).GetOr(0.0)), MaxPriceFilter(parse(ps.maxPrice).GetOr(0.0));
    var a := IsActiveFilter();

    var s1 := Filter(all, a);
    FilterIfSpec(s1, cq, pq);
    FilterFilter(all, a, Unless(cq, pq));
    var b2 := Both(a, Unless(cq, pq));
    var s2 := Filter(all, b2);
    FilterIfSpec(s2, cc, pc);
    FilterFilter(all, b2, Unless(cc, pc));
    var b3 := Both(b2, Unless(cc, pc));
    var s3 := Filter(all, b3);
    FilterIfSpec(s3, cl, pl);
    FilterFilter(all, b3, Unless(cl, pl));
    var b4 := Both(b3, Unless(cl, pl));
    var s4 := Filter(all, b4);
    FilterIfSpec(s4, ch, ph);
    FilterFilter(all, b4, Unless(ch, ph));
    var b5 := Both(b4, Unless(ch, ph));
    assert SearchProducts(all, ps, lower, parse) == Filter(all, b5);
    forall x: Product ensures b5(x) == SearchFilter(lower, parse, ps)(x) {
      assert b5(x) == (a(x) && Unless(cq, pq)(x) && Unless(cc, pc)(x) && Unless(cl, pl)(x) && Unless(ch, ph)(x));
      assert Unless(cl, pl)(x) == MinPriceOk(parse, x, ps.minPrice);
      assert Unless(ch, ph)(x) == MaxPriceOk(parse, x, ps.maxPrice);
    }
    FilterExt(all, b5, SearchFilter(lower, parse, ps));
  }

  /** A product is found exactly when it is one of the stored products and
      satisfies every condition. */
  lemma SearchMembership(all: seq<Product>, ps: SearchParams, lower: string -> string, parse: string -> Option<real>, p: Product)
    ensures p in SearchProducts(all, ps, lower, parse) <==> p in all && Matches(lower, parse, ps, p)
  {
    SearchIsConjunction(all, ps, lower, parse);
    var r := SearchProducts(all, ps, lower, parse);
    if p in all && Matches(lower, parse, ps, p) {
      var i :| 0 <= i < |all| && all[i] == p;
      assert all[i] in r;
    }
    if p in r {
      var i :| 0 <= i < |r| && r[i] == p;
    }
  }

  /** `more` sets every parameter `fewer` sets, to the same value. */
  predicate Narrows(more: SearchParams, fewer: SearchParams) {
    && (fewer.q == "" || fewer.q == more.q)
    && (fewer.category == "" || fewer.category == more.category)
    && (fewer.minPrice == "" || fewer.minPrice == more.minPrice)
    && (fewer.maxPrice == "" || fewer.maxPrice == more.maxPrice)
  }

  /** Adding parameters never enlarges the result: the narrower search
      returns a subsequence of the wider one, and every search returns a
      subsequence of the active products. */
  lemma SearchNarrowing(all: seq<Product>, more: SearchParams, fewer: SearchParams, lower: string -> string, parse: string -> Option<real>)
    requires Narrows(more, fewer)
    ensures IsSubseq(SearchProducts(all, more, lower, parse), SearchProducts(all, fewer, lower, parse))
    ensures IsSubseq(SearchProducts(all, more, lower, parse), Filter(all, IsActiveFilter()))
  {
    SearchIsConjunction(all, more, lower, parse);
    SearchIsConjunction(all, fewer, lower, parse);
    FilterMonotone(all, SearchFilter(lower, parse, more), SearchFilter(lower, parse, fewer));
    FilterMonotone(all, SearchFilter(lower, parse, more), IsActiveFilter());
  }

  /** The response of `product_variants`. */
  datatype VariantsResponse = VariantList(variants: seq<Variant>) | NotFound(status: nat, error: string)

  /** `product_variants`: the active variants of an active product, or a 404
      with `{'error': 'Product not found'}` when no active product has this id. */
  function ProductVariants(products: seq<Product>, variants: seq<Variant>, productId: nat): (r: VariantsResponse)
    ensures r.VariantList? <==> exists i :: 0 <= i < |products| && products[i].id == productId && products[i].isActive
    ensures r.NotFound? ==> r.status == 404 && r.error == "Product not found"
    ensures r.VariantList? ==>
      (forall i :: 0 <= i < |r.variants| ==> r.variants[i] in variants && r.variants[i].productId == productId && r.variants[i].isActive)
      && (forall k :: 0 <= k < |variants| && variants[k].productId == productId && variants[k].isActive ==> variants[k] in r.variants)
  {
    if exists i :: 0 <= i < |products| && products[i].id == productId && products[i].isActive then
      VariantList(Filter(variants, (v: Variant) => v.productId == productId && v.isActive))
    else
      NotFound(404, "Product not found")
  }

  /** The variant list keeps the stored order of the variants. */
  lemma ProductVariantsOrder(products: seq<Product>, variants: seq<Variant>, productId: nat)
    ensures ProductVariants(products, variants, productId).VariantList? ==>
      IsSubseq(ProductVariants(products, variants, productId).variants, variants)
  {
    FilterIsSubseq(variants, (v: Variant) => v.productId == productId && v.isActive);
  }
}
