/** The catalogue's Django models (products/models.py): categories,
    products, their size/colour variants and the values derived from them.
    Prices are integer cents. */
module Catalog {
  import opened Util
  import opened Text

  /** `ProductVariant.SIZE_CHOICES`, by stored value. */
  const SizeChoices: seq<string> := ["XS", "S", "M", "L", "XL", "XXL"]

  /** `ProductVariant.COLOR_CHOICES`, by stored value. */
  const ColorChoices: seq<string> :=
    ["black", "white", "red", "blue", "green", "yellow", "pink", "purple", "orange", "gray", "navy", "brown"]

  datatype Category = Category(id: nat, name: string, slug: string)

  datatype Product = Product(
    id: nat, name: string, slug: string, description: string, category: Category,
    basePrice: int, isActive: bool, featured: bool)

  datatype Variant = Variant(
    id: nat, productId: nat, size: string, color: string, sku: string,
    priceModifier: int, stock: nat, isActive: bool)

  /** The field validators: `base_price` has `MinValueValidator(0)`. */
  predicate ValidProduct(p: Product) {
    p.basePrice >= 0
  }

  /** The choice lists that `size` and `color` are drawn from. */
  predicate ValidVariant(v: Variant) {
    v.size in SizeChoices && v.color in ColorChoices
  }

  /** `ProductVariant.price`: the product's base price plus the variant's modifier. */
  function VariantPrice(p: Product, v: Variant): int {
    p.basePrice + v.priceModifier
  }

  /** `ProductVariant.is_in_stock`. */
  predicate IsInStock(v: Variant) {
    v.stock > 0
  }

  /** The key of `unique_together = ['product', 'size', 'color']`. */
  function VariantKey(v: Variant): (nat, string, string) {
    (v.productId, v.size, v.color)
  }

  /** The smallest price modifier of a non-empty list (SQL `MIN`). */
  function MinModifier(vs: seq<Variant>): (m: int)
    requires vs != []
    ensures forall i :: 0 <= i < |vs| ==> m <= vs[i].priceModifier
    ensures exists i :: 0 <= i < |vs| && m == vs[i].priceModifier
    decreases |vs|
  {
    if |vs| == 1 then vs[0].priceModifier
    else
      var rest := MinModifier(vs[1..]);
      if vs[0].priceModifier <= rest then vs[0].priceModifier else rest
  }

  /** The largest price modifier of a non-empty list (SQL `MAX`). */
  function MaxModifier(vs: seq<Variant>): (m: int)
    requires vs != []
    ensures forall i :: 0 <= i < |vs| ==> vs[i].priceModifier <= m
    ensures exists i :: 0 <= i < |vs| && m == vs[i].priceModifier
    decreases |vs|
  {
    if |vs| == 1 then vs[0].priceModifier
    else
      var rest := MaxModifier(vs[1..]);
      if vs[0].priceModifier >= rest then vs[0].priceModifier else rest
  }

  /** `Product.min_price` over the product's variants `vs`: the aggregate is
      `None` without variants, and `None or 0` is 0. */
  function MinPrice(p: Product, vs: seq<Variant>): (r: int)
    ensures vs == [] ==> r == p.basePrice
    ensures forall i :: 0 <= i < |vs| ==> r <= VariantPrice(p, vs[i])
    ensures vs != [] ==> exists i :: 0 <= i < |vs| && r == VariantPrice(p, vs[i])
  {
    p.basePrice + (if vs == [] then 0 else MinModifier(vs))
  }

  /** `Product.max_price`, symmetrically. */
  function MaxPrice(p: Product, vs: seq<Variant>): (r: int)
    ensures vs == [] ==> r == p.basePrice
    ensures forall i :: 0 <= i < |vs| ==> VariantPrice(p, vs[i]) <= r
    ensures vs != [] ==> exists i :: 0 <= i < |vs| && r == VariantPrice(p, vs[i])
  {
    p.basePrice + (if vs == [] then 0 else MaxModifier(vs))
  }

  /** The price range shown for a product is never inverted. */
  lemma MinPriceAtMostMaxPrice(p: Product, vs: seq<Variant>)
    ensures MinPrice(p, vs) <= MaxPrice(p, vs)
  {
    if vs != [] {
      assert MinPrice(p, vs) <= VariantPrice(p, vs[0]) <= MaxPrice(p, vs);
    }
  }

  function SizesOf(vs: seq<Variant>): (r: seq<string>)
    ensures |r| == |vs| && forall i :: 0 <= i < |vs| ==> r[i] == vs[i].size
  {
    seq(|vs|, i requires 0 <= i < |vs| => vs[i].size)
  }

  function ColorsOf(vs: seq<Variant>): (r: seq<string>)
    ensures |r| == |vs| && forall i :: 0 <= i < |vs| ==> r[i] == vs[i].color
  {
    seq(|vs|, i requires 0 <= i < |vs| => vs[i].color)
  }

  /** The row `values_list(...).distinct()` compares. `Meta.ordering =
      ['size', 'color']` adds both ordering columns to the `SELECT
      DISTINCT`, so whichever of the two is asked for, rows are distinct by
      (size, colour). */
  function SizeColor(v: Variant): (string, string) {
    (v.size, v.color)
  }

  function SizePart(row: (string, string)): string {
    row.0
  }

  function ColorPart(row: (string, string)): string {
    row.1
  }

  /** The distinct (size, colour) rows of the variants, in the order given. */
  function DistinctRows(vs: seq<Variant>): seq<(string, string)> {
    Dedup(Map(vs, SizeColor))
  }

  /** `Product.available_sizes`: the size of each distinct (size, colour)
      row of the product's variants. A size held in two colours is listed
      twice. */
  function AvailableSizes(vs: seq<Variant>): (r: seq<string>)
    ensures |r| == |DistinctRows(vs)|
    ensures forall i :: 0 <= i < |r| ==> exists k :: 0 <= k < |vs| && vs[k].size == r[i]
    ensures forall k :: 0 <= k < |vs| ==> vs[k].size in r
  {
    DistinctKeysProjected(vs, SizeColor, SizePart);
    Map(DistinctRows(vs), SizePart)
  }

  /** `Product.available_colors`: the colour of each distinct (size,
      colour) row of the product's variants. A colour held in two sizes is
      listed twice. */
  function AvailableColors(vs: seq<Variant>): (r: seq<string>)
    ensures |r| == |DistinctRows(vs)|
    ensures forall i :: 0 <= i < |r| ==> exists k :: 0 <= k < |vs| && vs[k].color == r[i]
    ensures forall k :: 0 <= k < |vs| ==> vs[k].color in r
  {
    DistinctKeysProjected(vs, SizeColor, ColorPart);
    Map(DistinctRows(vs), ColorPart)
  }

  /** Under `unique_together = ['product', 'size', 'color']` every variant
      of one product is its own distinct row, so the lists hold one entry
      per variant: the sizes and the colours of all the variants. */
  lemma AvailableOnePerVariant(pid: nat, vs: seq<Variant>)
    requires forall k :: 0 <= k < |vs| ==> vs[k].productId == pid
    requires KeysUnique(vs, VariantKey)
    ensures AvailableSizes(vs) == SizesOf(vs)
    ensures AvailableColors(vs) == ColorsOf(vs)
  {
    var m := Map(vs, SizeColor);
    forall i, j | 0 <= i < j < |m| ensures m[i] != m[j] {
      assert VariantKey(vs[i]) != VariantKey(vs[j]);
    }
    DedupAfterDistinct(m, {});
    assert DistinctRows(vs) == m;
  }

  /** Two variants of one product in the same size both show that size:
      the sizes list is not free of duplicates. */
  lemma SharedSizeRepeats(pid: nat, vs: seq<Variant>, i: nat, j: nat)
    requires forall k :: 0 <= k < |vs| ==> vs[k].productId == pid
    requires KeysUnique(vs, VariantKey)
    requires i < j < |vs| && vs[i].size == vs[j].size
    ensures |AvailableSizes(vs)| == |vs|
    ensures AvailableSizes(vs)[i] == AvailableSizes(vs)[j] == vs[i].size
    ensures !NoDups(AvailableSizes(vs))
  {
    AvailableOnePerVariant(pid, vs);
    NotDistinct(SizesOf(vs), i, j);
  }

  /** Sizes and colours drawn from the choice lists stay within them once
      collected: every available size and colour is a valid choice. */
  lemma AvailableValuesAreChoices(vs: seq<Variant>)
    requires forall k :: 0 <= k < |vs| ==> ValidVariant(vs[k])
    ensures forall i :: 0 <= i < |AvailableSizes(vs)| ==> AvailableSizes(vs)[i] in SizeChoices
    ensures forall i :: 0 <= i < |AvailableColors(vs)| ==> AvailableColors(vs)[i] in ColorChoices
  {
  }

  /** Saving a variant: the database refuses a second variant with the same
      product, size and colour. */
  function InsertVariant(rows: seq<Variant>, v: Variant): Option<seq<Variant>> {
    InsertUnique(rows, v, VariantKey)
  }

  /** Inserting keeps (product, size, colour) unique, and is refused exactly
      when the combination already exists. */
  lemma InsertVariantKeepsUnique(rows: seq<Variant>, v: Variant)
    requires KeysUnique(rows, VariantKey)
    ensures InsertVariant(rows, v).Some? ==> KeysUnique(InsertVariant(rows, v).value, VariantKey)
    ensures InsertVariant(rows, v).None? <==>
      exists i :: 0 <= i < |rows| && rows[i].productId == v.productId && rows[i].size == v.size && rows[i].color == v.color
  {
  }

  /** The index of the last `.` in `s`, or -1 when there is none. */
  function LastDot(s: string): (k: int)
    ensures -1 <= k < |s|
    ensures k >= 0 ==> s[k] == '.'
    ensures forall j :: k < j < |s| ==> s[j] != '.'
    decreases |s|
  {
    if s == [] then -1
    else if s[|s| - 1] == '.' then |s| - 1
    else LastDot(s[..|s| - 1])
  }

  /** The text after the last `.` of `s`, all of `s` when it has no `.`:
      Python `s.split('.')[-1]`. */
  function AfterLastDot(s: string): string {
    s[LastDot(s) + 1..]
  }

  /** `product_image_path`: the upload is stored under `products/` with a
      fresh name (`uuid`, the text of a new uuid4) and the original extension. */
  function ProductImagePath(filename: string, uuid: string): string {
    "products/" + uuid + "." + AfterLastDot(filename)
  }

  /** The extension kept is the last dot-separated piece of the uploaded
      name: it has no `.`, it follows a `.` of the name, and it is the whole
      name when the name has no `.`. */
  lemma AfterLastDotSpec(filename: string)
    ensures '.' !in AfterLastDot(filename)
    ensures '.' !in filename ==> AfterLastDot(filename) == filename
    ensures '.' in filename ==>
      exists k :: 0 <= k < |filename| && filename[k] == '.' && filename[k + 1..] == AfterLastDot(filename)
  {
    var k := LastDot(filename);
    var ext := filename[k + 1..];
    assert ext == AfterLastDot(filename);
    forall j | 0 <= j < |ext| ensures ext[j] != '.' {
      assert ext[j] == filename[k + 1 + j];
    }
    if k < 0 {
      assert ext == filename;
    } else {
      assert filename[k] == '.';
    }
  }

  /** The stored path lies under `products/`, and splitting it at its last
      `.` gives back the two things it was built from: the fresh name under
      `products/` and the extension of the uploaded name. */
  lemma ProductImagePathSpec(filename: string, uuid: string)
    ensures var path := ProductImagePath(filename, uuid);
      StartsWith(path, "products/")
      && AfterLastDot(path) == AfterLastDot(filename)
      && path[..LastDot(path)] == "products/" + uuid
  {
    var path := ProductImagePath(filename, uuid);
    var stem := "products/" + uuid + ".";
    var ext := AfterLastDot(filename);
    assert path == stem + ext;
    assert path[..9] == "products/";
    AfterLastDotSpec(filename);
    var k := LastDot(path);
    assert path[|stem| - 1] == '.';
    forall j | |stem| <= j < |path| ensures path[j] != '.' {
      assert path[j] == ext[j - |stem|];
    }
    assert k == |stem| - 1;
    assert path[k + 1..] == ext;
    assert path[..k] == "products/" + uuid;
  }
}
