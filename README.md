# TeenTops storefront: a verified model of its core

TeenTops is a small clothing shop. It has a Django REST back end (products with
size/colour variants, orders, reviews) and a React storefront. The storefront
covers the product grid and tiles, the product dialog, the cart panel, the
three-step checkout dialog and the application shell. This project models
that core in Dafny and proves what each part promises.

Back end, as values and functions:
- `Catalog` (products/models.py) covers prices derived from variants, the
  available sizes and colours (one entry per distinct size/colour row), the `(product, size, colour)` uniqueness rule
  and the upload path of product images.
- `Search` (products/views.py) covers the advanced search and the per-product
  variant list.
- `Orders` (orders/models.py) covers the full address, item totals and the
  phone validator's regular expression.
- `Reviews` (reviews/models.py) covers the star rendering, moderation
  defaults and one review per customer and product.
- `OrderCreation` (orders/serializers.py) covers `OrderSerializer.create`:
  - a reference function `Run`/`Step` over a ledger;
  - a `Database` class whose `Create` loop is proved equal to it;
  - lemmas on stock accounting, totals, uniqueness of item rows and the
    absence of rollback.

Front end, as classes where components keep state:
- `Shapes` holds the JSON shapes and the cart store, seen as the list of
  calls made on it.
- `Language` holds the `t` lookup.
- `Checkout` is the checkout dialog: validation, total, phone normaliser,
  payload and the three steps.
- `ProductDialog` is the product dialog: variant resolution, image strip,
  quantity and proceed.
- `CartPanel` is the cart panel.
- `Card` is the product tile.
- `Grid` is the product grid: request parameters, search, load more.
- `Storefront` is App.jsx: category chips, the legacy checkout page,
  checkout-item enrichment, `onProceed` and the product click.

Conventions:
- A component's state is a class's fields.
- An event handler is a method. The method receives the settled outcome of
  each API call it awaits as a parameter (`ApiResult`), so network, timing and
  rendering stay outside the model.
- Prices are integer cents.
- JavaScript `undefined`/`null` is `None`.

Several cross-layer lemmas connect the two sides:
- The normalised phone is checked against the back end's validator.
- A line without a variant id is checked against `create`.
- The grid's category value is checked against the search view's slug filter.

Where the code and its own comments disagree, the model follows the code:
- The comment in `normalizePhone` (CheckoutModal.jsx:101) promises to keep
  the leading `+` and strip the other non-digits. The replace on line 102
  already keeps a typed `+`, and lines 103-105 then put another in front.
  `Checkout.NormalizePlusDoubles` proves that the result starts with `++`
  and that the back end's validator refuses it.
- The same replace keeps whatever the first character is, not only a `+`.

## Model

| member | source | states |
|---|---|---|
| Catalog.MinPrice | products/models.py:59-62 | base price without variants; otherwise at most every variant price and equal to one of them |
| Catalog.MaxPrice | products/models.py:65-68 | base price without variants; otherwise at least every variant price and equal to one of them |
| Catalog.MinPriceAtMostMaxPrice | products/models.py:59-68 | the price range is never inverted |
| Catalog.AvailableSizes | products/models.py:49-51 | one entry per distinct (size, colour) row; every entry is a variant's size and every variant's size is listed |
| Catalog.AvailableColors | products/models.py:54-56 | one entry per distinct (size, colour) row; every entry is a variant's colour and every variant's colour is listed |
| Catalog.AvailableOnePerVariant | products/models.py:49-56 | under the (product, size, colour) uniqueness the lists are the sizes and the colours of all the variants, one per variant |
| Catalog.SharedSizeRepeats | products/models.py:49-51 | two variants of one size list that size twice, so the list has duplicates |
| Catalog.AvailableValuesAreChoices | products/models.py:85-111 | variants drawn from the choice lists give available sizes and colours within those lists |
| Catalog.InsertVariantKeepsUnique | products/models.py:118-119 | an accepted insert keeps (product, size, colour) unique; refused iff the combination exists |
| Catalog.AfterLastDotSpec | products/models.py:8 | the kept extension has no dot, follows the last dot, or is the whole name without one |
| Catalog.ProductImagePathSpec | products/models.py:6-10 | the path lies under `products/`; its text after the last `.` is the upload's extension, and before it the fresh name |
| Search.SearchIsConjunction | products/views.py:66-100 | the chain of conditional filters equals one filter by the conjunction of all conditions |
| Search.SearchMembership | products/views.py:74-96 | a product is found iff it is stored, active, and meets text, slug and parseable price bounds |
| Search.SearchNarrowing | products/views.py:76-96 | more parameters give a subsequence of the wider result and of the active products |
| Search.ProductVariants | products/views.py:55-64 | the active variants of the product iff an active product has the id; otherwise 404 with the error text |
| Search.ProductVariantsOrder | products/views.py:60 | the variant list keeps the stored order |
| Orders.DefaultStatusIsAChoice | orders/models.py:35 | the default status `pending` is the first status choice |
| Orders.FullAddressEmpty | orders/models.py:50-60 | the address is empty iff every part is; otherwise it starts with the first line when present |
| Orders.FullAddressSkipsEmptyLine | orders/models.py:50-60 | an empty second line leaves no doubled separator |
| Orders.FullAddressAllParts | orders/models.py:50-60 | with every part present the address is the six parts joined by `, ` |
| Orders.TotalItemsAdd | orders/models.py:63-65 | adding an item row raises `total_items` by its quantity iff it belongs to the order |
| Orders.SumItemTotalsAppend | orders/models.py:80-82 | the sum of item totals is additive over concatenation |
| Orders.SumItemTotalsNonNegative | orders/models.py:80-82 | non-negative prices and quantities give a non-negative total |
| Orders.ClassRunToEndIff | orders/models.py:23 | the regex tail accepts 7 to 20 class characters, or 21 ending in a newline |
| Orders.DoublePlusRejected | orders/models.py:23 | text starting with `++` never matches the phone regex |
| Orders.DigitsAccepted | orders/models.py:23 | an optional `+` and 7 to 20 digits match |
| Orders.PhoneFieldLength | orders/models.py:21-24 | an accepted phone field has 7 to 20 characters |
| Reviews.NewReview | reviews/models.py:15-16 | a new review is approved and not featured |
| Reviews.StarDisplayValid | reviews/models.py:28-30 | for ratings 1 to 5: five stars, the first `rating` filled |
| Reviews.StarDisplayCounts | reviews/models.py:28-30 | filled stars count the rating, empty ones the rest |
| Reviews.StarDisplayOutOfRange | reviews/models.py:28-30 | above 5 only filled stars, `rating` of them; below 1 only empty stars, `5 - rating` of them |
| Reviews.SecondAnonymousReviewRefused | reviews/models.py:22 | two blank-email reviews of one product collide |
| Reviews.InsertReviewKeepsUnique | reviews/models.py:22 | accepted inserts keep (product, email) unique; refused iff the pair exists |
| OrderCreation.Run | orders/serializers.py:43-63 | the loop keeps every variant linked to its product |
| OrderCreation.StepDone | orders/serializers.py:45-57 | an accepted line saves one item at the current price, takes exactly its quantity from stock and grows the total |
| OrderCreation.StepFailed | orders/serializers.py:44-63 | errors in the code's order: missing id key, unknown variant, missing quantity, short stock, constraint; state unchanged |
| OrderCreation.RunCatalogue | orders/serializers.py:56-57 | only stock changes in the variants table |
| OrderCreation.RunDoneTotal | orders/serializers.py:42-53 | one item per request after the old ones; total = old total + Σ price × quantity |
| OrderCreation.RunDoneItems | orders/serializers.py:47-52 | new items follow the requests in order, for this order, at the starting price |
| OrderCreation.RunStock | orders/serializers.py:46-57 | each variant's stock drops by exactly the quantity requested for it |
| OrderCreation.SoldOut | products/models.py:131-133 | after the order a variant is in stock iff less than its stock was requested |
| OrderCreation.RunStaysFailed | orders/serializers.py:58-63 | after a failure later lines are never processed |
| OrderCreation.RunFailed | orders/serializers.py:40-63 | a failure leaves exactly the state of the lines before it (no rollback) |
| OrderCreation.RunKeepsItemsValid | orders/serializers.py:47-52 | item rows stay unique per (order, variant) with non-negative quantities |
| OrderCreation.DuplicateVariantFails | orders/serializers.py:43-57 | the same variant twice in one order always fails |
| OrderCreation.NewOrder | orders/serializers.py:39-40 | the row keeps its key, the total and the phone |
| OrderCreation.NewOrderDefaults | orders/models.py:32-35 | without status and country: pending, Pakistan |
| OrderCreation.StepAccepted | orders/serializers.py:46-57 | the accepted branch as the loop performs it |
| OrderCreation.Database.constructor | orders/models.py:67-74 | an empty database over linked catalogue tables |
| OrderCreation.Database.ProcessLine | orders/serializers.py:44-63 | one loop body, equal to `Step` on the old state |
| OrderCreation.Database.Create | orders/serializers.py:35-67 | the order row first, variants and items as `Run` leaves them, the total written only on success |
| Language.T | teentops-frontend/src/App.jsx:300 | the translation when present, else the key itself |
| Shapes.OrElse | teentops-frontend/src/App.jsx:322 | `x \|\| d` on numbers: the value when truthy, else the default |
| Shapes.TextOrElse | teentops-frontend/src/App.jsx:870-877 | `s \|\| d` on strings: the text when non-empty, else the default |
| Shapes.CartStore.Dispatch | teentops-frontend/src/components/Cart.jsx:18-24 | the call is appended to the store's calls |
| Text.BlankIffTrimEmpty | teentops-frontend/src/components/CheckoutModal.jsx:44-70 | `!s.trim()` holds iff the text is only whitespace |
| Checkout.WithSpec | teentops-frontend/src/components/CheckoutModal.jsx:76-80 | setting a field changes that field and no other |
| Checkout.ValidationAt | teentops-frontend/src/components/CheckoutModal.jsx:41-74 | a field has an error iff it is required and blank; its message is translated |
| Checkout.ValidationSpec | teentops-frontend/src/components/CheckoutModal.jsx:41-74 | no errors iff no required field is blank; optional fields never get errors |
| Checkout.UntranslatedMessageShowsKey | teentops-frontend/src/components/CheckoutModal.jsx:68-70 | a missing translation shows the key itself |
| Checkout.CollectErrors | teentops-frontend/src/components/CheckoutModal.jsx:42-73 | the seven checks in order give the validation errors |
| Checkout.CheckField | teentops-frontend/src/components/CheckoutModal.jsx:44-46 | one check: the error map with this field's message iff blank |
| Checkout.CalculateTotalSpec | teentops-frontend/src/components/CheckoutModal.jsx:35-39 | the reduce is Σ price × quantity: 0 for no lines, additive per line |
| Checkout.StripLaterNonDigits | teentops-frontend/src/components/CheckoutModal.jsx:102 | the replace keeps the first character and later digits |
| Checkout.FirstThenDigitsSpec | teentops-frontend/src/components/CheckoutModal.jsx:102 | without a leading `+`, the digits are kept and no `+` appears |
| Checkout.NormalizeStepsSpec | teentops-frontend/src/components/CheckoutModal.jsx:103-110 | the two later reassignments equal the case-split reference |
| Checkout.NormalizePhone | teentops-frontend/src/components/CheckoutModal.jsx:99-112 | the handler's result equals the reference normaliser |
| Checkout.NormalizeBlank | teentops-frontend/src/components/CheckoutModal.jsx:100-101 | no input or a blank one normalises to `""` |
| Checkout.NormalizePlusDoubles | teentops-frontend/src/components/CheckoutModal.jsx:103-105 | a typed `+` becomes `++`, which the back-end validator refuses |
| Checkout.NormalizeKeepsFirst | teentops-frontend/src/components/CheckoutModal.jsx:102 | otherwise the first character stays and only digits follow |
| Checkout.NormalizeLocalNumber | teentops-frontend/src/components/CheckoutModal.jsx:106-110 | eight digits get `+216` and pass the back-end validator |
| Checkout.ItemRequests | teentops-frontend/src/components/CheckoutModal.jsx:118-125 | one `{product_variant_id, quantity}` per line, in order |
| Checkout.SubmittedOrderFields | teentops-frontend/src/components/CheckoutModal.jsx:118-125 | the saved order keeps the client's country and phone and starts pending |
| Checkout.LineWithoutVariantIdRefused | teentops-frontend/src/components/CheckoutModal.jsx:121-124 | a first line without a variant id makes `create` fail on the missing key |
| Checkout.CheckoutModal.constructor | teentops-frontend/src/components/CheckoutModal.jsx:14-23 | step 1, the initial form (country Tunisia), no errors |
| Checkout.CheckoutModal.ValidateForm | teentops-frontend/src/components/CheckoutModal.jsx:41-74 | errors replaced by the validation errors; ok iff none |
| Checkout.CheckoutModal.HandleInputChange | teentops-frontend/src/components/CheckoutModal.jsx:76-89 | the field takes the value; its shown error is blanked |
| Checkout.CheckoutModal.HandleNext | teentops-frontend/src/components/CheckoutModal.jsx:91-97 | at step 1, validate and go to step 2 iff no errors; otherwise nothing |
| Checkout.CheckoutModal.Back | teentops-frontend/src/components/CheckoutModal.jsx:482 | back to step 1, the form intact |
| Checkout.CheckoutModal.HandleSubmitOrder | teentops-frontend/src/components/CheckoutModal.jsx:114-142 | payload with the normalised phone; success: step 3 and the cart cleared; failure: an alert with the message or fallback |
| Checkout.CheckoutModal.HandleClose | teentops-frontend/src/components/CheckoutModal.jsx:144-162 | everything reset; the completion callback, then close |
| Checkout.CheckoutModal.RequestClose | teentops-frontend/src/components/CheckoutModal.jsx:171 | backdrop and header close do nothing at step 3, otherwise close |
| ProductDialog.FindVariant | teentops-frontend/src/components/ProductModal.jsx:27-29 | some iff a variant fits; then the first fitting one |
| ProductDialog.FilteredImagesSpec | teentops-frontend/src/components/ProductModal.jsx:64-76 | no images: empty; a colour: in order, exactly the images of that colour or of none; else all |
| ProductDialog.AvailableColorsSpec | teentops-frontend/src/components/ProductModal.jsx:96-102 | distinct; exactly the colours of the size's variants |
| ProductDialog.AvailableSizesSpec | teentops-frontend/src/components/ProductModal.jsx:104-110 | distinct; exactly the sizes of the colour's variants |
| ProductDialog.AvailabilityAgrees | teentops-frontend/src/components/ProductModal.jsx:96-110 | colour offered for a size iff size offered for the colour iff the pair resolves |
| ProductDialog.ImageNavigation | teentops-frontend/src/components/ProductModal.jsx:174-188 | the arrows stay in range, wrap at the ends and undo each other |
| ProductDialog.NextPastTheEnd | teentops-frontend/src/components/ProductModal.jsx:186-188 | an index past the strip keeps counting up |
| ProductDialog.ProceedEnabledIff | teentops-frontend/src/components/ProductModal.jsx:361 | Proceed enabled iff the first fitting variant exists with non-zero stock |
| ProductDialog.Decrement | teentops-frontend/src/components/ProductModal.jsx:323 | never below one; one less above one |
| ProductDialog.ProductModal.constructor | teentops-frontend/src/components/ProductModal.jsx:9-15 | nothing chosen, quantity 1, first image |
| ProductDialog.ProductModal.ResolveVariant | teentops-frontend/src/components/ProductModal.jsx:25-32 | with details and both choices: the first fitting variant; otherwise unchanged |
| ProductDialog.ProductModal.ColorChanged | teentops-frontend/src/components/ProductModal.jsx:35-39 | a new non-empty colour shows the first image |
| ProductDialog.ProductModal.SelectSize | teentops-frontend/src/components/ProductModal.jsx:280 | the size is set and the variant re-resolved |
| ProductDialog.ProductModal.SelectColor | teentops-frontend/src/components/ProductModal.jsx:302 | the colour is set, the index reset on change, the variant re-resolved |
| ProductDialog.ProductModal.LoadProductDetails | teentops-frontend/src/components/ProductModal.jsx:41-61 | no slug: nothing; success: details and first size/colour as defaults; failure: only loading ends |
| ProductDialog.ProductModal.PreviousImage | teentops-frontend/src/components/ProductModal.jsx:174-176 | the index moves back, wrapping |
| ProductDialog.ProductModal.NextImage | teentops-frontend/src/components/ProductModal.jsx:186-188 | the index moves on, wrapping |
| ProductDialog.ProductModal.SelectImage | teentops-frontend/src/components/ProductModal.jsx:208 | the thumbnail's index is shown |
| ProductDialog.ProductModal.DecreaseQuantity | teentops-frontend/src/components/ProductModal.jsx:323 | the quantity becomes `Decrement` of it |
| ProductDialog.ProductModal.IncreaseQuantity | teentops-frontend/src/components/ProductModal.jsx:334 | the quantity grows by one |
| ProductDialog.ProductModal.HandleProceed | teentops-frontend/src/components/ProductModal.jsx:78-87 | with a variant and details: hand on or add to cart, then close; otherwise nothing |
| CartPanel.QuantityChangeCall | teentops-frontend/src/components/Cart.jsx:18-24 | remove iff the new quantity is below one; else update to it |
| CartPanel.HandleQuantityChange | teentops-frontend/src/components/Cart.jsx:18-24 | exactly one call on the store |
| CartPanel.Minus | teentops-frontend/src/components/Cart.jsx:107 | the quantity change for one less |
| CartPanel.Plus | teentops-frontend/src/components/Cart.jsx:118 | the quantity change for one more |
| CartPanel.Remove | teentops-frontend/src/components/Cart.jsx:129 | a remove keyed by the variant id |
| CartPanel.Clear | teentops-frontend/src/components/Cart.jsx:143 | one clear call |
| CartPanel.MinusAtOneRemoves | teentops-frontend/src/components/Cart.jsx:107 | minus at one removes the line; above one it lowers the quantity |
| CartPanel.PlusUpdates | teentops-frontend/src/components/Cart.jsx:118 | plus always updates |
| CartPanel.LineCallsKeyedByVariant | teentops-frontend/src/components/Cart.jsx:107-129 | every per-line call is keyed by the line's variant id |
| CartPanel.HandleCheckout | teentops-frontend/src/components/Cart.jsx:26-29 | `onCheckout(items)` then `onClose()` |
| Card.FirstVariant | teentops-frontend/src/components/ProductCard.jsx:17 | the first variant iff the list is present and non-empty |
| Card.QuickAddDisabledIff | teentops-frontend/src/components/ProductCard.jsx:90 | quick add disabled iff there is no first variant |
| Card.PriceLabel | teentops-frontend/src/components/ProductCard.jsx:122-130 | one amount iff min equals max; otherwise the range |
| Card.SizesPreview | teentops-frontend/src/components/ProductCard.jsx:141-152 | none without sizes; the first four, and `+k` iff more, with shown + k = all |
| Card.ProductCard.constructor | teentops-frontend/src/components/ProductCard.jsx:8-9 | not liked, no image error |
| Card.ProductCard.ImageUrl | teentops-frontend/src/components/ProductCard.jsx:35-40 | the main image iff present, non-empty and not failed |
| Card.ProductCard.ImageFailed | teentops-frontend/src/components/ProductCard.jsx:54 | afterwards no image URL |
| Card.ProductCard.HandleLike | teentops-frontend/src/components/ProductCard.jsx:23-26 | the like flag flips |
| Card.ProductCard.HandleAddToCart | teentops-frontend/src/components/ProductCard.jsx:13-21 | one unit of the first variant, or no call |
| Grid.Ordering | teentops-frontend/src/components/ProductGrid.jsx:27 | price sorts map to `base_price`/`-base_price`, everything else to `-created_at` |
| Grid.NameSortIsNewestFirst | teentops-frontend/src/components/ProductGrid.jsx:27 | the name sort is sent as newest first |
| Grid.LoadParams | teentops-frontend/src/components/ProductGrid.jsx:25-32 | ordering first; a category parameter iff one is selected |
| Grid.ShowLoadMoreIff | teentops-frontend/src/components/ProductGrid.jsx:212 | load more shows iff the count is a positive multiple of 12 |
| Grid.ProductGrid.constructor | teentops-frontend/src/components/ProductGrid.jsx:9-14 | empty lists, loading, newest first, no category or query |
| Grid.ProductGrid.LoadProducts | teentops-frontend/src/components/ProductGrid.jsx:23-42 | the request from sort and category; the answer's list or none |
| Grid.ProductGrid.LoadCategories | teentops-frontend/src/components/ProductGrid.jsx:44-52 | the answer's categories or none |
| Grid.ProductGrid.SelectCategory | teentops-frontend/src/components/ProductGrid.jsx:140-146 | the category is set and both lists are reloaded |
| Grid.ProductGrid.SelectSort | teentops-frontend/src/components/ProductGrid.jsx:159-162 | the sort is set and both lists are reloaded |
| Grid.ProductGrid.HandleSearch | teentops-frontend/src/components/ProductGrid.jsx:54-72 | a blank query reloads the list; otherwise the untrimmed query is searched with the category |
| Grid.SearchWithCategoryIdFindsNothing | teentops-frontend/src/lib/api.js:48-52 | the category id sent as a slug finds nothing when no slug equals it |
| Grid.SearchWithoutCategory | teentops-frontend/src/lib/api.js:48-52 | an empty category applies no category filter |
| Storefront.CategoriesSpec | teentops-frontend/src/App.jsx:711 | `all` first, then each product's chip once; non-text categories give `other` |
| Storefront.CategoryNamedAllRepeats | teentops-frontend/src/App.jsx:711 | a category named `all` gives a second `all` chip |
| Storefront.FilteredProductsSpec | teentops-frontend/src/App.jsx:712-714 | `all` shows everything; any other chip shows exactly its products, in order |
| Storefront.OtherChipHidesItsProducts | teentops-frontend/src/App.jsx:711-714 | products under the `other` chip appear only under `all` |
| Storefront.CategoryLabel | teentops-frontend/src/App.jsx:748-750 | first letter upper-cased, else `Autres`/`أخرى` |
| Storefront.CategoryLabelSpec | teentops-frontend/src/App.jsx:748-750 | the tail is kept, and fallbacks are never empty |
| Storefront.LegacyTotalIgnoresQuantity | teentops-frontend/src/App.jsx:322 | the legacy total does not depend on quantities |
| Storefront.LegacyTotalUndercounts | teentops-frontend/src/App.jsx:322 | a priced entry counts its price once for any quantity, below price × quantity once the quantity exceeds one |
| Storefront.PlaceOrderItem | teentops-frontend/src/App.jsx:331-344 | the quantity is never 0; `product_variant_id` is missing only when the entry has no variant id, no fetched variant and no id |
| Storefront.PlaceOrderItems | teentops-frontend/src/App.jsx:329-345 | one item per entry, in order |
| Storefront.LastResortSendsProductId | teentops-frontend/src/App.jsx:343-344 | as a first line, the product id sent as variant id is refused as an unknown variant unless a variant has that key, and then orders that variant; no id gives the missing-key refusal |
| Storefront.ResolvedLineQuantity | teentops-frontend/src/App.jsx:331-332 | an entry with a variant id asks for that variant, with its truthy quantity or else 1, never 0 |
| Storefront.CheckoutPage.constructor | teentops-frontend/src/App.jsx:308-320 | not loading, no error |
| Storefront.CheckoutPage.PlaceOrder | teentops-frontend/src/App.jsx:324-360 | the items; success clears the cart, confirms and closes; failure shows the error |
| Storefront.Enrich | teentops-frontend/src/App.jsx:898-916 | a complete entry kept; otherwise rebuilt with one unit from the first fetched variant or the entry |
| Storefront.EnrichAll | teentops-frontend/src/App.jsx:898-916 | one line per entry, in order |
| Storefront.UnresolvedEntryRefused | teentops-frontend/src/App.jsx:911-915 | an entry with nothing to resolve makes the back end refuse the order |
| Storefront.ProceedLine | teentops-frontend/src/App.jsx:1074-1080 | the name, no main image, the variant's fields, `quantity \|\| 1` |
| Storefront.ClickSlug | teentops-frontend/src/App.jsx:874 | the slug when non-empty, else the id as text |
| Storefront.ClickSlugNonEmpty | teentops-frontend/src/App.jsx:874 | the slug sent is never empty |
| Storefront.Shell.constructor | teentops-frontend/src/App.jsx:860-887 | no dialog, no direct checkout, no checkout items |
| Storefront.Shell.HandleProductClick | teentops-frontend/src/App.jsx:870-877 | the dialog opens on the product with its click slug |
| Storefront.Shell.LoadVariantsIfNeeded | teentops-frontend/src/App.jsx:887-920 | off the checkout route nothing; a direct selection wins; else the enriched cart |
| Storefront.Shell.OnProceed | teentops-frontend/src/App.jsx:1072-1083 | a one-line direct checkout, dialog closed, checkout route, checkout items that one line |

## Left out

- Network, timers, rendering, routing by URL hash, `alert`, and the React
  effect scheduler. Each handler receives the settled outcome of its requests
  as a parameter. An effect is modelled as running after every change it
  depends on. The loading flag is modelled only through its final value.
- The cart store's own semantics (`CartContext`, including `getCartTotal`)
  are not part of this model. The store is the list of calls made on it.
- The order in which `Promise.all` resolves its requests: each result is
  given per entry.
- Unicode: `\d` is read as ASCII digits (Python's `\d` accepts more digits).
  Lengths count code points, not UTF-16 code units. Case-insensitive search
  and `toUpperCase` go through an arbitrary function parameter.
- Python `float(...)` parsing is a parameter. Decimal fields are integer
  cents.
- Catalog.AvailableSizes, Catalog.AvailableColors: the program returns the
  rows sorted by (size, colour) under `Meta.ordering`, in the database's
  collation. The model keeps the order the variants are given in. Their
  duplicates are modelled: one entry per distinct (size, colour) row.
- The ordering of querysets (`-created_at`, image `order`) and pagination
  are left out. The grid only builds the `ordering` parameter.
- The product main image lookup (`Product.main_image`) and the DRF
  serializers' field lists are left out. The list serializer sends no
  variants or available sizes, so the tile's quick-add is always disabled
  and its size preview never shows. The detail serializer sends no main
  image, which is why `Storefront.ProceedLine` has none.
- `getAvailableColors`/`getAvailableSizes` are defined in ProductModal.jsx
  but the buttons render `available_sizes`/`available_colors` from the
  response. The model proves the helpers' properties and lets the buttons
  take any value.
- ProductDialog.ProductModal.Valid: does not keep the image index inside the
  strip. A change to a non-empty colour resets the index to 0, but the
  dialog stays mounted across products, and `loadProductDetails` does not
  reset it. When the next product's default colour is the one already
  chosen, or it has no colours, the colour effect does not run and the old
  index outlives the shorter strip (see `ProductDialog.NextPastTheEnd`).
- The legacy `CheckoutPage` and `ModernProductGrid` in App.jsx are not
  rendered anywhere. `CheckoutPage` is modelled all the same.
- Storefront.CheckoutPage.PlaceOrder: returns only the order items. The
  request body `{...form, order_items}` also carries the page's form (name,
  phone, address, country), which the model does not build. That form has
  no `customer_email`; the back end accepts that, since the field is
  `blank=True` (orders/models.py:20).
  `ModernProductGrid`'s markup is left out; its chips and filter are modelled
  in `Storefront`.
- The sidebar cart in App.jsx (it uses `clearCart` without taking it from the
  store and removes by `item.id`) is left out. The cart panel component is
  modelled instead.
- Storefront.Enrich: a complete cart entry is passed on as the same line,
  with a missing quantity read as 0. The code passes the entry object itself,
  whose missing quantity stays `undefined`.
- `directCheckoutItems` is never cleared by the shell, and the model keeps it
  the same. `category_name` in `handleProductClick` only feeds the display
  and is left out.
- The contact form, the review and order list/detail views, the admin, the
  management commands and the settings are outside the core.
- Concurrency and transactions: two orders competing for the same stock are
  left out. `Database.Create` is sequential and, like the code, does not roll
  back.
