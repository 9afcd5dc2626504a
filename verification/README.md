# Savya jewellery storefront — a Dafny model of its pricing, cart and list rules

This project models the deterministic core of the Savya jewellery storefront, a
React/TypeScript shop. The core is:

- the dynamic jewellery price (material rate × weight plus a percentage or flat
  making charge) and the material-rate lookup;
- the price breakdown shown on a product page, which always shows the stored price
  as its Total;
- the cart store, with its add, remove, update-quantity and clear transitions and
  its recomputed total and item count;
- the catalogue page's seven conjunctive filters, its orderings, filter handlers,
  reset and URL parameters;
- the admin product editor: variant generation as a Cartesian product with SKU
  numbering, the selection toggles, the image gallery with its main image, and the
  dynamic-price preview;
- the small list rules around the catalogue: the cart line built by the product
  panel and the product card, the material label, the product lookup and related
  products, the featured section, and the four admin search boxes.

Amounts are exact `real`s. Strings are `seq<char>`. `toLowerCase` is ASCII lower
case. A number parsed from a form input arrives as `Option` (`None` is NaN).
Browser state (React state, effects, routing) is modelled in one of two ways:

- as values that each handler maps to a new value (`prev => next`), where the source
  is written that way;
- as classes whose methods reassign fields, where the source updates linked state
  step by step: `Cart.CartStore`, `ImageUploader.ImageUploaderState` and
  `ProductInfo.QuantityStepper`.

The catalogue page's filter effect is a method that narrows its `result` filter by
filter. Its comparison sorts are an in-place insertion sort on an array.

Module layout (one module per source file, plus three shared ones):

- `Base`: `Option` and the `|| 0` fallbacks.
- `Seqs`: filter, remove, toggle, take.
- `Text`: lower case, substring search, first-hyphen replacement, decimal strings.
- `Helpers`, `Catalogue`, `PriceBreakdown`, `Cart`, `ProductsPage`, `Variations`,
  `AddProductDialog`, `ImageUploader`, `PricingTab`, `ProductInfo`, `ProductCard`,
  `ProductDetail`, `FeaturedProducts`, `MockProducts`, `OrderManager`,
  `AttributesManager`, `CategoryManager`.

The catalogue's product type carries the making-charge policy as the flag
`isMakingChargePercentage` (src/data/products.ts:12), and the pricing explainer
shows the charge as a percentage (src/components/PricingExplainer.tsx:95). The price
breakdown reads a `makingChargeType` field instead
(src/components/product/PriceBreakdown.tsx:23), which catalogue products do not
have. The model follows the breakdown's code as written and records the
discrepancy under Findings.

## Model

| member | source | states |
|---|---|---|
| Base.RealOrZero | src/components/admin/products/ProductPricingTab.tsx:116 | `parseFloat(text) \|\| 0`: a parsed number is kept and NaN becomes 0 |
| Base.IntOrZero | src/components/admin/products/ProductVariations.tsx:281-283 | `parseInt(text) \|\| 0`: a parsed integer is kept and NaN becomes 0 |
| Helpers.CalculateJewelryPrice | src/lib/helpers.ts:23-39 | for non-negative inputs the price is at least the material cost materialPrice × weight |
| Helpers.CalculateJewelryPriceDefault | src/lib/helpers.ts:27 | omitting the flag gives flat mode: materialPrice × weight + makingCharge |
| Helpers.PercentageMode | src/lib/helpers.ts:29-34 | percentage mode is materialPrice×weight + materialPrice×weight×makingCharge/100 |
| Helpers.FlatMode | src/lib/helpers.ts:35-38 | flat mode is materialPrice×weight + makingCharge |
| Helpers.ZeroWeight | src/lib/helpers.ts:29-38 | at zero weight, percentage mode gives 0 and flat mode gives exactly the making charge |
| Helpers.WorkedExample | src/lib/helpers.ts:29-34 | rate 6000, 4.5 g, 12 % gives 27000 + 3240 = 30240 |
| Helpers.GetMaterialBasePrice | src/lib/helpers.ts:46-59 | the rate is 0 exactly for a slug outside the table, and never negative |
| Helpers.KnownRates | src/lib/helpers.ts:49-58 | the six slugs give 6500, 6000, 5000, 80, 3500 and 50000; every other string gives 0 |
| Helpers.SliceEnd | src/lib/helpers.ts:78 | the end index of `slice(0, n)` is within the text and is min(n, length) for n ≥ 0 |
| Helpers.TruncateText | src/lib/helpers.ts:76-79 | a text no longer than the limit is returned unchanged; a longer one is cut and ends in "..." |
| Helpers.TruncateLong | src/lib/helpers.ts:76-79 | a text longer than n ≥ 0 becomes its first n characters plus "...", of length n + 3 |
| Catalogue.RateTablesAgree | src/data/products.ts:237-244 | the catalogue rate table equals the pricing engine's table entry for entry |
| Catalogue.IdsDistinct | src/data/products.ts:20-180 | the eight catalogue ids are pairwise distinct |
| Catalogue.MaterialsKnownWeightsPositive | src/data/products.ts:20-180 | every product's material has a rate and every weight is positive |
| Catalogue.PricingFlags | src/data/products.ts:20-180 | only p4 has a flat making charge; only p5 and p8 are not dynamically priced |
| Catalogue.EveryCollectionSet | src/data/products.ts:17 | the optional `collection` is set on every catalogue product |
| Catalogue.FilterProducts | src/data/products.ts:20-180 | filtering the catalogue keeps exactly the passing products among p1..p8, in order |
| PriceBreakdown.FlatRateCase | src/components/product/PriceBreakdown.tsx:12-19 | flat-rate holds iff makingCharge or weight is falsy; it then shows one Fixed Price row equal to the stored price, both components are 0 and nothing is logged |
| PriceBreakdown.Explain | src/components/product/PriceBreakdown.tsx:10-39 | definition of the rows and the mismatch flag the component computes; its meaning is stated by FlatRateCase, MaterialCostCase, MakingChargeCase and TotalIsStoredPrice |
| PriceBreakdown.MaterialCostCase | src/components/product/PriceBreakdown.tsx:19-20 | otherwise the material cost is the looked-up rate × weight, so an unknown material gives 0 |
| PriceBreakdown.MakingChargeCase | src/components/product/PriceBreakdown.tsx:21-27 | the charge is a percentage of the material cost only when `makingChargeType` is "percentage", the flat amount otherwise, and 0 when not a number |
| PriceBreakdown.TotalIsStoredPrice | src/components/product/PriceBreakdown.tsx:87-90 | the last row is always Total(stored price) and no other row is a Total; the mismatch is logged iff the computed sum is more than 1 away |
| PriceBreakdown.ViewOf | src/data/products.ts:2-18 | a catalogue product reaches the component with no `makingChargeType` |
| PriceBreakdown.CatalogueChargeAlwaysFlat | src/components/product/PriceBreakdown.tsx:23-27 | every non-flat catalogue product shows its making charge as a fixed amount |
| PriceBreakdown.RadiantLotusAsWritten | src/components/product/PriceBreakdown.tsx:23 | p1 shows 87000 + a fixed 12 beside a Total of 85000, and the mismatch is logged |
| PriceBreakdown.ExplainIntended | src/data/products.ts:12 | with the catalogue's flag, the components sum to `calculateJewelryPrice` and the Total is still the stored price |
| PriceBreakdown.RadiantLotusIntended | src/data/products.ts:21-40 | with the flag, p1 shows 12 % of 87000 = 10440 |
| Cart.ReduceAddsSums | src/context/CartContext.tsx:59-65 | the fold started from an accumulator adds Σ price×quantity and Σ quantity to it |
| Cart.Reduce | src/context/CartContext.tsx:59-65 | definition of the `reduce` fold over the cart; stated by ReduceAddsSums and CartTotals |
| Cart.SumTotal | src/context/CartContext.tsx:61 | definition of Σ price × quantity, the independent reference the fold is proved against in CartTotals |
| Cart.SumCount | src/context/CartContext.tsx:62 | definition of Σ quantity, the independent reference the fold is proved against in CartTotals |
| Cart.CartTotals | src/context/CartContext.tsx:59-65 | the fold from {0, 0} yields exactly Σ price×quantity and Σ quantity |
| Cart.IndexOfId | src/context/CartContext.tsx:74 | `findIndex`: -1 iff no entry has the id, otherwise the first entry with it |
| Cart.AddNewAppends | src/context/CartContext.tsx:84-86 | a new id is appended at the end; earlier entries are unchanged |
| Cart.AddItem | src/context/CartContext.tsx:71-89 | definition of the `addToCart` updater; stated by AddNewAppends, AddExistingMerges, AddKeepsIdsUnique, AddNewTotals and AddExistingTotals |
| Cart.AddExistingMerges | src/context/CartContext.tsx:74-82 | an existing id only has its quantity raised by the added quantity; its price, its other fields, the other entries and the length are unchanged |
| Cart.AddKeepsIdsUnique | src/context/CartContext.tsx:74-86 | adding keeps ids unique |
| Cart.AddNewTotals | src/context/CartContext.tsx:84-86 | adding a new id raises the total by its price × quantity and the count by its quantity |
| Cart.AddExistingTotals | src/context/CartContext.tsx:76-82 | re-adding charges the first-added price: the total grows by that price × the added quantity |
| Cart.RemoveDropsId | src/context/CartContext.tsx:91-102 | removal drops every entry with the id, keeps every other entry as often as before, and an absent id changes nothing |
| Cart.RemoveItem | src/context/CartContext.tsx:91-102 | definition of the `removeFromCart` updater; stated by RemoveDropsId, RemoveKeepsOrder and RemoveKeepsIdsUnique |
| Cart.RemoveKeepsOrder | src/context/CartContext.tsx:94 | removal keeps the survivors in order (it distributes over concatenation) |
| Cart.RemoveKeepsIdsUnique | src/context/CartContext.tsx:94 | removal keeps ids unique |
| Cart.SetQuantity | src/context/CartContext.tsx:115-119 | the map keeps the length and every entry's id |
| Cart.UpdateNonPositiveRemoves | src/context/CartContext.tsx:109-113 | a quantity ≤ 0 behaves exactly like `removeFromCart`, and the id is gone |
| Cart.UpdateItemQuantity | src/context/CartContext.tsx:109-120 | definition of `updateQuantity`; stated by UpdateNonPositiveRemoves, UpdatePositiveSets and UpdateKeepsIdsUnique |
| Cart.UpdatePositiveSets | src/context/CartContext.tsx:115-119 | a positive quantity is set on matching entries only; length, order and all else are unchanged; an absent id is a no-op |
| Cart.UpdateKeepsIdsUnique | src/context/CartContext.tsx:109-119 | updating keeps ids unique |
| Cart.ReAddKeepsFirstPrice | src/context/CartContext.tsx:76-82 | re-adding p1 at another price keeps the first price and sums quantities |
| Cart.TwoItemTotals | src/context/CartContext.tsx:59-65 | adding 500 × 1 and 1500 × 2 gives total 3500 and count 3 |
| Cart.CartStore.constructor | src/context/CartContext.tsx:37-39 | the store starts empty with total 0 and count 0 |
| Cart.CartStore.RecomputeTotals | src/context/CartContext.tsx:55-69 | the effect sets total and count to the fold of the unchanged cart |
| Cart.CartStore.AddToCart | src/context/CartContext.tsx:71-89 | the cart becomes `AddItem(old cart)`; ids stay unique and the aggregates equal the fold |
| Cart.CartStore.RemoveFromCart | src/context/CartContext.tsx:91-102 | the cart becomes `RemoveItem(old cart)`, with the invariant kept |
| Cart.CartStore.ClearCart | src/context/CartContext.tsx:104-107 | the cart is empty, with total 0 and count 0 |
| Cart.CartStore.UpdateQuantity | src/context/CartContext.tsx:109-120 | the cart becomes `UpdateItemQuantity(old cart)`, with the invariant kept |
| ProductsPage.ListedSteps | src/pages/Products.tsx:85-124 | passing the staged filters is passing each of the seven |
| ProductsPage.Step | src/pages/Products.tsx:85-124 | definition of the seven guarded filter tests, one per `if` block; stated by ListedSteps, StageAdvance and StageSkip |
| ProductsPage.Listed | src/pages/Products.tsx:85-124 | definition of passing all seven tests; stated by ListedIff, Listing and NarrowCatalogue |
| ProductsPage.ListedIff | src/pages/Products.tsx:85-124 | a product is listed iff it meets every active criterion (category, collection, materials, inclusive price range, lower-cased search in name or description, stock, dynamic pricing) |
| ProductsPage.Listing | src/pages/Products.tsx:85-124 | the listing holds exactly the listed products, each as often as in the catalogue |
| ProductsPage.StageAdvance | src/pages/Products.tsx:88-124 | filtering the list after k−1 filters by filter k gives the list after k |
| ProductsPage.StageSkip | src/pages/Products.tsx:88-124 | a filter whose guard is off leaves the list as it was |
| ProductsPage.SortOrder | src/pages/Products.tsx:127-147 | each of the four comparison sort values selects its order; every other value selects none |
| ProductsPage.OrderTotal | src/pages/Products.tsx:131-141 | any two products are comparable under each order |
| ProductsPage.InOrder | src/pages/Products.tsx:131-141 | definition of the four comparators; stated by OrderTotal, OrderTrans, SortedPrices and SortInPlace |
| ProductsPage.OrderTrans | src/pages/Products.tsx:131-141 | each order is transitive |
| ProductsPage.SortedPrices | src/pages/Products.tsx:131-136 | 'price-asc' gives non-decreasing prices and 'price-desc' non-increasing ones |
| ProductsPage.SortInPlace | src/pages/Products.tsx:131-141 | the in-place sort leaves the array sorted and a permutation of its old contents |
| ProductsPage.PartitionFacts | src/pages/Products.tsx:128-129 | the 'newest' and featured partitions are permutations, with every front product ahead of every other |
| ProductsPage.Partition | src/pages/Products.tsx:128-129 | definition of the two-filter partition; stated by PartitionFacts |
| ProductsPage.ApplyFilters | src/pages/Products.tsx:84-150 | the result has each listed product as often as the catalogue and nothing else; 'newest' and the default give stable partitions, the comparison sorts give sorted lists |
| ProductsPage.FilterWhen | src/pages/Products.tsx:88-90 | one guarded filter step takes the list after k−1 filters to the list after k |
| ProductsPage.NarrowCatalogue | src/pages/Products.tsx:85-124 | the seven guarded steps leave exactly the listing, in catalogue order |
| ProductsPage.OrderListing | src/pages/Products.tsx:127-147 | the switch permutes the listing; 'newest' partitions by isNew, the four sorts sort, anything else partitions by featured |
| ProductsPage.HandleCategoryChange | src/pages/Products.tsx:152-157 | choosing the current category clears it, another one sets it; nothing else changes |
| ProductsPage.HandleCollectionChange | src/pages/Products.tsx:159-164 | the same rule for the collection |
| ProductsPage.CategoryCollectionTwice | src/pages/Products.tsx:152-164 | choosing a value twice from none returns to none |
| ProductsPage.HandleMaterialChange | src/pages/Products.tsx:166-174 | the material's membership flips and no other material's membership changes |
| ProductsPage.MaterialToggle | src/pages/Products.tsx:166-174 | an absent material is appended, and toggling it again restores the filters |
| ProductsPage.MaterialUntoggle | src/pages/Products.tsx:168-169 | a present material loses every copy |
| ProductsPage.HandlePriceChange | src/pages/Products.tsx:176-183 | only the two price bounds change |
| ProductsPage.HandleSortChange | src/pages/Products.tsx:185-187 | only the sort changes |
| ProductsPage.HandleSearch | src/pages/Products.tsx:189-195 | only the search term changes |
| ProductsPage.MaxPrice | src/pages/Products.tsx:51 | the maximum is one of the prices and at least every price; an empty list has none |
| ProductsPage.CatalogueMaxPrice | src/pages/Products.tsx:51 | the shipped catalogue's maximum price is 85000 |
| ProductsPage.ClearAllFilters | src/pages/Products.tsx:197-210 | the reset gives the defaults: nothing chosen, range 0 to the maximum price, sort 'featured', in stock only |
| ProductsPage.ClearDeactivates | src/pages/Products.tsx:212-220 | after a reset no filter is active, and the page lists exactly the in-stock products priced 0 to the maximum |
| ProductsPage.HasActiveFilters | src/pages/Products.tsx:212-220 | definition of `hasActiveFilters`; stated by ClearDeactivates and InactiveListsLikeCleared |
| ProductsPage.InactiveListsLikeCleared | src/pages/Products.tsx:212-220 | with no active filter, a filter set lists what a reset lists |
| ProductsPage.GetFirst | src/pages/Products.tsx:54-57 | a parameter lookup finds the first pair with the key, and nothing iff no pair has it |
| ProductsPage.Get | src/pages/Products.tsx:54-57 | definition of `searchParams.get`; stated by GetFirst, GetConcat and GetOr |
| ProductsPage.GetConcat | src/pages/Products.tsx:72-81 | looking up in a concatenation searches the first part first |
| ProductsPage.GetOr | src/pages/Products.tsx:54-57 | `get(key) \|\| fallback`: a non-empty value is kept, a missing or empty one gives the fallback |
| ProductsPage.InitialFilters | src/pages/Products.tsx:54-69 | the initial filters are the defaults except for the four URL fields, and the sort is never empty |
| ProductsPage.SetIf | src/pages/Products.tsx:75-78 | a conditional `params.set` gives the key its value only when the condition holds |
| ProductsPage.UrlParams | src/pages/Products.tsx:72-81 | category, collection and search appear only when non-empty, and sort only when not 'featured' |
| ProductsPage.UrlRoundTrip | src/pages/Products.tsx:54-81 | reading the written parameters back restores category, collection, search and sort |
| Variations.GenerateCombinations | src/components/admin/products/ProductVariations.tsx:79-100 | the recursive generator with its loop returns exactly `Combinations` |
| Variations.Combinations | src/components/admin/products/ProductVariations.tsx:79-100 | definition of the combinations the recursive generator returns; stated by GenerateCombinations, CountCombinations, CombinationShape and ExpandIndex |
| Variations.Expand | src/components/admin/products/ProductVariations.tsx:91-97 | definition of the loop over one attribute's values; stated by CountExpand, ExpandShape and ExpandIndex |
| Variations.CountCombinations | src/components/admin/products/ProductVariations.tsx:79-102 | there are as many combinations as the product of the selected-value counts |
| Variations.CountExpand | src/components/admin/products/ProductVariations.tsx:91-97 | the loop over attribute `index` contributes \|values\| × the later product |
| Variations.EmptyAttributeEmptiesAll | src/components/admin/products/ProductVariations.tsx:91-99 | an attribute with no selected value empties the whole product |
| Variations.ZeroProd | src/components/admin/products/ProductVariations.tsx:79-102 | a zero count makes the product of counts 0 |
| Variations.CombinationShape | src/components/admin/products/ProductVariations.tsx:88-96 | with distinct names, each combination maps every attribute name to one of its selected values |
| Variations.ExpandShape | src/components/admin/products/ProductVariations.tsx:91-97 | each combination the loop adds is so shaped |
| Variations.ExpandIndex | src/components/admin/products/ProductVariations.tsx:84-99 | combination q·P + r comes from value q of the first attribute: lexicographic order, first attribute slowest |
| Variations.ActiveFacts | src/components/admin/products/ProductVariations.tsx:67 | the active attributes are exactly the selected ones with a value, in order |
| Variations.Active | src/components/admin/products/ProductVariations.tsx:67 | definition of the active-attribute filter; stated by ActiveFacts |
| Variations.NewVariant | src/components/admin/products/ProductVariations.tsx:105-115 | variant i has its combination, sku "SKU-(i+1)", an empty price, stock 1, no dynamic pricing and no material, weight or charge |
| Variations.MakeVariants | src/components/admin/products/ProductVariations.tsx:105-115 | one fresh variant per combination, numbered by position |
| Variations.PrefixedNumbersDiffer | src/components/admin/products/ProductVariations.tsx:106-108 | numbered strings with one prefix differ when the numbers differ |
| Variations.GeneratedDistinct | src/components/admin/products/ProductVariations.tsx:106-108 | generated variants have pairwise distinct SKUs and ids |
| Variations.GenerateVariations | src/components/admin/products/ProductVariations.tsx:65-123 | with no active attribute the variants are unchanged; otherwise they are replaced by one new variant per combination |
| Variations.GeneratedShape | src/components/admin/products/ProductVariations.tsx:88-108 | each generated variant maps every active attribute name to one of its selected values |
| Variations.ApplyEdit | src/components/admin/products/ProductVariations.tsx:191-283 | an edit changes only its own field (stock, weight and charge with the `\|\| 0` fallback) and never the id or attributes |
| Variations.EditVariant | src/components/admin/products/ProductVariations.tsx:191-193 | only variants with the id are edited; length and order are kept |
| Variations.StockFallback | src/components/admin/products/ProductVariations.tsx:281-283 | unparseable stock becomes 0 |
| Variations.EditAbsentId | src/components/admin/products/ProductVariations.tsx:191-193 | an edit for an absent id changes nothing |
| Variations.RemoveVariantFacts | src/components/admin/products/ProductVariations.tsx:294 | removal drops the id's entries and keeps the others, as often as before and in order |
| Variations.RemoveVariant | src/components/admin/products/ProductVariations.tsx:294 | definition of the removal filter; stated by RemoveVariantFacts |
| AddProductDialog.ToggleCategorySelection | src/components/admin/products/AddProductDialog.tsx:55-61 | an absent id is appended; a present one loses every occurrence |
| AddProductDialog.CategoryToggleTwice | src/components/admin/products/AddProductDialog.tsx:55-61 | toggling an absent id twice restores the list |
| AddProductDialog.FindFirst | src/components/admin/products/AddProductDialog.tsx:69 | `find` gives the first table entry with the id, and nothing iff none has it |
| AddProductDialog.Selection | src/components/admin/products/AddProductDialog.tsx:73 | a new selection copies id, name and values, with no value chosen |
| AddProductDialog.ToggleAttributeSelection | src/components/admin/products/AddProductDialog.tsx:63-77 | a selected id is removed, a table id is appended as a fresh selection, an unknown id changes nothing |
| AddProductDialog.DeselectFacts | src/components/admin/products/AddProductDialog.tsx:67 | deselection keeps exactly the entries with other ids, and the list shrinks |
| AddProductDialog.KnownAttributes | src/components/admin/products/AddProductDialog.tsx:21-26 | ids 1-4 are Size, Color, Material and Style; other ids are unknown |
| AddProductDialog.AttributeToggleTwice | src/components/admin/products/AddProductDialog.tsx:63-77 | selecting and deselecting an attribute restores the list |
| AddProductDialog.ToggleValue | src/components/admin/products/AddProductDialog.tsx:82-88 | the value's membership flips; id, name, values and the other values stay |
| AddProductDialog.ToggleAttributeValueSelection | src/components/admin/products/AddProductDialog.tsx:79-92 | only attributes with the id change, and only in their chosen values |
| AddProductDialog.ValueToggleTwice | src/components/admin/products/AddProductDialog.tsx:79-92 | toggling an unchosen value twice restores the list |
| ImageUploader.Upload | src/components/admin/products/ProductImageUploader.tsx:24-37 | new URLs follow the old ones; with no main image the first new one becomes main; the main-in-gallery invariant is kept |
| ImageUploader.Remove | src/components/admin/products/ProductImageUploader.tsx:45-53 | every copy goes and the others stay; removing the main image makes the first remaining one main (or none); the invariant is kept |
| ImageUploader.SetMain | src/components/admin/products/ProductImageUploader.tsx:55-57 | main becomes the chosen gallery image and the gallery is unchanged |
| ImageUploader.RemoveAbsent | src/components/admin/products/ProductImageUploader.tsx:46-49 | removing an image not in the gallery changes nothing |
| ImageUploader.RemoveKeepsOrder | src/components/admin/products/ProductImageUploader.tsx:45-53 | removal distributes over a split of the gallery, so the survivors keep their order; a removed main image whose copies fill the front passes to the first image after them |
| ImageUploader.UploadThenRemoveFirst | src/components/admin/products/ProductImageUploader.tsx:30-52 | uploading a, b and removing a leaves [b] with b as main |
| ImageUploader.ImageUploaderState.constructor | src/components/admin/products/AddProductDialog.tsx:45-46 | the gallery starts empty with no main image |
| ImageUploader.ImageUploaderState.HandleImageUpload | src/components/admin/products/ProductImageUploader.tsx:24-43 | the state becomes `Upload(old state)` and main stays null or in the gallery |
| ImageUploader.ImageUploaderState.RemoveImage | src/components/admin/products/ProductImageUploader.tsx:45-53 | the state becomes `Remove(old state)`, with the invariant kept |
| ImageUploader.ImageUploaderState.SetAsMainImage | src/components/admin/products/ProductImageUploader.tsx:55-61 | the state becomes `SetMain(old state)`, with the invariant kept |
| PricingTab.FindMaterialFirst | src/components/admin/products/ProductPricingTab.tsx:43 | `find` gives the first material with the id, and nothing iff none has it |
| PricingTab.FindMaterial | src/components/admin/products/ProductPricingTab.tsx:43 | definition of the `find` by parsed id; stated by FindMaterialFirst |
| PricingTab.Rate | src/components/admin/products/ProductPricingTab.tsx:47 | the rate is pricePerGram if truthy, else pricePerCarat if truthy, else 0 |
| PricingTab.CalculateDynamicPrice | src/components/admin/products/ProductPricingTab.tsx:42-53 | "N/A" exactly when no material has the id; otherwise the flat-mode price at the material's rate |
| PricingTab.UnknownMaterialNA | src/components/admin/products/ProductPricingTab.tsx:43-44 | an unknown or unparseable id gives "N/A" |
| PricingTab.PreviewIsFlat | src/components/admin/products/ProductPricingTab.tsx:46-50 | the preview always applies the making charge as a flat amount |
| PricingTab.OfferedMaterialsPriced | src/components/admin/products/AddProductDialog.tsx:28-35 | every material in the dialog's table is priced, non-negatively for non-negative inputs |
| PricingTab.DialogExamples | src/components/admin/products/AddProductDialog.tsx:28-35 | 22K gold, 10 g, charge 1000 gives 61000; diamond is priced per carat; id 7 gives "N/A" |
| PricingTab.UnparsedWeightHidesPreview | src/components/admin/products/ProductPricingTab.tsx:134 | a weight that does not parse, or is ≤ 0, hides the preview |
| PricingTab.ShowPreview | src/components/admin/products/ProductPricingTab.tsx:134 | definition of the preview guard (with the jewellery and dynamic-pricing guards of lines 78-79); stated by UnparsedWeightHidesPreview |
| ProductInfo.ClampQuantity | src/components/product/ProductInfo.tsx:105 | typed quantity becomes max(1, parsed), and non-numeric input becomes 1 |
| ProductInfo.QuantityStepper.constructor | src/components/product/ProductInfo.tsx:18 | the quantity starts at 1 |
| ProductInfo.QuantityStepper.Increment | src/components/product/ProductInfo.tsx:23-25 | the quantity rises by exactly 1 |
| ProductInfo.QuantityStepper.Decrement | src/components/product/ProductInfo.tsx:27-31 | the quantity falls by 1 only when above 1, so it never goes below 1 |
| ProductInfo.QuantityStepper.SetFromInput | src/components/product/ProductInfo.tsx:105 | the quantity becomes the clamped input |
| ProductInfo.FirstImage | src/components/product/ProductInfo.tsx:40 | `images[0]`: undefined exactly for an empty list |
| ProductInfo.CartItemFor | src/components/product/ProductInfo.tsx:33-46 | nothing without a product; otherwise id, name, stored price, weight, material and charge copied, images[0], and the current quantity |
| ProductInfo.AddFromPanel | src/components/product/ProductInfo.tsx:36-45 | adding the panel's line appends it, or raises only the existing line's quantity |
| ProductInfo.FormatMaterialName | src/components/product/ProductInfo.tsx:191-194 | same length, first character upper-cased, and only the first '-' after it becomes a space |
| ProductInfo.FirstHyphenBecomesSpace | src/components/product/ProductInfo.tsx:191-194 | a slug c·a-b with no hyphen in a reads C·a b, and later hyphens stay |
| ProductInfo.GoldLabel | src/components/product/ProductInfo.tsx:191-194 | "gold-22k" reads "Gold 22k" |
| ProductInfo.LeadingHyphenKept | src/components/product/ProductInfo.tsx:192-193 | a leading hyphen is the first character and is never replaced |
| ProductCard.CardItem | src/components/ProductCard.tsx:17-28 | quantity 1, the stored price, the first image, and id, name, weight, material and charge copied |
| ProductCard.CardMatchesProductPage | src/components/ProductCard.tsx:17-28 | the card adds exactly the line the product page adds at quantity 1 |
| ProductCard.CardUsesStoredPrice | src/components/ProductCard.tsx:21 | p1 is added at its stored 85000, not the price its pricing inputs give |
| ProductCard.MaterialLabel | src/components/ProductCard.tsx:71 | the label upper-cases the first character and equals the product page's material name |
| ProductCard.RadiantLotusLabel | src/components/ProductCard.tsx:71 | p1's tile reads "Gold 22k" |
| ProductDetail.FindProductFirst | src/pages/ProductDetail.tsx:26 | the lookup finds the first product with exactly the id, and nothing iff none has it or the id is undefined |
| ProductDetail.FindProduct | src/pages/ProductDetail.tsx:26 | definition of the `find` by id; stated by FindProductFirst |
| ProductDetail.RelatedFacts | src/pages/ProductDetail.tsx:32-37 | at most three, never the product itself, each sharing category or collection, and the first matches in catalogue order |
| ProductDetail.Related | src/pages/ProductDetail.tsx:32-37 | definition of the related-products filter and slice; stated by RelatedFacts and CatalogueRelated |
| ProductDetail.FetchProduct | src/pages/ProductDetail.tsx:23-43 | loading ends either way; a hit stores the product and its related list; a miss keeps both as they were |
| ProductDetail.FirstVisit | src/pages/ProductDetail.tsx:52-55 | on the first visit a miss shows not-found, a hit shows the product, and loading never remains |
| ProductDetail.ViewOf | src/pages/ProductDetail.tsx:52-55 | definition of the loading, not-found and product views; stated by FirstVisit and IntendedViewIgnoresHistory |
| ProductDetail.StaleProductAfterMiss | src/pages/ProductDetail.tsx:28 | going from p1 to an unknown id keeps showing p1 |
| ProductDetail.FetchProductIntended | src/pages/ProductDetail.tsx:17 | with a reset on a miss, the product is exactly the lookup's result |
| ProductDetail.IntendedViewIgnoresHistory | src/pages/ProductDetail.tsx:52-55 | with the reset, the view depends only on the id, and not-found appears iff the lookup misses |
| ProductDetail.CatalogueRelated | src/pages/ProductDetail.tsx:32-37 | p1's related list is [p5], and p4's is [p8] |
| FeaturedProducts.FeaturedFacts | src/components/FeaturedProducts.tsx:9 | every result is featured, every featured product appears as often as in the list, and order is kept |
| FeaturedProducts.Featured | src/components/FeaturedProducts.tsx:9 | definition of the featured filter; stated by FeaturedFacts and CatalogueFeatured |
| FeaturedProducts.CatalogueFeatured | src/components/FeaturedProducts.tsx:9 | on the shipped catalogue the section shows p1, p2, p3, p5 and p8 |
| MockProducts.SearchFacts | src/components/admin/products/useMockProducts.ts:17-20 | a product is kept iff the lower-cased term occurs in its lower-cased name or SKU; order and counts are kept; the empty term keeps all |
| MockProducts.FilteredProducts | src/components/admin/products/useMockProducts.ts:17-20 | definition of the search filter; stated by SearchFacts and GoldSearch |
| MockProducts.SetSearchTerm | src/components/admin/products/useMockProducts.ts:14-15 | setting the term never changes the products |
| MockProducts.SearchKeepsProducts | src/components/admin/products/useMockProducts.ts:14-28 | the hook returns the unchanged full list beside the filtered one, and the empty term shows every product |
| MockProducts.GoldSearch | src/components/admin/products/useMockProducts.ts:5-20 | "gold" keeps ids 1 and 5 only |
| OrderManager.SearchFacts | src/components/admin/OrderManager.tsx:24-27 | an order is kept iff the lower-cased term occurs in its lower-cased id or customer; order and counts are kept; the empty term keeps all |
| OrderManager.FilteredOrders | src/components/admin/OrderManager.tsx:24-27 | definition of the search filter; stated by SearchFacts and PatelSearch |
| OrderManager.SetSearchTerm | src/components/admin/OrderManager.tsx:19-22 | setting the term changes only the term |
| OrderManager.SearchKeepsOrders | src/components/admin/OrderManager.tsx:19-27 | searching never changes the orders, and clearing the term shows every order |
| OrderManager.StatusBadge | src/components/admin/OrderManager.tsx:76-79 | Processing is blue, Shipped amber, Delivered green, and anything else red |
| OrderManager.MockBadges | src/components/admin/OrderManager.tsx:10-14 | the mock orders' badges are blue, amber, green, blue and red |
| OrderManager.ViewOrderDetails | src/components/admin/OrderManager.tsx:29-32 | the clicked order is selected and the dialog opens; the list and term stay |
| OrderManager.ViewKeepsTable | src/components/admin/OrderManager.tsx:29-32 | opening details keeps the rows shown, and the selection is the clicked row whatever came before |
| OrderManager.PatelSearch | src/components/admin/OrderManager.tsx:10-27 | "patel" keeps #ORD-002 only |
| AttributesManager.SearchFacts | src/components/admin/AttributesManager.tsx:27-30 | an attribute is kept iff the lower-cased term occurs in its lower-cased name or slug; order and counts are kept; the empty term keeps all |
| AttributesManager.FilteredAttributes | src/components/admin/AttributesManager.tsx:27-30 | definition of the search filter; stated by SearchFacts and ColSearch |
| AttributesManager.HandleAddAttribute | src/components/admin/AttributesManager.tsx:32-39 | saving only closes the dialog; the list is unchanged |
| AttributesManager.AddKeepsTable | src/components/admin/AttributesManager.tsx:32-39 | the table shown is unchanged, and saving twice is saving once |
| AttributesManager.ColSearch | src/components/admin/AttributesManager.tsx:13-30 | "col" keeps Color only |
| CategoryManager.SearchFacts | src/components/admin/CategoryManager.tsx:27-30 | a category is kept iff the lower-cased term occurs in its lower-cased name or slug; order and counts are kept; the empty term keeps all |
| CategoryManager.FilteredCategories | src/components/admin/CategoryManager.tsx:27-30 | definition of the search filter; stated by SearchFacts and RingSearch |
| CategoryManager.HandleAddCategory | src/components/admin/CategoryManager.tsx:32-39 | saving only closes the dialog; the list is unchanged |
| CategoryManager.AddKeepsTable | src/components/admin/CategoryManager.tsx:32-39 | the table shown is unchanged, and saving twice is saving once |
| CategoryManager.RingSearch | src/components/admin/CategoryManager.tsx:12-30 | "ring" keeps both Earrings and Rings, because matching is by substring |
| Text.IncludesIff | src/pages/Products.tsx:111-112 | `includes` holds iff the term occurs at some position |
| Text.Includes | src/pages/Products.tsx:111-112 | definition of `includes` by recursion on the text; stated by IncludesIff |
| Text.Lower | src/pages/Products.tsx:109-112 | `toLowerCase` keeps the length and lower-cases each character on its own |
| Text.UpperChar | src/components/product/ProductInfo.tsx:192 | `toUpperCase` on one character: the result is never a lower-case letter, and only a lower-case letter changes |
| Text.LexLe | src/pages/Products.tsx:138-141 | definition of the character-wise order used for the name sorts; stated by LexTotal and LexTrans |
| Text.LexTotal | src/pages/Products.tsx:138-141 | any two names are comparable |
| Text.LexTrans | src/pages/Products.tsx:138-141 | the order on names is transitive |
| Text.ReplaceFirst | src/components/product/ProductInfo.tsx:193 | `replace('-', ' ')` replaces only the first hyphen and keeps the length |
| Seqs.FilterFacts | src/components/FeaturedProducts.tsx:9 | `filter` keeps exactly the passing elements, each as often as before |
| Seqs.Filter | src/components/FeaturedProducts.tsx:9 | definition of `Array.filter`; stated by FilterFacts, FilterConcat and FilterAll |
| Seqs.Toggle | src/pages/Products.tsx:168-170 | the includes-then-filter-or-append idiom flips one element's membership only |
| Seqs.RemoveAll | src/components/admin/products/ProductImageUploader.tsx:46 | `filter(y => y !== x)`: no copy of x is left and every other value stays exactly as often as before; stated further by RemoveAbsent and RemoveConcat |
| Seqs.ToggleTwice | src/components/admin/products/AddProductDialog.tsx:55-61 | toggling an absent element twice restores the list |

## Left out

- `formatCurrency` (`Intl.NumberFormat`) is not modelled: amounts stay numbers, and `PricingTab.CalculateDynamicPrice` returns the amount rather than the formatted text.
- `generateId` (`Math.random`), `Date.now()` in variant ids and `URL.createObjectURL` are not modelled: the time stamp is a parameter of `Variations.GenerateVariations`, and uploaded files arrive as URLs.
- Cart persistence (`localStorage`, JSON parse and stringify) is browser I/O and is not modelled.
- Toast notifications and `console.log`/`console.error` are presentation side effects and are not modelled. The price-breakdown mismatch log is kept as a flag.
- IEEE-754 doubles, `parseInt` and `parseFloat` are not modelled: arithmetic is over exact reals, and a parse result is an `Option`.
- ProductsPage.InOrder: the name sorts use `localeCompare`, a foreign Unicode collation. The model puts plain lexicographic order on characters in its place, so 'name-asc' and 'name-desc' are proved sorted only under that order.
- Text.Lower: `toLowerCase` is ASCII lower case only; other Unicode case mappings are not modelled.
- Text.UpperChar: `toUpperCase` is ASCII upper case only. In JavaScript it can lengthen a string ("ß" becomes "SS"), so the `|r| == |material|` clause of ProductInfo.FormatMaterialName holds for the model and not for every JavaScript string.
- Cart.AddItem: `addToCart` copies only the array (CartContext.tsx:78) and then raises the quantity on the shared line object (line 79). So the previous cart and the caller's item also see the new quantity, and an updater run twice (React StrictMode) adds twice. The model builds a fresh line and does not capture this aliasing.
- AddProductDialog.ToggleAttributeSelection: `isSelected` is computed from the `selectedAttributes` of the current render (AddProductDialog.tsx:64), not from `prev`. The model reads both from one list, so two toggles queued in one render are not modelled.
- ProductsPage.SortInPlace and ProductsPage.ApplyFilters do not state stability. `Array.prototype.sort` is stable, so products that compare equal keep their catalogue order; the model proves sortedness and a permutation only.
- Helpers.GetMaterialBasePrice: the JavaScript object lookup would also find inherited keys such as "constructor"; the model's table holds only the six slugs.
- ImageUploader.Remove: `removeImage` computes the new main image from the `productImages` of the current render, not from the queued update. The model applies both updates to the same state, so two removals within one render are not modelled.
- ImageUploader.SetMain requires the URL to be in the gallery. The source does not check this; the button is offered only on gallery images (ProductImageUploader.tsx lines 91-113).
- React effects, routing (`useSearchParams`, `useParams`) and the price-range slider state that only mirrors the filters are not modelled. The URL is a list of key/value pairs.
- The dialog form fields typed before `handleAddAttribute` and `handleAddCategory` are not modelled, because neither handler stores them.
- OrderManager.StatusBadge returns the badge colour, not the Tailwind class string.
- Mark-up-only components (dashboards, navigation, hero, footer, galleries, tables) have no logic to model.

## Findings

| source | as written | input that shows it | evidently intended | confidence | as-written member | corrected member |
|---|---|---|---|---|---|---|
| src/components/product/PriceBreakdown.tsx:23 | the making charge is a percentage only when `product.makingChargeType === 'percentage'`, a field no catalogue product has (the type carries `isMakingChargePercentage`, src/data/products.ts:12) | p1: 22K gold, 14.5 g, making charge 12, percentage flag true. The breakdown shows 87000 + a fixed 12 beside a Total of 85000 | the percentage branch follows `isMakingChargePercentage`, giving 87000 + 10440 | high, not executed | PriceBreakdown.RadiantLotusAsWritten | PriceBreakdown.ExplainIntended |
| src/pages/ProductDetail.tsx:28 | on a miss neither `product` nor `relatedProducts` is reset, and the page stays mounted when only the route id changes | open p1, then navigate to /product/p9: the page still shows p1 and its related list | a miss shows the not-found view whatever was shown before | medium, not executed | ProductDetail.StaleProductAfterMiss | ProductDetail.FetchProductIntended |
