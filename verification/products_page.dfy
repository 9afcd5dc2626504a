/** The catalogue page of src/pages/Products.tsx: the `filters` record, the
    effect that narrows the catalogue by seven conjunctive filters and then
    orders it, the filter handlers, the reset, the "any filter active" test
    and the URL parameters the page writes and reads back. */
module ProductsPage {
  import opened Base
  import Seqs
  import Text
  import Catalogue

  type Product = Catalogue.Product

  /** The `filters` state record. */
  datatype Filters = Filters(
    category: string,
    collection: string,
    materials: seq<string>,
    priceMin: real,
    priceMax: real,
    search: string,
    sort: string,
    inStock: bool,
    isDynamicPricing: bool
  )

  // ---------------------------------------------------------------------
  // The seven filters

  /** Filter number `k` of the effect, 1 to 7 in source order; a filter whose
      guard is off (empty string, empty list, false flag) passes everything.
      Only the price filter is unconditional. */
  predicate Step(f: Filters, k: nat, p: Product) {
    if k == 1 then f.category == "" || p.category == f.category
    else if k == 2 then f.collection == "" || p.collection == Some(f.collection)
    else if k == 3 then |f.materials| == 0 || p.material in f.materials
    else if k == 4 then f.priceMin <= p.price <= f.priceMax
    else if k == 5 then f.search == "" || Text.MatchesEither(f.search, p.name, p.description)
    else if k == 6 then !f.inStock || p.inStock
    else if k == 7 then !f.isDynamicPricing || p.isDynamicPricing
    else true
  }

  /** `p` passes the first `k` filters. */
  predicate PassedUpTo(f: Filters, k: nat, p: Product) {
    k == 0 || (PassedUpTo(f, k - 1, p) && Step(f, k, p))
  }

  /** `p` passes every filter. */
  predicate Listed(f: Filters, p: Product) {
    PassedUpTo(f, 7, p)
  }

  /** Passing every filter is passing each of the seven. */
  lemma ListedSteps(f: Filters, p: Product)
    ensures Listed(f, p) <==>
              Step(f, 1, p) && Step(f, 2, p) && Step(f, 3, p) && Step(f, 4, p)
              && Step(f, 5, p) && Step(f, 6, p) && Step(f, 7, p)
  {
    assert PassedUpTo(f, 7, p) == (PassedUpTo(f, 6, p) && Step(f, 7, p));
    assert PassedUpTo(f, 6, p) == (PassedUpTo(f, 5, p) && Step(f, 6, p));
    assert PassedUpTo(f, 5, p) == (PassedUpTo(f, 4, p) && Step(f, 5, p));
    assert PassedUpTo(f, 4, p) == (PassedUpTo(f, 3, p) && Step(f, 4, p));
    assert PassedUpTo(f, 3, p) == (PassedUpTo(f, 2, p) && Step(f, 3, p));
    assert PassedUpTo(f, 2, p) == (PassedUpTo(f, 1, p) && Step(f, 2, p));
    assert PassedUpTo(f, 1, p) == Step(f, 1, p);
  }

  /** A product is listed exactly when it meets every active criterion. */
  lemma ListedIff(f: Filters, p: Product)
    ensures Listed(f, p) <==>
              (f.category != "" ==> p.category == f.category)
              && (f.collection != "" ==> p.collection == Some(f.collection))
              && (|f.materials| > 0 ==> p.material in f.materials)
              && f.priceMin <= p.price && p.price <= f.priceMax
              && (f.search != "" ==>
                    Text.Includes(Text.Lower(p.name), Text.Lower(f.search))
                    || Text.Includes(Text.Lower(p.description), Text.Lower(f.search)))
              && (f.inStock ==> p.inStock)
              && (f.isDynamicPricing ==> p.isDynamicPricing)
  {
    ListedSteps(f, p);
  }

  function StageKeep(f: Filters, k: nat): Product -> bool {
    (p: Product) => PassedUpTo(f, k, p)
  }

  /** The list after the first `k` filters, in catalogue order. */
  function Stage(s: seq<Product>, f: Filters, k: nat): seq<Product> {
    Seqs.Filter(s, StageKeep(f, k))
  }

  /** The filtered list before sorting. */
  function Listing(s: seq<Product>, f: Filters): (r: seq<Product>)
    ensures forall p :: p in r <==> p in s && Listed(f, p)
    ensures forall p :: multiset(r)[p] == if Listed(f, p) then multiset(s)[p] else 0
  {
    Seqs.FilterFacts(s, StageKeep(f, 7));
    Stage(s, f, 7)
  }

  /** Applying filter `k` to the list after `k - 1` filters. */
  lemma StageAdvance(s: seq<Product>, f: Filters, k: nat, keep: Product -> bool)
    requires 1 <= k
    requires forall p :: keep(p) == Step(f, k, p)
    ensures Seqs.Filter(Stage(s, f, k - 1), keep) == Stage(s, f, k)
  {
    Seqs.FilterFilter(s, StageKeep(f, k - 1), keep, StageKeep(f, k));
  }

  /** Skipping filter `k` when its guard is off. */
  lemma StageSkip(s: seq<Product>, f: Filters, k: nat)
    requires 1 <= k
    requires forall p :: Step(f, k, p)
    ensures Stage(s, f, k - 1) == Stage(s, f, k)
  {
    Seqs.FilterAgree(s, StageKeep(f, k - 1), StageKeep(f, k));
  }

  // ---------------------------------------------------------------------
  // Orders

  /** The four sort values that reorder by comparison. */
  datatype Order = PriceAsc | PriceDesc | NameAsc | NameDesc

  function SortOrder(sort: string): (o: Option<Order>)
    ensures o == Some(PriceAsc) <==> sort == "price-asc"
    ensures o == Some(PriceDesc) <==> sort == "price-desc"
    ensures o == Some(NameAsc) <==> sort == "name-asc"
    ensures o == Some(NameDesc) <==> sort == "name-desc"
  {
    if sort == "price-asc" then Some(PriceAsc)
    else if sort == "price-desc" then Some(PriceDesc)
    else if sort == "name-asc" then Some(NameAsc)
    else if sort == "name-desc" then Some(NameDesc)
    else None
  }

  /** `x` may stand before `y`: the comparator does not put `y` first. */
  predicate InOrder(o: Order, x: Product, y: Product) {
    match o
    case PriceAsc => x.price <= y.price
    case PriceDesc => y.price <= x.price
    case NameAsc => Text.LexLe(x.name, y.name)
    case NameDesc => Text.LexLe(y.name, x.name)
  }

  lemma OrderTotal(o: Order, x: Product, y: Product)
    ensures InOrder(o, x, y) || InOrder(o, y, x)
  {
    if o.NameAsc? || o.NameDesc? {
      Text.LexTotal(x.name, y.name);
    }
  }

  lemma OrderTrans(o: Order, x: Product, y: Product, z: Product)
    requires InOrder(o, x, y) && InOrder(o, y, z)
    ensures InOrder(o, x, z)
  {
    if o.NameAsc? {
      Text.LexTrans(x.name, y.name, z.name);
    } else if o.NameDesc? {
      Text.LexTrans(z.name, y.name, x.name);
    }
  }

  ghost predicate SortedBy(s: seq<Product>, o: Order) {
    forall m, n :: 0 <= m < n < |s| ==> InOrder(o, s[m], s[n])
  }

  /** 'price-asc' gives non-decreasing prices, 'price-desc' non-increasing ones. */
  lemma SortedPrices(s: seq<Product>)
    ensures SortedBy(s, PriceAsc) ==> forall m, n :: 0 <= m < n < |s| ==> s[m].price <= s[n].price
    ensures SortedBy(s, PriceDesc) ==> forall m, n :: 0 <= m < n < |s| ==> s[m].price >= s[n].price
  {
    if SortedBy(s, PriceAsc) {
      forall m, n | 0 <= m < n < |s|
        ensures s[m].price <= s[n].price
      {
        assert InOrder(PriceAsc, s[m], s[n]);
      }
    }
    if SortedBy(s, PriceDesc) {
      forall m, n | 0 <= m < n < |s|
        ensures s[m].price >= s[n].price
      {
        assert InOrder(PriceDesc, s[m], s[n]);
      }
    }
  }

  /** `result.sort(comparator)` in place, as a stable insertion sort. */
  method SortInPlace(a: array<Product>, o: Order)
    modifies a
    ensures SortedBy(a[..], o)
    ensures multiset(a[..]) == multiset(old(a[..]))
  {
    var i := 0;
    while i < a.Length
      invariant 0 <= i <= a.Length
      invariant forall m, n :: 0 <= m < n < i ==> InOrder(o, a[m], a[n])
      invariant multiset(a[..]) == multiset(old(a[..]))
    {
      var j := i;
      while j > 0 && !InOrder(o, a[j - 1], a[j])
        invariant 0 <= j <= i
        invariant forall m, n :: 0 <= m < n <= i && m != j && n != j ==> InOrder(o, a[m], a[n])
        invariant forall n :: j < n <= i ==> InOrder(o, a[j], a[n])
        invariant multiset(a[..]) == multiset(old(a[..]))
      {
        OrderTotal(o, a[j - 1], a[j]);
        a[j - 1], a[j] := a[j], a[j - 1];
        j := j - 1;
      }
      forall m | 0 <= m < j - 1
        ensures InOrder(o, a[m], a[j])
      {
        OrderTrans(o, a[m], a[j - 1], a[j]);
      }
      i := i + 1;
    }
  }

  predicate IsNew(p: Product) { p.isNew }
  predicate IsNotNew(p: Product) { !p.isNew }
  predicate IsFeatured(p: Product) { p.featured }
  predicate IsNotFeatured(p: Product) { !p.featured }

  /** A stable partition: the products satisfying `front` first, then the
      rest, each part in its original order. */
  function Partition(s: seq<Product>, front: Product -> bool, back: Product -> bool): seq<Product> {
    Seqs.Filter(s, front) + Seqs.Filter(s, back)
  }

  /** Both partitions are permutations with every front product ahead of
      every other one. */
  lemma PartitionFacts(s: seq<Product>)
    ensures multiset(Partition(s, IsNew, IsNotNew)) == multiset(s)
    ensures multiset(Partition(s, IsFeatured, IsNotFeatured)) == multiset(s)
    ensures forall m, n :: 0 <= m < n < |Partition(s, IsNew, IsNotNew)| && Partition(s, IsNew, IsNotNew)[n].isNew ==>
              Partition(s, IsNew, IsNotNew)[m].isNew
    ensures forall m, n :: 0 <= m < n < |Partition(s, IsFeatured, IsNotFeatured)| && Partition(s, IsFeatured, IsNotFeatured)[n].featured ==>
              Partition(s, IsFeatured, IsNotFeatured)[m].featured
  {
    Seqs.PartitionPermutes(s, IsNew, IsNotNew);
    Seqs.PartitionPermutes(s, IsFeatured, IsNotFeatured);
    Seqs.FilterFacts(s, IsNew);
    Seqs.FilterFacts(s, IsNotNew);
    Seqs.FilterFacts(s, IsFeatured);
    Seqs.FilterFacts(s, IsNotFeatured);
  }

  // ---------------------------------------------------------------------
  // The effect

  /** The "apply filters" effect: the catalogue narrowed filter by filter,
      then ordered by `filters.sort`. */
  method ApplyFilters(products: seq<Product>, f: Filters) returns (result: seq<Product>)
    ensures forall p :: multiset(result)[p] == if Listed(f, p) then multiset(products)[p] else 0
    ensures f.sort == "newest" ==> result == Partition(Listing(products, f), IsNew, IsNotNew)
    ensures SortOrder(f.sort).Some? ==> SortedBy(result, SortOrder(f.sort).value)
    ensures f.sort != "newest" && SortOrder(f.sort).None? ==>
              result == Partition(Listing(products, f), IsFeatured, IsNotFeatured)
  {
    var listing := NarrowCatalogue(products, f);
    result := OrderListing(listing, f.sort);
  }

  /** One guarded step `if (active) result = result.filter(keep)`, taking
      the list after `k - 1` filters to the list after `k`. */
  method FilterWhen(ghost products: seq<Product>, f: Filters, ghost k: nat,
                    result: seq<Product>, active: bool, keep: Product -> bool)
    returns (next: seq<Product>)
    requires 1 <= k && result == Stage(products, f, k - 1)
    requires active ==> forall p :: keep(p) == Step(f, k, p)
    requires !active ==> forall p :: Step(f, k, p)
    ensures next == Stage(products, f, k)
  {
    if active {
      StageAdvance(products, f, k, keep);
      next := Seqs.Filter(result, keep);
    } else {
      StageSkip(products, f, k);
      next := result;
    }
  }

  /** The seven filter steps of the effect, each guarded as in the source:
      the surviving products are those passing every filter, in catalogue order. */
  method NarrowCatalogue(products: seq<Product>, f: Filters) returns (result: seq<Product>)
    ensures result == Listing(products, f)
  {
    result := products;
    Seqs.FilterAll(products, StageKeep(f, 0));
    result := FilterWhen(products, f, 1, result, f.category != "",
                         (p: Product) => p.category == f.category);
    result := FilterWhen(products, f, 2, result, f.collection != "",
                         (p: Product) => p.collection == Some(f.collection));
    result := FilterWhen(products, f, 3, result, |f.materials| > 0,
                         (p: Product) => p.material in f.materials);
    result := FilterWhen(products, f, 4, result, true,
                         (p: Product) => p.price >= f.priceMin && p.price <= f.priceMax);
    result := FilterWhen(products, f, 5, result, f.search != "",
                         (p: Product) => Text.MatchesEither(f.search, p.name, p.description));
    result := FilterWhen(products, f, 6, result, f.inStock,
                         (p: Product) => p.inStock);
    result := FilterWhen(products, f, 7, result, f.isDynamicPricing,
                         (p: Product) => p.isDynamicPricing);
  }

  /** The `switch (filters.sort)` of the effect: 'newest' and the default
      partition stably, the four comparison sorts reorder in place. */
  method OrderListing(listing: seq<Product>, sort: string) returns (result: seq<Product>)
    ensures multiset(result) == multiset(listing)
    ensures sort == "newest" ==> result == Partition(listing, IsNew, IsNotNew)
    ensures SortOrder(sort).Some? ==> SortedBy(result, SortOrder(sort).value)
    ensures sort != "newest" && SortOrder(sort).None? ==> result == Partition(listing, IsFeatured, IsNotFeatured)
  {
    if sort == "newest" {
      result := Seqs.Filter(listing, IsNew) + Seqs.Filter(listing, IsNotNew);
      PartitionFacts(listing);
    } else if SortOrder(sort).Some? {
      var a := new Product[|listing|](i requires 0 <= i < |listing| => listing[i]);
      assert a[..] == listing;
      SortInPlace(a, SortOrder(sort).value);
      result := a[..];
    } else {
      result := Seqs.Filter(listing, IsFeatured) + Seqs.Filter(listing, IsNotFeatured);
      PartitionFacts(listing);
    }
  }

  // ---------------------------------------------------------------------
  // Handlers

  /** `handleCategoryChange`: choosing the current category clears it. */
  function HandleCategoryChange(f: Filters, category: string): (r: Filters)
    ensures r == f.(category := r.category)
    ensures f.category == category ==> r.category == ""
    ensures f.category != category ==> r.category == category
  {
    f.(category := if f.category == category then "" else category)
  }

  /** `handleCollectionChange`: choosing the current collection clears it. */
  function HandleCollectionChange(f: Filters, collection: string): (r: Filters)
    ensures r == f.(collection := r.collection)
    ensures f.collection == collection ==> r.collection == ""
    ensures f.collection != collection ==> r.collection == collection
  {
    f.(collection := if f.collection == collection then "" else collection)
  }

  /** Choosing a category twice, starting from none, returns to no category;
      likewise for collections. */
  lemma CategoryCollectionTwice(f: Filters, value: string)
    ensures f.category == "" ==> HandleCategoryChange(HandleCategoryChange(f, value), value) == f
    ensures f.collection == "" ==> HandleCollectionChange(HandleCollectionChange(f, value), value) == f
  {
  }

  /** `handleMaterialChange`: toggles membership of `material`. */
  function HandleMaterialChange(f: Filters, material: string): (r: Filters)
    ensures r == f.(materials := r.materials)
    ensures material in r.materials <==> material !in f.materials
    ensures forall m :: m != material ==> (m in r.materials <==> m in f.materials)
  {
    f.(materials := Seqs.Toggle(f.materials, material))
  }

  /** An absent material is appended; toggling it again restores the list. */
  lemma MaterialToggle(f: Filters, material: string)
    requires material !in f.materials
    ensures HandleMaterialChange(f, material).materials == f.materials + [material]
    ensures HandleMaterialChange(HandleMaterialChange(f, material), material) == f
  {
    Seqs.ToggleTwice(f.materials, material);
  }

  /** A present material loses every copy, the others keep their order. */
  lemma MaterialUntoggle(f: Filters, material: string)
    requires material in f.materials
    ensures HandleMaterialChange(f, material).materials == Seqs.RemoveAll(f.materials, material)
    ensures material !in HandleMaterialChange(f, material).materials
  {
  }

  /** `handlePriceChange([lo, hi])`. */
  function HandlePriceChange(f: Filters, lo: real, hi: real): (r: Filters)
    ensures r.priceMin == lo && r.priceMax == hi
    ensures r.(priceMin := f.priceMin, priceMax := f.priceMax) == f
  {
    f.(priceMin := lo, priceMax := hi)
  }

  /** `handleSortChange(value)`. */
  function HandleSortChange(f: Filters, value: string): (r: Filters)
    ensures r.sort == value && r.(sort := f.sort) == f
  {
    f.(sort := value)
  }

  /** `handleSearch`: the submitted value of the search input. */
  function HandleSearch(f: Filters, value: string): (r: Filters)
    ensures r.search == value && r.(search := f.search) == f
  {
    f.(search := value)
  }

  // ---------------------------------------------------------------------
  // Reset and "any filter active"

  /** `Math.max(...products.map(p => p.price))`; `None` stands for the
      `-Infinity` of an empty list. */
  function MaxPrice(s: seq<Product>): (m: Option<real>)
    ensures m.None? <==> |s| == 0
    ensures m.Some? ==> forall p :: p in s ==> p.price <= m.value
    ensures m.Some? ==> exists p :: p in s && p.price == m.value
    decreases |s|
  {
    if |s| == 0 then None
    else
      match MaxPrice(s[1..])
      case None => Some(s[0].price)
      case Some(r) =>
        assert forall p :: p in s ==> p == s[0] || p in s[1..];
        if s[0].price >= r then Some(s[0].price)
        else
          var q :| q in s[1..] && q.price == r;
          assert q in s;
          Some(r)
  }

  /** The shipped catalogue's maximum price is p1's 85000. */
  lemma CatalogueMaxPrice()
    ensures MaxPrice(Catalogue.Products) == Some(85000.0)
  {
    var s := Catalogue.Products;
    forall i | 0 <= i < |s|
      ensures s[i].price <= 85000.0
    {
    }
    assert s[0].price == 85000.0;
  }

  /** `clearAllFilters`: the defaults, with the maximum catalogue price as
      upper bound. */
  function ClearAllFilters(maxPrice: real): (f: Filters)
    ensures f.category == "" && f.collection == "" && f.materials == [] && f.search == ""
    ensures f.priceMin == 0.0 && f.priceMax == maxPrice
    ensures f.sort == "featured" && f.inStock && !f.isDynamicPricing
  {
    Filters("", "", [], 0.0, maxPrice, "", "featured", true, false)
  }

  /** `hasActiveFilters`, truthiness made explicit; the sort never counts. */
  predicate HasActiveFilters(f: Filters, maxPrice: real) {
    f.category != "" || f.collection != "" || |f.materials| > 0
    || f.priceMin > 0.0 || f.priceMax < maxPrice
    || f.search != "" || !f.inStock || f.isDynamicPricing
  }

  /** After a reset no filter is active, and the page then lists exactly the
      in-stock products priced from 0 to the maximum. */
  lemma ClearDeactivates(maxPrice: real, p: Product)
    ensures !HasActiveFilters(ClearAllFilters(maxPrice), maxPrice)
    ensures Listed(ClearAllFilters(maxPrice), p) <==> p.inStock && 0.0 <= p.price <= maxPrice
  {
    ListedSteps(ClearAllFilters(maxPrice), p);
  }

  /** With no filter active and the full price range, a filter set lists
      what a reset lists, whatever its sort. */
  lemma InactiveListsLikeCleared(f: Filters, maxPrice: real, p: Product)
    requires !HasActiveFilters(f, maxPrice)
    requires f.priceMin == 0.0 && f.priceMax == maxPrice
    ensures Listed(f, p) <==> Listed(ClearAllFilters(maxPrice), p)
  {
    ListedSteps(f, p);
    ListedSteps(ClearAllFilters(maxPrice), p);
  }

  // ---------------------------------------------------------------------
  // URL parameters

  /** `URLSearchParams.get(key)`: the value of the first pair under `key`. */
  function Get(params: seq<(string, string)>, key: string): Option<string>
    decreases |params|
  {
    if |params| == 0 then None
    else if params[0].0 == key then Some(params[0].1)
    else Get(params[1..], key)
  }

  /** `Get` finds nothing exactly when no pair has the key, and otherwise
      the value of the first pair that has it. */
  lemma {:induction false} GetFirst(params: seq<(string, string)>, key: string)
    ensures Get(params, key).None? <==> forall i :: 0 <= i < |params| ==> params[i].0 != key
    ensures Get(params, key).Some? ==>
              exists i :: 0 <= i < |params| && params[i] == (key, Get(params, key).value)
                          && forall j :: 0 <= j < i ==> params[j].0 != key
    decreases |params|
  {
    if |params| > 0 && params[0].0 != key {
      GetFirst(params[1..], key);
      if Get(params, key).Some? {
        var i :| 0 <= i < |params[1..]| && params[1..][i] == (key, Get(params, key).value)
                 && forall j :: 0 <= j < i ==> params[1..][j].0 != key;
        assert params[i + 1] == (key, Get(params, key).value);
        assert forall j :: 0 <= j < i + 1 ==> params[j].0 != key by {
          forall j | 0 <= j < i + 1
            ensures params[j].0 != key
          {
            if j > 0 {
              assert params[j] == params[1..][j - 1];
            }
          }
        }
      } else {
        forall i | 0 <= i < |params|
          ensures params[i].0 != key
        {
          if i > 0 {
            assert params[i] == params[1..][i - 1];
          }
        }
      }
    } else if |params| > 0 {
      assert params[0] == (key, Get(params, key).value);
    }
  }

  /** Looking up in a concatenation searches the first part first. */
  lemma {:induction false} GetConcat(a: seq<(string, string)>, b: seq<(string, string)>)
    ensures forall key :: Get(a + b, key) == if Get(a, key).Some? then Get(a, key) else Get(b, key)
    decreases |a|
  {
    if |a| == 0 {
      assert a + b == b;
    } else {
      GetConcat(a[1..], b);
      assert (a + b)[0] == a[0] && (a + b)[1..] == a[1..] + b;
    }
  }

  /** `searchParams.get(key) || fallback`. */
  function GetOr(params: seq<(string, string)>, key: string, fallback: string): (v: string)
    ensures Get(params, key).Some? && Get(params, key).value != "" ==> v == Get(params, key).value
    ensures Get(params, key).None? || Get(params, key).value == "" ==> v == fallback
  {
    match Get(params, key)
    case Some(s) => if s != "" then s else fallback
    case None => fallback
  }

  /** The initial `filters` read from the URL. */
  function InitialFilters(params: seq<(string, string)>, maxPrice: real): (f: Filters)
    ensures f == ClearAllFilters(maxPrice).(category := f.category, collection := f.collection,
                                            search := f.search, sort := f.sort)
    ensures f.sort != ""
  {
    Filters(GetOr(params, "category", ""), GetOr(params, "collection", ""), [], 0.0, maxPrice,
            GetOr(params, "search", ""), GetOr(params, "sort", "featured"), true, false)
  }

  /** `if (cond) params.set(key, value)` on a fresh parameter list. */
  function SetIf(cond: bool, key: string, value: string): (params: seq<(string, string)>)
    ensures forall k :: Get(params, k) == if cond && k == key then Some(value) else None
  {
    if cond then [(key, value)] else []
  }

  /** The parameters the page writes back, in the order it sets them. */
  function UrlParams(f: Filters): (params: seq<(string, string)>)
    ensures |params| <= 4
    ensures Get(params, "category") == if f.category != "" then Some(f.category) else None
    ensures Get(params, "collection") == if f.collection != "" then Some(f.collection) else None
    ensures Get(params, "search") == if f.search != "" then Some(f.search) else None
    ensures Get(params, "sort") == if f.sort != "featured" then Some(f.sort) else None
  {
    var category := SetIf(f.category != "", "category", f.category);
    var collection := SetIf(f.collection != "", "collection", f.collection);
    var search := SetIf(f.search != "", "search", f.search);
    var sort := SetIf(f.sort != "featured", "sort", f.sort);
    assert |"category"| == 8 && |"collection"| == 10 && |"search"| == 6 && |"sort"| == 4;
    GetConcat(category, collection);
    GetConcat(category + collection, search);
    GetConcat(category + collection + search, sort);
    category + collection + search + sort
  }

  /** Reading back the written parameters restores category, collection,
      search and sort (an empty sort comes back as 'featured'). */
  lemma UrlRoundTrip(f: Filters, maxPrice: real)
    ensures InitialFilters(UrlParams(f), maxPrice).category == f.category
    ensures InitialFilters(UrlParams(f), maxPrice).collection == f.collection
    ensures InitialFilters(UrlParams(f), maxPrice).search == f.search
    ensures InitialFilters(UrlParams(f), maxPrice).sort == if f.sort == "" then "featured" else f.sort
  {
  }
}
