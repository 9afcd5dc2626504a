/** The admin product list of
    src/components/admin/products/useMockProducts.ts: a fixed list of mock
    products and a case-insensitive search over name and SKU. */
module MockProducts {
  import Seqs
  import Text

  /** A mock product; the source's `type` field is `kind` here. */
  datatype MockProduct = MockProduct(
    id: int, name: string, sku: string, price: string, stock: int, status: string, kind: string
  )

  const M1 := MockProduct(1, "Gold Chain Necklace", "GCN-001", "₹24,500", 5, "Active", "Simple")
  const M2 := MockProduct(2, "Diamond Stud Earrings", "DSE-045", "₹18,200", 3, "Active", "Variable")
  const M3 := MockProduct(3, "Silver Anklet", "SA-102", "₹2,800", 12, "Active", "Simple")
  const M4 := MockProduct(4, "Platinum Wedding Band", "PWB-033", "₹35,000", 8, "Active", "Variable")
  const M5 := MockProduct(5, "Gold Bangles Set", "GBS-078", "₹42,600", 6, "Inactive", "Simple")

  const InitialMockProducts: seq<MockProduct> := [M1, M2, M3, M4, M5]

  /** The hook's two state fields. */
  datatype HookState = HookState(products: seq<MockProduct>, searchTerm: string)

  const Initial := HookState(InitialMockProducts, "")

  /** The search predicate of lines 17-20. */
  function SearchKeep(term: string): MockProduct -> bool {
    (p: MockProduct) => Text.MatchesEither(term, p.name, p.sku)
  }

  /** `filteredProducts`. */
  function FilteredProducts(products: seq<MockProduct>, searchTerm: string): seq<MockProduct> {
    Seqs.Filter(products, SearchKeep(searchTerm))
  }

  /** A product is kept exactly when the lower-cased term occurs in its
      lower-cased name or SKU, as often as it occurs in the list and in list
      order; the empty term keeps every product. */
  lemma SearchFacts(products: seq<MockProduct>, more: seq<MockProduct>, searchTerm: string)
    ensures forall p: MockProduct :: p in FilteredProducts(products, searchTerm) <==>
              p in products && Text.MatchesEither(searchTerm, p.name, p.sku)
    ensures forall p: MockProduct :: Text.MatchesEither(searchTerm, p.name, p.sku) ==>
              multiset(FilteredProducts(products, searchTerm))[p] == multiset(products)[p]
    ensures FilteredProducts(products + more, searchTerm)
            == FilteredProducts(products, searchTerm) + FilteredProducts(more, searchTerm)
    ensures FilteredProducts(products, "") == products
  {
    Seqs.FilterFacts(products, SearchKeep(searchTerm));
    Seqs.FilterConcat(products, more, SearchKeep(searchTerm));
    forall p | p in products
      ensures SearchKeep("")(p)
    {
      Text.EmptyTermMatches(p.name, p.sku);
    }
    Seqs.FilterAll(products, SearchKeep(""));
  }

  /** `setSearchTerm`: only the term changes. */
  function SetSearchTerm(s: HookState, searchTerm: string): (r: HookState)
    ensures r.products == s.products && r.searchTerm == searchTerm
  {
    s.(searchTerm := searchTerm)
  }

  /** What the hook returns. */
  datatype HookResult = HookResult(
    products: seq<MockProduct>, searchTerm: string, filteredProducts: seq<MockProduct>
  )

  function UseMockProducts(s: HookState): HookResult {
    HookResult(s.products, s.searchTerm, FilteredProducts(s.products, s.searchTerm))
  }

  /** Searching never changes the product list: after any number of term
      changes the hook still returns the full list beside the filtered one,
      and clearing the term shows every product again. */
  lemma SearchKeepsProducts(s: HookState, term: string, next: string)
    ensures UseMockProducts(SetSearchTerm(SetSearchTerm(s, term), next)).products == s.products
    ensures UseMockProducts(SetSearchTerm(s, term)).filteredProducts == FilteredProducts(s.products, term)
    ensures UseMockProducts(SetSearchTerm(s, "")).filteredProducts == s.products
  {
    SearchFacts(s.products, [], "");
  }

  /** "gold" finds the two gold pieces, ids 1 and 5, and nothing else. */
  lemma GoldSearch()
    ensures FilteredProducts(InitialMockProducts, "gold") == [M1, M5]
  {
    GoldKept();
    GoldDropped();
    KeepFirstAndLast(M1, M2, M3, M4, M5, SearchKeep("gold"));
  }

  lemma KeepFirstAndLast(a: MockProduct, b: MockProduct, c: MockProduct, d: MockProduct, e: MockProduct,
                         keep: MockProduct -> bool)
    requires keep(a) && !keep(b) && !keep(c) && !keep(d) && keep(e)
    ensures Seqs.Filter([a, b, c, d, e], keep) == [a, e]
  {
    Seqs.FilterFive(a, b, c, d, e, keep, true, false, false, false, true);
  }

  lemma GoldKept()
    ensures SearchKeep("gold")(M1) && SearchKeep("gold")(M5)
  {
    Text.MatchedAt("gold", M1.name, M1.sku, 0);
    Text.MatchedAt("gold", M5.name, M5.sku, 0);
  }

  lemma GoldDropped()
    ensures !SearchKeep("gold")(M2) && !SearchKeep("gold")(M3) && !SearchKeep("gold")(M4)
  {
    NoGoldDiamond();
    NoGoldSilver();
    NoGoldPlatinum();
  }

  /** Neither "Diamond Stud Earrings" nor "DSE-045" has an 'l'. */
  lemma NoGoldDiamond()
    ensures !Text.MatchesEither("gold", "Diamond Stud Earrings", "DSE-045")
  {
    Text.ExcludedByLetter("gold", "Diamond Stud Earrings", "DSE-045", 'l');
  }

  /** Neither "Silver Anklet" nor "SA-102" has a 'g'. */
  lemma NoGoldSilver()
    ensures !Text.MatchesEither("gold", "Silver Anklet", "SA-102")
  {
    Text.ExcludedByLetter("gold", "Silver Anklet", "SA-102", 'g');
  }

  /** Neither "Platinum Wedding Band" nor "PWB-033" has an 'o'. */
  lemma NoGoldPlatinum()
    ensures !Text.MatchesEither("gold", "Platinum Wedding Band", "PWB-033")
  {
    Text.ExcludedByLetter("gold", "Platinum Wedding Band", "PWB-033", 'o');
  }
}
