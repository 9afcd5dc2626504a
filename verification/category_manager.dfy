/** The admin category list of src/components/admin/CategoryManager.tsx:
    the mock categories, the case-insensitive search over name and slug, and
    the save button of the "Add New Category" dialog. */
module CategoryManager {
  import Seqs
  import Text

  /** A category row; `count` is the number of products shown beside it. */
  datatype CategoryRow = CategoryRow(id: int, name: string, slug: string, description: string, count: int)

  const C1 := CategoryRow(1, "Necklaces", "necklaces", "Beautiful necklaces for all occasions", 15)
  const C2 := CategoryRow(2, "Earrings", "earrings", "Stunning earrings collection", 23)
  const C3 := CategoryRow(3, "Rings", "rings", "Elegant rings for men and women", 18)
  const C4 := CategoryRow(4, "Bangles", "bangles", "Traditional and modern bangles", 12)
  const C5 := CategoryRow(5, "Bracelets", "bracelets", "Stylish bracelets for all occasions", 10)

  const MockCategories: seq<CategoryRow> := [C1, C2, C3, C4, C5]

  /** The three state fields of the component. */
  datatype CategoryPage = CategoryPage(categories: seq<CategoryRow>, isAddCategoryOpen: bool, searchTerm: string)

  const Initial := CategoryPage(MockCategories, false, "")

  /** The search predicate of lines 27-30. */
  function SearchKeep(term: string): CategoryRow -> bool {
    (c: CategoryRow) => Text.MatchesEither(term, c.name, c.slug)
  }

  /** `filteredCategories`. */
  function FilteredCategories(categories: seq<CategoryRow>, searchTerm: string): seq<CategoryRow> {
    Seqs.Filter(categories, SearchKeep(searchTerm))
  }

  /** A category is listed exactly when the lower-cased term occurs in its
      lower-cased name or slug, as often as it occurs and in list order; the
      empty term lists every category. */
  lemma SearchFacts(categories: seq<CategoryRow>, more: seq<CategoryRow>, searchTerm: string)
    ensures forall c: CategoryRow :: c in FilteredCategories(categories, searchTerm) <==>
              c in categories && Text.MatchesEither(searchTerm, c.name, c.slug)
    ensures forall c: CategoryRow :: Text.MatchesEither(searchTerm, c.name, c.slug) ==>
              multiset(FilteredCategories(categories, searchTerm))[c] == multiset(categories)[c]
    ensures FilteredCategories(categories + more, searchTerm)
            == FilteredCategories(categories, searchTerm) + FilteredCategories(more, searchTerm)
    ensures FilteredCategories(categories, "") == categories
  {
    Seqs.FilterFacts(categories, SearchKeep(searchTerm));
    Seqs.FilterConcat(categories, more, SearchKeep(searchTerm));
    forall c | c in categories
      ensures SearchKeep("")(c)
    {
      Text.EmptyTermMatches(c.name, c.slug);
    }
    Seqs.FilterAll(categories, SearchKeep(""));
  }

  /** The table shows the categories that match the current term. */
  function ShownCategories(s: CategoryPage): seq<CategoryRow> {
    FilteredCategories(s.categories, s.searchTerm)
  }

  /** `handleAddCategory`: nothing is stored; the dialog closes. */
  function HandleAddCategory(s: CategoryPage): (r: CategoryPage)
    ensures !r.isAddCategoryOpen
    ensures r.categories == s.categories && r.searchTerm == s.searchTerm
  {
    s.(isAddCategoryOpen := false)
  }

  /** Saving a new category leaves the table exactly as it was, and saving
      twice is saving once. */
  lemma AddKeepsTable(s: CategoryPage)
    ensures ShownCategories(HandleAddCategory(s)) == ShownCategories(s)
    ensures |HandleAddCategory(s).categories| == |s.categories|
    ensures HandleAddCategory(HandleAddCategory(s)) == HandleAddCategory(s)
  {
  }

  /** "ring" finds Earrings as well as Rings, because it is a substring of
      "earrings", and nothing else. */
  lemma RingSearch()
    ensures FilteredCategories(MockCategories, "ring") == [C2, C3]
  {
    RingKept();
    RingDropped();
    KeepSecondAndThird(C1, C2, C3, C4, C5, SearchKeep("ring"));
  }

  lemma KeepSecondAndThird(a: CategoryRow, b: CategoryRow, c: CategoryRow, d: CategoryRow, e: CategoryRow,
                           keep: CategoryRow -> bool)
    requires !keep(a) && keep(b) && keep(c) && !keep(d) && !keep(e)
    ensures Seqs.Filter([a, b, c, d, e], keep) == [b, c]
  {
    Seqs.FilterFive(a, b, c, d, e, keep, false, true, true, false, false);
  }

  lemma RingKept()
    ensures SearchKeep("ring")(C2) && SearchKeep("ring")(C3)
  {
    Text.MatchedAt("ring", C2.name, C2.slug, 3);
    Text.MatchedAt("ring", C3.name, C3.slug, 0);
  }

  lemma RingDropped()
    ensures !SearchKeep("ring")(C1) && !SearchKeep("ring")(C4) && !SearchKeep("ring")(C5)
  {
    NoRingNecklaces();
    NoRingBangles();
    NoRingBracelets();
  }

  /** Neither "Necklaces" nor "necklaces" has an 'r'. */
  lemma NoRingNecklaces()
    ensures !Text.MatchesEither("ring", "Necklaces", "necklaces")
  {
    Text.ExcludedByLetter("ring", "Necklaces", "necklaces", 'r');
  }

  /** Neither "Bangles" nor "bangles" has an 'r'. */
  lemma NoRingBangles()
    ensures !Text.MatchesEither("ring", "Bangles", "bangles")
  {
    Text.ExcludedByLetter("ring", "Bangles", "bangles", 'r');
  }

  /** Neither "Bracelets" nor "bracelets" has an 'i'. */
  lemma NoRingBracelets()
    ensures !Text.MatchesEither("ring", "Bracelets", "bracelets")
  {
    Text.ExcludedByLetter("ring", "Bracelets", "bracelets", 'i');
  }
}
