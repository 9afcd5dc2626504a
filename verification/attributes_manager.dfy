/** The admin attribute list of src/components/admin/AttributesManager.tsx:
    the mock attributes, the case-insensitive search over name and slug, and
    the save button of the "Add New Attribute" dialog. */
module AttributesManager {
  import Seqs
  import Text

  /** An attribute row; the source's `type` field is `kind` here. */
  datatype AttributeRow = AttributeRow(id: int, name: string, slug: string, values: seq<string>, kind: string)

  const A1 := AttributeRow(1, "Size", "size", ["Small", "Medium", "Large"], "select")
  const A2 := AttributeRow(2, "Color", "color", ["Gold", "Silver", "Rose Gold"], "color")
  const A3 := AttributeRow(3, "Material", "material", ["22K Gold", "18K Gold", "Silver"], "select")
  const A4 := AttributeRow(4, "Style", "style", ["Traditional", "Modern", "Fusion"], "select")

  const MockAttributes: seq<AttributeRow> := [A1, A2, A3, A4]

  /** The four state fields of the component. */
  datatype AttributesPage = AttributesPage(
    attributes: seq<AttributeRow>, isAddAttributeOpen: bool, searchTerm: string, newAttributeValues: string
  )

  const Initial := AttributesPage(MockAttributes, false, "", "")

  /** The search predicate of lines 27-30. */
  function SearchKeep(term: string): AttributeRow -> bool {
    (a: AttributeRow) => Text.MatchesEither(term, a.name, a.slug)
  }

  /** `filteredAttributes`. */
  function FilteredAttributes(attributes: seq<AttributeRow>, searchTerm: string): seq<AttributeRow> {
    Seqs.Filter(attributes, SearchKeep(searchTerm))
  }

  /** An attribute is listed exactly when the lower-cased term occurs in its
      lower-cased name or slug, as often as it occurs and in list order; the
      empty term lists every attribute. */
  lemma SearchFacts(attributes: seq<AttributeRow>, more: seq<AttributeRow>, searchTerm: string)
    ensures forall a: AttributeRow :: a in FilteredAttributes(attributes, searchTerm) <==>
              a in attributes && Text.MatchesEither(searchTerm, a.name, a.slug)
    ensures forall a: AttributeRow :: Text.MatchesEither(searchTerm, a.name, a.slug) ==>
              multiset(FilteredAttributes(attributes, searchTerm))[a] == multiset(attributes)[a]
    ensures FilteredAttributes(attributes + more, searchTerm)
            == FilteredAttributes(attributes, searchTerm) + FilteredAttributes(more, searchTerm)
    ensures FilteredAttributes(attributes, "") == attributes
  {
    Seqs.FilterFacts(attributes, SearchKeep(searchTerm));
    Seqs.FilterConcat(attributes, more, SearchKeep(searchTerm));
    forall a | a in attributes
      ensures SearchKeep("")(a)
    {
      Text.EmptyTermMatches(a.name, a.slug);
    }
    Seqs.FilterAll(attributes, SearchKeep(""));
  }

  /** The table shows the attributes that match the current term. */
  function ShownAttributes(s: AttributesPage): seq<AttributeRow> {
    FilteredAttributes(s.attributes, s.searchTerm)
  }

  /** `handleAddAttribute`: nothing is stored; the dialog closes. */
  function HandleAddAttribute(s: AttributesPage): (r: AttributesPage)
    ensures !r.isAddAttributeOpen
    ensures r.attributes == s.attributes && r.searchTerm == s.searchTerm
    ensures r.newAttributeValues == s.newAttributeValues
  {
    s.(isAddAttributeOpen := false)
  }

  /** Saving a new attribute leaves the table exactly as it was, and saving
      twice is saving once. */
  lemma AddKeepsTable(s: AttributesPage)
    ensures ShownAttributes(HandleAddAttribute(s)) == ShownAttributes(s)
    ensures |HandleAddAttribute(s).attributes| == |s.attributes|
    ensures HandleAddAttribute(HandleAddAttribute(s)) == HandleAddAttribute(s)
  {
  }

  /** "col" finds Color and nothing else. */
  lemma ColSearch()
    ensures FilteredAttributes(MockAttributes, "col") == [A2]
  {
    Text.MatchedAt("col", A2.name, A2.slug, 0);
    ColDropped();
    KeepSecondOnly(A1, A2, A3, A4, SearchKeep("col"));
  }

  lemma KeepSecondOnly(a: AttributeRow, b: AttributeRow, c: AttributeRow, d: AttributeRow,
                       keep: AttributeRow -> bool)
    requires !keep(a) && keep(b) && !keep(c) && !keep(d)
    ensures Seqs.Filter([a, b, c, d], keep) == [b]
  {
    Seqs.FilterFour(a, b, c, d, keep, false, true, false, false);
  }

  lemma ColDropped()
    ensures !SearchKeep("col")(A1) && !SearchKeep("col")(A3) && !SearchKeep("col")(A4)
  {
    NoColSize();
    NoColMaterial();
    NoColStyle();
  }

  /** Neither "Size" nor "size" has a 'c'. */
  lemma NoColSize()
    ensures !Text.MatchesEither("col", "Size", "size")
  {
    Text.ExcludedByLetter("col", "Size", "size", 'c');
  }

  /** Neither "Material" nor "material" has a 'c'. */
  lemma NoColMaterial()
    ensures !Text.MatchesEither("col", "Material", "material")
  {
    Text.ExcludedByLetter("col", "Material", "material", 'c');
  }

  /** Neither "Style" nor "style" has a 'c'. */
  lemma NoColStyle()
    ensures !Text.MatchesEither("col", "Style", "style")
  {
    Text.ExcludedByLetter("col", "Style", "style", 'c');
  }
}
