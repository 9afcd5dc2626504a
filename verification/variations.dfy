/** Variant generation and editing of
    src/components/admin/products/ProductVariations.tsx: the Cartesian
    product of the selected attribute values, the variants built from it
    with their SKU numbering, and the per-id edits and removal. */
module Variations {
  import opened Base
  import Seqs
  import Text

  /** An attribute chosen for the product, with the values picked so far. */
  datatype SelectedAttribute = SelectedAttribute(
    id: int,
    name: string,
    values: seq<string>,
    selectedValues: seq<string>
  )

  /** One combination: attribute name to chosen value. */
  type Combination = map<string, string>

  datatype Variant = Variant(
    id: string,
    attributes: Combination,
    sku: string,
    price: string,
    stock: int,
    isDynamicPricing: bool,
    materialId: Option<int>,
    weight: Option<real>,
    makingCharge: Option<real>
  )

  // ---------------------------------------------------------------------
  // Combinations

  /** `generateCombinations(attributes, current, index)`: for each selected
      value of attribute `index`, in order, every combination of the later
      attributes extending `current` with that value. */
  function Combinations(attrs: seq<SelectedAttribute>, current: Combination, index: nat): seq<Combination>
    requires index <= |attrs|
    decreases |attrs| - index, 1, 0
  {
    if index == |attrs| then [current]
    else Expand(attrs, current, index, attrs[index].selectedValues)
  }

  /** The combinations contributed by the first `|values|` iterations of
      the `for` loop over attribute `index`. */
  function Expand(attrs: seq<SelectedAttribute>, current: Combination, index: nat, values: seq<string>): seq<Combination>
    requires index < |attrs|
    decreases |attrs| - index, 0, |values|
  {
    if |values| == 0 then []
    else
      Expand(attrs, current, index, values[..|values| - 1])
      + Combinations(attrs, current[attrs[index].name := values[|values| - 1]], index + 1)
  }

  /** The recursive generator with its `for` loop and accumulating array. */
  method GenerateCombinations(attributes: seq<SelectedAttribute>, current: Combination, index: nat)
    returns (combinations: seq<Combination>)
    requires index <= |attributes|
    ensures combinations == Combinations(attributes, current, index)
    decreases |attributes| - index
  {
    if index == |attributes| {
      return [current];
    }
    var attribute := attributes[index];
    combinations := [];
    for i := 0 to |attribute.selectedValues|
      invariant combinations == Expand(attributes, current, index, attribute.selectedValues[..i])
    {
      var value := attribute.selectedValues[i];
      var newCombination := current[attribute.name := value];
      var more := GenerateCombinations(attributes, newCombination, index + 1);
      assert attribute.selectedValues[..i + 1][..i] == attribute.selectedValues[..i];
      combinations := combinations + more;
    }
    assert attribute.selectedValues[..|attribute.selectedValues|] == attribute.selectedValues;
  }

  /** The product of the selected-value counts of attributes `index..`. */
  function Prod(attrs: seq<SelectedAttribute>, index: nat): nat
    requires index <= |attrs|
    decreases |attrs| - index
  {
    if index == |attrs| then 1 else |attrs[index].selectedValues| * Prod(attrs, index + 1)
  }

  /** There are as many combinations as the product of the counts. */
  lemma {:induction false} CountCombinations(attrs: seq<SelectedAttribute>, current: Combination, index: nat)
    requires index <= |attrs|
    ensures |Combinations(attrs, current, index)| == Prod(attrs, index)
    decreases |attrs| - index, 1, 0
  {
    if index < |attrs| {
      CountExpand(attrs, current, index, attrs[index].selectedValues);
    }
  }

  lemma {:induction false} CountExpand(attrs: seq<SelectedAttribute>, current: Combination, index: nat, values: seq<string>)
    requires index < |attrs|
    ensures |Expand(attrs, current, index, values)| == |values| * Prod(attrs, index + 1)
    decreases |attrs| - index, 0, |values|
  {
    if |values| > 0 {
      var n := |values| - 1;
      CountExpand(attrs, current, index, values[..n]);
      CountCombinations(attrs, current[attrs[index].name := values[n]], index + 1);
      var b := Prod(attrs, index + 1);
      assert n * b + b == (n + 1) * b;
    }
  }

  /** An attribute with no selected value leaves no combination at all,
      which is why generation first drops such attributes. */
  lemma EmptyAttributeEmptiesAll(attrs: seq<SelectedAttribute>, index: nat, j: nat)
    requires index <= j < |attrs| && |attrs[j].selectedValues| == 0
    ensures forall current: Combination :: |Combinations(attrs, current, index)| == 0
    decreases j - index
  {
    ZeroProd(attrs, index, j);
    forall current: Combination
      ensures |Combinations(attrs, current, index)| == 0
    {
      CountCombinations(attrs, current, index);
    }
  }

  lemma {:induction false} ZeroProd(attrs: seq<SelectedAttribute>, index: nat, j: nat)
    requires index <= j < |attrs| && |attrs[j].selectedValues| == 0
    ensures Prod(attrs, index) == 0
    decreases j - index
  {
    if index < j {
      ZeroProd(attrs, index + 1, j);
    }
  }

  /** The names of attributes `index..`. */
  ghost function NamesFrom(attrs: seq<SelectedAttribute>, index: nat): set<string> {
    set j | index <= j < |attrs| :: attrs[j].name
  }

  ghost predicate DistinctNames(attrs: seq<SelectedAttribute>) {
    forall i, j :: 0 <= i < j < |attrs| ==> attrs[i].name != attrs[j].name
  }

  /** `c` extends `current` by exactly the names of attributes `index..`,
      each mapped to one of that attribute's selected values, and keeps
      every other key of `current`. */
  ghost predicate Shaped(attrs: seq<SelectedAttribute>, current: Combination, index: nat, c: Combination) {
    c.Keys == current.Keys + NamesFrom(attrs, index)
    && (forall j :: index <= j < |attrs| ==> attrs[j].name in c && c[attrs[j].name] in attrs[j].selectedValues)
    && (forall k :: k in current && k !in NamesFrom(attrs, index) ==> k in c && c[k] == current[k])
  }

  /** With distinct attribute names, every combination is shaped. */
  lemma {:induction false} CombinationShape(attrs: seq<SelectedAttribute>, current: Combination, index: nat)
    requires index <= |attrs| && DistinctNames(attrs)
    ensures forall c :: c in Combinations(attrs, current, index) ==> Shaped(attrs, current, index, c)
    decreases |attrs| - index, 1, 0
  {
    if index < |attrs| {
      ExpandShape(attrs, current, index, attrs[index].selectedValues);
    } else {
      assert NamesFrom(attrs, index) == {};
    }
  }

  lemma {:induction false} ExpandShape(attrs: seq<SelectedAttribute>, current: Combination, index: nat, values: seq<string>)
    requires index < |attrs| && DistinctNames(attrs)
    requires forall v :: v in values ==> v in attrs[index].selectedValues
    ensures forall c :: c in Expand(attrs, current, index, values) ==> Shaped(attrs, current, index, c)
    decreases |attrs| - index, 0, |values|
  {
    if |values| > 0 {
      var n := |values| - 1;
      var name := attrs[index].name;
      assert forall v :: v in values[..n] ==> v in values;
      ExpandShape(attrs, current, index, values[..n]);
      var next := current[name := values[n]];
      CombinationShape(attrs, next, index + 1);
      assert NamesFrom(attrs, index) == {name} + NamesFrom(attrs, index + 1);
      assert name !in NamesFrom(attrs, index + 1);
      forall c | c in Combinations(attrs, next, index + 1)
        ensures Shaped(attrs, current, index, c)
      {
        assert Shaped(attrs, next, index + 1, c);
        assert c[name] == values[n];
      }
    }
  }

  /** Combinations come in lexicographic order, the first attribute varying
      slowest: with `B` the number of combinations of the later attributes,
      entry `q * B + r` of the expansion of attribute `index` is entry `r`
      of the block for its value number `q`. */
  lemma {:induction false} ExpandIndex(attrs: seq<SelectedAttribute>, current: Combination, index: nat,
                                       values: seq<string>, q: nat, r: nat)
    requires index < |attrs|
    requires q < |values| && r < Prod(attrs, index + 1)
    ensures r < |Combinations(attrs, current[attrs[index].name := values[q]], index + 1)|
    ensures q * Prod(attrs, index + 1) + r < |Expand(attrs, current, index, values)|
            && Expand(attrs, current, index, values)[q * Prod(attrs, index + 1) + r]
               == Combinations(attrs, current[attrs[index].name := values[q]], index + 1)[r]
    decreases |values|
  {
    var b := Prod(attrs, index + 1);
    var n := |values| - 1;
    var name := attrs[index].name;
    CountExpand(attrs, current, index, values[..n]);
    CountCombinations(attrs, current[name := values[n]], index + 1);
    CountCombinations(attrs, current[name := values[q]], index + 1);
    if q < n {
      ExpandIndex(attrs, current, index, values[..n], q, r);
      assert values[..n][q] == values[q];
    } else {
      assert q * b + r == |Expand(attrs, current, index, values[..n])| + r;
    }
  }

  // ---------------------------------------------------------------------
  // Variants

  /** Attributes that contribute to generation: those with a selected value. */
  predicate HasSelection(a: SelectedAttribute) {
    |a.selectedValues| > 0
  }

  function Active(selected: seq<SelectedAttribute>): seq<SelectedAttribute> {
    Seqs.Filter(selected, HasSelection)
  }

  /** The active attributes are the selected ones with values, in order; a
      list with distinct names keeps them distinct. */
  lemma {:induction false} ActiveFacts(selected: seq<SelectedAttribute>)
    ensures forall a :: a in Active(selected) <==> a in selected && |a.selectedValues| > 0
    ensures DistinctNames(selected) ==> DistinctNames(Active(selected))
    decreases |selected|
  {
    Seqs.FilterFacts(selected, HasSelection);
    if |selected| > 0 {
      ActiveFacts(selected[1..]);
      Seqs.FilterFacts(selected[1..], HasSelection);
      if DistinctNames(selected) {
        assert DistinctNames(selected[1..]);
        forall a | a in Active(selected[1..])
          ensures a.name != selected[0].name
        {
          var j :| 0 <= j < |selected[1..]| && selected[1..][j] == a;
          assert selected[j + 1] == a;
        }
      }
    }
  }

  /** `variant-${stamp}-${index}`, with `Date.now()` given as `stamp`. */
  function VariantId(stamp: nat, index: nat): string {
    "variant-" + Text.NatToString(stamp) + "-" + Text.NatToString(index)
  }

  /** `SKU-${index + 1}`. */
  function Sku(index: nat): string {
    "SKU-" + Text.NatToString(index + 1)
  }

  /** The fresh variant built for combination number `index`. */
  function NewVariant(combination: Combination, stamp: nat, index: nat): (v: Variant)
    ensures v.attributes == combination && v.sku == Sku(index) && v.id == VariantId(stamp, index)
    ensures v.price == "" && v.stock == 1 && !v.isDynamicPricing
    ensures v.materialId.None? && v.weight.None? && v.makingCharge.None?
  {
    Variant(VariantId(stamp, index), combination, Sku(index), "", 1, false, None, None, None)
  }

  /** `attributeCombinations.map((combination, index) => ...)`. */
  function MakeVariants(combinations: seq<Combination>, stamp: nat): (vs: seq<Variant>)
    ensures |vs| == |combinations|
    ensures forall i :: 0 <= i < |vs| ==> vs[i] == NewVariant(combinations[i], stamp, i)
  {
    seq(|combinations|, i requires 0 <= i < |combinations| => NewVariant(combinations[i], stamp, i))
  }

  /** Numbered strings with a common prefix differ when the numbers do. */
  lemma PrefixedNumbersDiffer(prefix: string, a: nat, b: nat)
    requires a != b
    ensures prefix + Text.NatToString(a) != prefix + Text.NatToString(b)
  {
    if prefix + Text.NatToString(a) == prefix + Text.NatToString(b) {
      assert (prefix + Text.NatToString(a))[|prefix|..] == Text.NatToString(a);
      assert (prefix + Text.NatToString(b))[|prefix|..] == Text.NatToString(b);
      Text.NatToStringInjective(a, b);
    }
  }

  /** Generated variants have pairwise distinct SKUs and ids. */
  lemma GeneratedDistinct(combinations: seq<Combination>, stamp: nat)
    ensures forall i, j :: 0 <= i < j < |combinations| ==>
              MakeVariants(combinations, stamp)[i].sku != MakeVariants(combinations, stamp)[j].sku
              && MakeVariants(combinations, stamp)[i].id != MakeVariants(combinations, stamp)[j].id
  {
    forall i, j | 0 <= i < j < |combinations|
      ensures Sku(i) != Sku(j) && VariantId(stamp, i) != VariantId(stamp, j)
    {
      PrefixedNumbersDiffer("SKU-", i + 1, j + 1);
      PrefixedNumbersDiffer("variant-" + Text.NatToString(stamp) + "-", i, j);
    }
  }

  /** `generateVariations`: with no active attribute the variants stay as
      they are; otherwise the generated list replaces them entirely, one
      variant per combination of the active attributes. */
  method GenerateVariations(selectedAttributes: seq<SelectedAttribute>, variants: seq<Variant>, stamp: nat)
    returns (newVariants: seq<Variant>)
    ensures |Active(selectedAttributes)| == 0 ==> newVariants == variants
    ensures |Active(selectedAttributes)| > 0 ==>
              newVariants == MakeVariants(Combinations(Active(selectedAttributes), map[], 0), stamp)
              && |newVariants| == Prod(Active(selectedAttributes), 0)
  {
    var activeAttributes := Seqs.Filter(selectedAttributes, HasSelection);
    if |activeAttributes| == 0 {
      return variants;
    }
    var attributeCombinations := GenerateCombinations(activeAttributes, map[], 0);
    CountCombinations(activeAttributes, map[], 0);
    newVariants := [];
    for index := 0 to |attributeCombinations|
      invariant newVariants == MakeVariants(attributeCombinations[..index], stamp)
    {
      newVariants := newVariants + [NewVariant(attributeCombinations[index], stamp, index)];
    }
    assert attributeCombinations[..|attributeCombinations|] == attributeCombinations;
  }

  /** With distinct names, each generated variant maps every active
      attribute's name, and no other key, to one of its selected values. */
  lemma GeneratedShape(selectedAttributes: seq<SelectedAttribute>, stamp: nat, i: nat)
    requires DistinctNames(selectedAttributes)
    requires i < |MakeVariants(Combinations(Active(selectedAttributes), map[], 0), stamp)|
    ensures Shaped(Active(selectedAttributes), map[], 0,
                   MakeVariants(Combinations(Active(selectedAttributes), map[], 0), stamp)[i].attributes)
  {
    var active := Active(selectedAttributes);
    ActiveFacts(selectedAttributes);
    CombinationShape(active, map[], 0);
    assert Combinations(active, map[], 0)[i] in Combinations(active, map[], 0);
  }

  // ---------------------------------------------------------------------
  // Edits and removal

  /** The table's per-variant inputs; parsed numbers arrive as `Option`. */
  datatype VariantEdit =
    | EditSku(sku: string)
    | EditDynamic(checked: bool)
    | EditMaterial(materialId: Option<int>)
    | EditWeight(weight: Option<real>)
    | EditMakingCharge(makingCharge: Option<real>)
    | EditPrice(price: string)
    | EditStock(stock: Option<int>)

  /** One input's update of one variant: `parseFloat(...) || 0` for weight
      and making charge, `parseInt(...) || 0` for stock. */
  function ApplyEdit(v: Variant, e: VariantEdit): (r: Variant)
    ensures r.id == v.id && r.attributes == v.attributes
    ensures e.EditStock? ==> r == v.(stock := IntOrZero(e.stock))
    ensures e.EditWeight? ==> r == v.(weight := Some(RealOrZero(e.weight)))
    ensures e.EditMakingCharge? ==> r == v.(makingCharge := Some(RealOrZero(e.makingCharge)))
    ensures e.EditSku? ==> r == v.(sku := e.sku)
    ensures e.EditPrice? ==> r == v.(price := e.price)
    ensures e.EditDynamic? ==> r == v.(isDynamicPricing := e.checked)
    ensures e.EditMaterial? ==> r == v.(materialId := e.materialId)
  {
    match e
    case EditSku(s) => v.(sku := s)
    case EditDynamic(c) => v.(isDynamicPricing := c)
    case EditMaterial(m) => v.(materialId := m)
    case EditWeight(w) => v.(weight := Some(RealOrZero(w)))
    case EditMakingCharge(c) => v.(makingCharge := Some(RealOrZero(c)))
    case EditPrice(p) => v.(price := p)
    case EditStock(s) => v.(stock := IntOrZero(s))
  }

  /** `prev.map(v => v.id === id ? {...v, field} : v)`. */
  function EditVariant(variants: seq<Variant>, id: string, e: VariantEdit): (r: seq<Variant>)
    ensures |r| == |variants|
    ensures forall i :: 0 <= i < |variants| && variants[i].id != id ==> r[i] == variants[i]
    ensures forall i :: 0 <= i < |variants| && variants[i].id == id ==> r[i] == ApplyEdit(variants[i], e)
  {
    seq(|variants|, i requires 0 <= i < |variants| =>
      if variants[i].id == id then ApplyEdit(variants[i], e) else variants[i])
  }

  /** Unparseable stock input gives 0; ids and order never change. */
  lemma StockFallback(variants: seq<Variant>, id: string)
    ensures forall i :: 0 <= i < |variants| && variants[i].id == id ==>
              EditVariant(variants, id, EditStock(None))[i] == variants[i].(stock := 0)
    ensures forall i :: 0 <= i < |variants| ==> EditVariant(variants, id, EditStock(None))[i].id == variants[i].id
  {
  }

  /** An edit for an id no variant has changes nothing. */
  lemma EditAbsentId(variants: seq<Variant>, id: string, e: VariantEdit)
    requires forall i :: 0 <= i < |variants| ==> variants[i].id != id
    ensures EditVariant(variants, id, e) == variants
  {
  }

  /** `prev.filter(v => v.id !== id)`. */
  function RemoveVariant(variants: seq<Variant>, id: string): seq<Variant> {
    Seqs.Filter(variants, (v: Variant) => v.id != id)
  }

  /** Removal drops the entries with the id, keeps every other entry as
      often as before, and keeps the survivors in order. */
  lemma RemoveVariantFacts(variants: seq<Variant>, more: seq<Variant>, id: string)
    ensures forall v :: v in RemoveVariant(variants, id) <==> v in variants && v.id != id
    ensures forall v: Variant :: v.id != id ==> multiset(RemoveVariant(variants, id))[v] == multiset(variants)[v]
    ensures RemoveVariant(variants + more, id) == RemoveVariant(variants, id) + RemoveVariant(more, id)
  {
    Seqs.FilterFacts(variants, (v: Variant) => v.id != id);
    Seqs.FilterConcat(variants, more, (v: Variant) => v.id != id);
  }
}
