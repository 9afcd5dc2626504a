/** The selection rules of src/components/admin/products/AddProductDialog.tsx:
    each toggle is a `prev => next` transform of the dialog's category-id
    list or its list of selected attributes. */
module AddProductDialog {
  import opened Base
  import Seqs
  import Variations

  type SelectedAttribute = Variations.SelectedAttribute

  /** An entry of the dialog's attribute table. */
  datatype Attribute = Attribute(id: int, name: string, values: seq<string>)

  const MockAttributes: seq<Attribute> := [
    Attribute(1, "Size", ["Small", "Medium", "Large"]),
    Attribute(2, "Color", ["Gold", "Silver", "Rose Gold"]),
    Attribute(3, "Material", ["22K Gold", "18K Gold", "Silver"]),
    Attribute(4, "Style", ["Traditional", "Modern", "Fusion"])
  ]

  // ---------------------------------------------------------------------
  // Categories

  /** `toggleCategorySelection(categoryId)`: an absent id is appended, a
      present one is filtered out wherever it occurs. */
  function ToggleCategorySelection(selected: seq<int>, categoryId: int): (r: seq<int>)
    ensures categoryId !in selected ==> r == selected + [categoryId]
    ensures categoryId in selected ==>
              categoryId !in r && forall id :: id != categoryId ==> multiset(r)[id] == multiset(selected)[id]
  {
    if categoryId in selected then
      Seqs.ToggleRemovesAll(selected, categoryId);
      Seqs.Toggle(selected, categoryId)
    else
      Seqs.ToggleAbsentAppends(selected, categoryId);
      Seqs.Toggle(selected, categoryId)
  }

  /** Toggling an absent id twice gives back the original list. */
  lemma CategoryToggleTwice(selected: seq<int>, categoryId: int)
    requires categoryId !in selected
    ensures ToggleCategorySelection(ToggleCategorySelection(selected, categoryId), categoryId) == selected
  {
    Seqs.ToggleTwice(selected, categoryId);
  }

  // ---------------------------------------------------------------------
  // Attributes

  /** `selectedAttributes.some(attr => attr.id === attributeId)`. */
  predicate IsSelected(selected: seq<SelectedAttribute>, attributeId: int) {
    exists i :: 0 <= i < |selected| && selected[i].id == attributeId
  }

  /** `mockAttributes.find(attr => attr.id === attributeId)`. */
  function FindAttribute(table: seq<Attribute>, attributeId: int): Option<Attribute> {
    if |table| == 0 then None
    else if table[0].id == attributeId then Some(table[0])
    else FindAttribute(table[1..], attributeId)
  }

  /** `find` gives the first entry with the id, and nothing when no entry has it. */
  lemma {:induction false} FindFirst(table: seq<Attribute>, attributeId: int)
    ensures FindAttribute(table, attributeId).None? <==> forall i :: 0 <= i < |table| ==> table[i].id != attributeId
    ensures FindAttribute(table, attributeId).Some? ==>
              exists k :: 0 <= k < |table| && table[k] == FindAttribute(table, attributeId).value
                          && table[k].id == attributeId
                          && forall i :: 0 <= i < k ==> table[i].id != attributeId
  {
    if |table| > 0 && table[0].id != attributeId {
      FindFirst(table[1..], attributeId);
      if FindAttribute(table, attributeId).Some? {
        var k :| 0 <= k < |table[1..]| && table[1..][k] == FindAttribute(table, attributeId).value
                 && table[1..][k].id == attributeId
                 && forall i :: 0 <= i < k ==> table[1..][i].id != attributeId;
        assert table[k + 1] == table[1..][k];
        assert forall i :: 1 <= i < k + 1 ==> table[i] == table[1..][i - 1];
      } else {
        assert forall i :: 1 <= i < |table| ==> table[i] == table[1..][i - 1];
      }
    }
  }

  /** The fresh selection copied from a table entry. */
  function Selection(a: Attribute): (s: SelectedAttribute)
    ensures s.id == a.id && s.name == a.name && s.values == a.values && s.selectedValues == []
  {
    Variations.SelectedAttribute(a.id, a.name, a.values, [])
  }

  function WithoutAttribute(selected: seq<SelectedAttribute>, attributeId: int): seq<SelectedAttribute> {
    Seqs.Filter(selected, (attr: SelectedAttribute) => attr.id != attributeId)
  }

  /** `toggleAttributeSelection(attributeId)`: deselecting removes every
      entry with the id; selecting appends a copy of the table entry with no
      values chosen, and an id the table lacks changes nothing. */
  function ToggleAttributeSelection(selected: seq<SelectedAttribute>, attributeId: int): (r: seq<SelectedAttribute>)
    ensures IsSelected(selected, attributeId) ==>
              (forall a :: a in r <==> a in selected && a.id != attributeId)
              && |r| < |selected|
    ensures !IsSelected(selected, attributeId) && FindAttribute(MockAttributes, attributeId).Some? ==>
              r == selected + [Selection(FindAttribute(MockAttributes, attributeId).value)]
              && r[|selected|].id == attributeId
    ensures !IsSelected(selected, attributeId) && FindAttribute(MockAttributes, attributeId).None? ==>
              r == selected
  {
    if IsSelected(selected, attributeId) then
      DeselectFacts(selected, attributeId);
      WithoutAttribute(selected, attributeId)
    else
      match FindAttribute(MockAttributes, attributeId)
      case Some(attribute) =>
        FindFirst(MockAttributes, attributeId);
        selected + [Selection(attribute)]
      case None => selected
  }

  /** Deselection keeps exactly the entries with other ids, and at least one
      entry goes. */
  lemma DeselectFacts(selected: seq<SelectedAttribute>, attributeId: int)
    requires IsSelected(selected, attributeId)
    ensures forall a :: a in WithoutAttribute(selected, attributeId) <==> a in selected && a.id != attributeId
    ensures |WithoutAttribute(selected, attributeId)| < |selected|
  {
    var keep := (attr: SelectedAttribute) => attr.id != attributeId;
    Seqs.FilterFacts(selected, keep);
    var i :| 0 <= i < |selected| && selected[i].id == attributeId;
    Seqs.FilterShrinks(selected, keep, i);
  }

  /** The four table ids select Size, Color, Material and Style; any other
      id selects nothing. */
  lemma KnownAttributes(attributeId: int)
    ensures FindAttribute(MockAttributes, 1).Some? && FindAttribute(MockAttributes, 1).value.name == "Size"
    ensures FindAttribute(MockAttributes, 2).Some? && FindAttribute(MockAttributes, 2).value.name == "Color"
    ensures FindAttribute(MockAttributes, 3).Some? && FindAttribute(MockAttributes, 3).value.name == "Material"
    ensures FindAttribute(MockAttributes, 4).Some? && FindAttribute(MockAttributes, 4).value.name == "Style"
    ensures !(1 <= attributeId <= 4) ==> FindAttribute(MockAttributes, attributeId).None?
  {
    FindFirst(MockAttributes, attributeId);
  }

  /** Selecting a table attribute and deselecting it again restores the list. */
  lemma AttributeToggleTwice(selected: seq<SelectedAttribute>, attributeId: int)
    requires !IsSelected(selected, attributeId)
    ensures ToggleAttributeSelection(ToggleAttributeSelection(selected, attributeId), attributeId) == selected
  {
    var keep := (attr: SelectedAttribute) => attr.id != attributeId;
    match FindAttribute(MockAttributes, attributeId)
    case Some(attribute) =>
      var once := ToggleAttributeSelection(selected, attributeId);
      assert once == selected + [Selection(attribute)];
      FindFirst(MockAttributes, attributeId);
      assert once[|selected|].id == attributeId;
      assert IsSelected(once, attributeId);
      Seqs.FilterConcat(selected, [Selection(attribute)], keep);
      Seqs.FilterAll(selected, keep);
      assert Seqs.Filter([Selection(attribute)], keep) == [];
    case None =>
  }

  // ---------------------------------------------------------------------
  // Attribute values

  /** The value toggle applied to one selected attribute. */
  function ToggleValue(attr: SelectedAttribute, value: string): (r: SelectedAttribute)
    ensures r.id == attr.id && r.name == attr.name && r.values == attr.values
    ensures value in r.selectedValues <==> value !in attr.selectedValues
    ensures forall v :: v != value ==> (v in r.selectedValues <==> v in attr.selectedValues)
  {
    attr.(selectedValues := Seqs.Toggle(attr.selectedValues, value))
  }

  /** `toggleAttributeValueSelection(attributeId, value)`: every entry with
      the id has the value's membership flipped, keeping its id, name,
      values and other chosen values; every other entry is unchanged. */
  function ToggleAttributeValueSelection(selected: seq<SelectedAttribute>, attributeId: int, value: string)
    : (r: seq<SelectedAttribute>)
    ensures |r| == |selected|
    ensures forall i :: 0 <= i < |selected| && selected[i].id != attributeId ==> r[i] == selected[i]
    ensures forall i :: 0 <= i < |selected| && selected[i].id == attributeId ==>
              r[i].id == selected[i].id && r[i].name == selected[i].name && r[i].values == selected[i].values
              && (value in r[i].selectedValues <==> value !in selected[i].selectedValues)
              && forall v :: v != value ==> (v in r[i].selectedValues <==> v in selected[i].selectedValues)
  {
    seq(|selected|, i requires 0 <= i < |selected| =>
      if selected[i].id == attributeId then ToggleValue(selected[i], value) else selected[i])
  }

  /** Choosing a value that was not chosen and toggling it again restores
      the attribute list. */
  lemma ValueToggleTwice(selected: seq<SelectedAttribute>, attributeId: int, value: string)
    requires forall i :: 0 <= i < |selected| && selected[i].id == attributeId ==> value !in selected[i].selectedValues
    ensures ToggleAttributeValueSelection(ToggleAttributeValueSelection(selected, attributeId, value), attributeId, value)
            == selected
  {
    var twice := ToggleAttributeValueSelection(ToggleAttributeValueSelection(selected, attributeId, value), attributeId, value);
    forall i | 0 <= i < |selected|
      ensures twice[i] == selected[i]
    {
      if selected[i].id == attributeId {
        Seqs.ToggleTwice(selected[i].selectedValues, value);
      }
    }
  }
}
