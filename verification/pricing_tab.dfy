/** The dynamic-price preview of
    src/components/admin/products/ProductPricingTab.tsx. The result is the
    number the preview formats; `formatCurrency` is not modelled, and "N/A"
    is `None`. `parseInt(selectedMaterial)` arrives as an `Option<int>`. */
module PricingTab {
  import opened Base
  import Helpers

  /** A material of the dialog's table; either rate may be absent. */
  datatype Material = Material(id: int, name: string, pricePerGram: Option<real>, pricePerCarat: Option<real>)

  /** The table the product dialog passes in as `mockMaterials`. */
  const MockMaterials: seq<Material> := [
    Material(1, "Gold 24K", Some(6500.0), None),
    Material(2, "Gold 22K", Some(6000.0), None),
    Material(3, "Gold 18K", Some(5000.0), None),
    Material(4, "Silver", Some(80.0), None),
    Material(5, "Platinum", Some(3500.0), None),
    Material(6, "Diamond", None, Some(50000.0))
  ]

  /** `mockMaterials.find(m => m.id === materialId)`; a NaN id matches nothing. */
  function FindMaterial(materials: seq<Material>, materialId: Option<int>): Option<Material> {
    if materialId.None? || |materials| == 0 then None
    else if materials[0].id == materialId.value then Some(materials[0])
    else FindMaterial(materials[1..], materialId)
  }

  /** `find` returns the first material with the id, and nothing when none has it. */
  lemma {:induction false} FindMaterialFirst(materials: seq<Material>, materialId: Option<int>)
    ensures FindMaterial(materials, materialId).None? <==>
              materialId.None? || forall i :: 0 <= i < |materials| ==> materials[i].id != materialId.value
    ensures FindMaterial(materials, materialId).Some? ==>
              exists k :: 0 <= k < |materials| && materials[k] == FindMaterial(materials, materialId).value
                          && materials[k].id == materialId.value
                          && forall i :: 0 <= i < k ==> materials[i].id != materialId.value
  {
    if materialId.Some? && |materials| > 0 && materials[0].id != materialId.value {
      FindMaterialFirst(materials[1..], materialId);
      if FindMaterial(materials, materialId).Some? {
        var k :| 0 <= k < |materials[1..]| && materials[1..][k] == FindMaterial(materials, materialId).value
                 && materials[1..][k].id == materialId.value
                 && forall i :: 0 <= i < k ==> materials[1..][i].id != materialId.value;
        assert materials[k + 1] == materials[1..][k];
        assert forall i :: 1 <= i < k + 1 ==> materials[i] == materials[1..][i - 1];
      } else {
        assert forall i :: 1 <= i < |materials| ==> materials[i] == materials[1..][i - 1];
      }
    }
  }

  /** `material.pricePerGram || material.pricePerCarat || 0`: a missing or
      zero rate falls through to the next. */
  function Rate(m: Material): (rate: real)
    ensures m.pricePerGram.Some? && m.pricePerGram.value != 0.0 ==> rate == m.pricePerGram.value
    ensures (m.pricePerGram.None? || m.pricePerGram.value == 0.0) ==>
              m.pricePerCarat.Some? && m.pricePerCarat.value != 0.0 ==> rate == m.pricePerCarat.value
    ensures rate == 0.0 <==>
              (m.pricePerGram.None? || m.pricePerGram.value == 0.0)
              && (m.pricePerCarat.None? || m.pricePerCarat.value == 0.0)
  {
    if m.pricePerGram.Some? && m.pricePerGram.value != 0.0 then m.pricePerGram.value
    else if m.pricePerCarat.Some? && m.pricePerCarat.value != 0.0 then m.pricePerCarat.value
    else 0.0
  }

  /** `calculateDynamicPrice(materialId, weight, makingCharge)`: "N/A" for an
      id no material has; otherwise the jewelry price with the percentage
      flag omitted, so the making charge is always a flat amount. */
  function CalculateDynamicPrice(materials: seq<Material>, materialId: Option<int>, weight: real, makingCharge: real)
    : (r: Option<real>)
    ensures r.None? <==> FindMaterial(materials, materialId).None?
    ensures r.Some? ==>
              r.value == Rate(FindMaterial(materials, materialId).value) * weight + makingCharge
  {
    match FindMaterial(materials, materialId)
    case None => None
    case Some(material) =>
      Some(Helpers.CalculateJewelryPriceDefault(Rate(material), weight, makingCharge))
  }

  /** An id no material has, or an unparseable one, gives "N/A". */
  lemma UnknownMaterialNA(materials: seq<Material>, materialId: Option<int>, weight: real, makingCharge: real)
    requires materialId.None? || forall i :: 0 <= i < |materials| ==> materials[i].id != materialId.value
    ensures CalculateDynamicPrice(materials, materialId, weight, makingCharge).None?
  {
    FindMaterialFirst(materials, materialId);
  }

  /** The preview never takes the percentage branch: it agrees with the
      jewelry price in flat mode, and a charge given as 12 adds 12, not 12%. */
  lemma PreviewIsFlat(materials: seq<Material>, materialId: Option<int>, weight: real, makingCharge: real)
    requires FindMaterial(materials, materialId).Some?
    ensures CalculateDynamicPrice(materials, materialId, weight, makingCharge)
            == Some(Helpers.CalculateJewelryPrice(Rate(FindMaterial(materials, materialId).value),
                                                  weight, makingCharge, false))
  {
  }

  /** Every material the select offers from the dialog's table is priced, at
      a non-negative amount for non-negative inputs. */
  lemma OfferedMaterialsPriced(i: nat, weight: real, makingCharge: real)
    requires i < |MockMaterials| && 0.0 <= weight && 0.0 <= makingCharge
    ensures CalculateDynamicPrice(MockMaterials, Some(MockMaterials[i].id), weight, makingCharge).Some?
    ensures CalculateDynamicPrice(MockMaterials, Some(MockMaterials[i].id), weight, makingCharge).value >= 0.0
  {
    FindMaterialFirst(MockMaterials, Some(MockMaterials[i].id));
    var m := FindMaterial(MockMaterials, Some(MockMaterials[i].id)).value;
    assert m in MockMaterials;
    assert Rate(m) > 0.0;
  }

  /** 22K gold, 10 g, charge 1000: 60000 + 1000; diamond is priced per
      carat; id 7 is "N/A". */
  lemma DialogExamples()
    ensures CalculateDynamicPrice(MockMaterials, Some(2), 10.0, 1000.0) == Some(61000.0)
    ensures CalculateDynamicPrice(MockMaterials, Some(6), 0.5, 0.0) == Some(25000.0)
    ensures CalculateDynamicPrice(MockMaterials, Some(7), 10.0, 1000.0).None?
  {
    UnknownMaterialNA(MockMaterials, Some(7), 10.0, 1000.0);
  }

  datatype ProductType = Simple | Variable

  /** The preview appears for a simple product with dynamic pricing, a
      selected material (a non-empty value) and a positive weight. */
  predicate ShowPreview(productType: ProductType, isDynamicPricing: bool, selectedMaterial: string, weight: real) {
    productType == Simple && isDynamicPricing && selectedMaterial != "" && weight > 0.0
  }

  /** A weight typed as text that does not parse, or as 0, keeps the preview
      hidden, whatever else is chosen. */
  lemma UnparsedWeightHidesPreview(productType: ProductType, isDynamicPricing: bool, selectedMaterial: string,
                                   parsedWeight: Option<real>)
    requires parsedWeight.None? || parsedWeight.value <= 0.0
    ensures !ShowPreview(productType, isDynamicPricing, selectedMaterial, RealOrZero(parsedWeight))
  {
  }
}
