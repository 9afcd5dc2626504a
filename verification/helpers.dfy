/** The pricing engine of src/lib/helpers.ts: the dynamic jewelry price, the
    material rate lookup and the text truncation rule. Amounts are exact
    reals; the source's IEEE doubles and currency formatting are not modelled. */
module Helpers {

  /** The default of the optional `isMakingChargePercentage` parameter. */
  const IsPercentageByDefault := false

  /** `calculateJewelryPrice(materialPrice, weight, makingCharge, isMakingChargePercentage)`:
      the material cost plus a making charge that is either a percentage of
      the material cost or a flat amount. */
  function CalculateJewelryPrice(materialPrice: real, weight: real, makingCharge: real,
                                 isMakingChargePercentage: bool): (price: real)
    ensures 0.0 <= materialPrice && 0.0 <= weight && 0.0 <= makingCharge ==>
              price >= materialPrice * weight
  {
    var materialCost := materialPrice * weight;
    if isMakingChargePercentage then
      var makingChargeCost := materialCost * (makingCharge / 100.0);
      assert 0.0 <= materialCost && 0.0 <= makingCharge ==> makingChargeCost >= 0.0;
      materialCost + makingChargeCost
    else
      materialCost + makingCharge
  }

  /** `calculateJewelryPrice(materialPrice, weight, makingCharge)` with the flag omitted. */
  function CalculateJewelryPriceDefault(materialPrice: real, weight: real, makingCharge: real): (price: real)
    ensures price == materialPrice * weight + makingCharge
  {
    CalculateJewelryPrice(materialPrice, weight, makingCharge, IsPercentageByDefault)
  }

  /** Percentage mode: material cost plus `makingCharge` percent of it. */
  lemma PercentageMode(materialPrice: real, weight: real, makingCharge: real)
    ensures CalculateJewelryPrice(materialPrice, weight, makingCharge, true)
            == materialPrice * weight + materialPrice * weight * makingCharge / 100.0
  {
  }

  /** Flat mode: material cost plus the making charge itself. */
  lemma FlatMode(materialPrice: real, weight: real, makingCharge: real)
    ensures CalculateJewelryPrice(materialPrice, weight, makingCharge, false)
            == materialPrice * weight + makingCharge
  {
  }

  /** With zero weight the percentage mode yields 0 and the flat mode the charge. */
  lemma ZeroWeight(materialPrice: real, makingCharge: real)
    ensures CalculateJewelryPrice(materialPrice, 0.0, makingCharge, true) == 0.0
    ensures CalculateJewelryPrice(materialPrice, 0.0, makingCharge, false) == makingCharge
  {
  }

  /** 22K gold at 6000 per gram, 4.5 g, 12% making charge: 27000 + 3240 = 30240. */
  lemma WorkedExample()
    ensures 6000.0 * 4.5 == 27000.0
    ensures CalculateJewelryPrice(6000.0, 4.5, 12.0, true) == 30240.0
  {
  }

  /** The static rate table of `getMaterialBasePrice` (per gram; diamond per carat). */
  const BasePrices: map<string, real> := map[
    "gold-24k" := 6500.0,
    "gold-22k" := 6000.0,
    "gold-18k" := 5000.0,
    "silver" := 80.0,
    "platinum" := 3500.0,
    "diamond" := 50000.0
  ]

  /** `getMaterialBasePrice(material)`: `prices[material] || 0`. */
  function GetMaterialBasePrice(material: string): (rate: real)
    ensures rate == 0.0 <==> material !in BasePrices
    ensures rate >= 0.0
  {
    if material in BasePrices && BasePrices[material] != 0.0 then BasePrices[material] else 0.0
  }

  /** The six known slugs and their rates; every other string gives 0. */
  lemma KnownRates(material: string)
    ensures GetMaterialBasePrice("gold-24k") == 6500.0
    ensures GetMaterialBasePrice("gold-22k") == 6000.0
    ensures GetMaterialBasePrice("gold-18k") == 5000.0
    ensures GetMaterialBasePrice("silver") == 80.0
    ensures GetMaterialBasePrice("platinum") == 3500.0
    ensures GetMaterialBasePrice("diamond") == 50000.0
    ensures material !in {"gold-24k", "gold-22k", "gold-18k", "silver", "platinum", "diamond"} ==>
              GetMaterialBasePrice(material) == 0.0
  {
  }

  /** End index of `text.slice(0, length)`: a negative length counts from the end. */
  function SliceEnd(textLength: nat, length: int): (e: nat)
    ensures e <= textLength
    ensures 0 <= length ==> e == if length < textLength then length else textLength
  {
    if length < 0 then (if textLength + length < 0 then 0 else textLength + length)
    else if length < textLength then length
    else textLength
  }

  /** `truncateText(text, length)`. */
  function TruncateText(text: string, length: int): (r: string)
    ensures |text| <= length ==> r == text
    ensures |text| > length ==> |r| == SliceEnd(|text|, length) + 3 && r[|r| - 3..] == "..."
  {
    if |text| <= length then text else text[..SliceEnd(|text|, length)] + "..."
  }

  /** A text longer than `n >= 0` becomes its first `n` characters and "...", length n + 3. */
  lemma TruncateLong(text: string, n: nat)
    requires |text| > n
    ensures |TruncateText(text, n)| == n + 3
    ensures TruncateText(text, n) == text[..n] + "..."
  {
  }
}
