/** The price breakdown of src/components/product/PriceBreakdown.tsx. The
    component receives `product: any`; `ProductView` records the fields it
    reads, with JavaScript truthiness and `typeof` made explicit. The
    breakdown shows locally computed components but always the stored
    `price` as Total; a mismatch above 1 only produces a log line. */
module PriceBreakdown {
  import opened Base
  import Helpers
  import Catalogue

  /** A number-or-other field read through `any`. */
  datatype Field = Missing | Number(n: real) | Text(s: string)

  /** JavaScript falsiness of such a field: undefined, 0 and "" are falsy. */
  predicate FalsyField(f: Field) {
    f.Missing? || (f.Number? && f.n == 0.0) || (f.Text? && f.s == "")
  }

  /** Falsiness of the optional numeric `weight`. */
  predicate FalsyWeight(w: Option<real>) {
    w.None? || w.value == 0.0
  }

  datatype ProductView = ProductView(
    material: string,
    weight: Option<real>,
    makingCharge: Field,
    makingChargeType: Option<string>,
    price: real
  )

  /** A table row; `percentageLabel` selects "x% of material cost" over "Fixed charge". */
  datatype Row =
    | FixedPrice(amount: real)
    | MaterialCost(amount: real)
    | MakingCharge(amount: real, percentageLabel: bool)
    | Total(amount: real)

  datatype Breakdown = Breakdown(
    isFlatRate: bool,
    materialCost: real,
    makingChargeCost: real,
    rows: seq<Row>,
    mismatchLogged: bool
  )

  function Abs(x: real): real {
    if x < 0.0 then -x else x
  }

  /** What the component computes and renders for `product`, as written. */
  function Explain(product: ProductView): Breakdown {
    var materialPrice := Helpers.GetMaterialBasePrice(product.material);
    var isFlatRate := FalsyField(product.makingCharge) || FalsyWeight(product.weight);
    var isPercentage := product.makingChargeType == Some("percentage");
    var materialCost := if isFlatRate then 0.0 else materialPrice * product.weight.value;
    var makingChargeCost :=
      if isFlatRate || !product.makingCharge.Number? then 0.0
      else if isPercentage then materialCost * (product.makingCharge.n / 100.0)
      else product.makingCharge.n;
    var mismatchLogged :=
      !isFlatRate && product.makingCharge.Number?
      && Abs(materialCost + makingChargeCost - product.price) > 1.0;
    var rows :=
      if isFlatRate then [FixedPrice(product.price), Total(product.price)]
      else [MaterialCost(materialCost), MakingCharge(makingChargeCost, isPercentage), Total(product.price)];
    Breakdown(isFlatRate, materialCost, makingChargeCost, rows, mismatchLogged)
  }

  /** A product is flat-rate exactly when its making charge or its weight is
      falsy; it then shows one "Fixed Price" row equal to the stored price,
      and both computed components stay 0. */
  lemma FlatRateCase(product: ProductView)
    ensures Explain(product).isFlatRate <==> FalsyField(product.makingCharge) || FalsyWeight(product.weight)
    ensures Explain(product).isFlatRate ==>
              Explain(product).rows == [FixedPrice(product.price), Total(product.price)]
              && Explain(product).materialCost == 0.0 && Explain(product).makingChargeCost == 0.0
              && !Explain(product).mismatchLogged
  {
  }

  /** Otherwise the material cost is the looked-up rate times the weight, so
      an unknown material gives a material cost of 0. */
  lemma MaterialCostCase(product: ProductView)
    requires !Explain(product).isFlatRate
    ensures product.weight.Some?
    ensures Explain(product).materialCost
            == Helpers.GetMaterialBasePrice(product.material) * product.weight.value
    ensures product.material !in Helpers.BasePrices ==> Explain(product).materialCost == 0.0
  {
  }

  /** The making charge is a percentage of the material cost only when
      `makingChargeType` is "percentage", the flat amount otherwise, and 0
      when the field is not a number. */
  lemma MakingChargeCase(product: ProductView)
    requires !Explain(product).isFlatRate
    ensures product.makingCharge.Number? && product.makingChargeType == Some("percentage") ==>
              Explain(product).makingChargeCost
              == Explain(product).materialCost * product.makingCharge.n / 100.0
    ensures product.makingCharge.Number? && product.makingChargeType != Some("percentage") ==>
              Explain(product).makingChargeCost == product.makingCharge.n
    ensures !product.makingCharge.Number? ==> Explain(product).makingChargeCost == 0.0
  {
  }

  /** The Total row is always the last row and always the stored price, and
      the mismatch check changes no displayed amount: the rows are the same
      whether or not the mismatch is logged. */
  lemma TotalIsStoredPrice(product: ProductView)
    ensures |Explain(product).rows| >= 2
    ensures Explain(product).rows[|Explain(product).rows| - 1] == Total(product.price)
    ensures forall i :: 0 <= i < |Explain(product).rows| - 1 ==> !Explain(product).rows[i].Total?
    ensures Explain(product).mismatchLogged <==>
              !Explain(product).isFlatRate && product.makingCharge.Number?
              && Abs(Explain(product).materialCost + Explain(product).makingChargeCost - product.price) > 1.0
  {
  }

  /** How a catalogue product reaches the component: it has no
      `makingChargeType` field, only `isMakingChargePercentage`. */
  function ViewOf(p: Catalogue.Product): (v: ProductView)
    ensures v.makingChargeType.None?
    ensures v.price == p.price && v.material == p.material
  {
    ProductView(p.material, Some(p.weight), Number(p.makingCharge), None, p.price)
  }

  /** Every catalogue product takes the flat making-charge branch, whatever
      its `isMakingChargePercentage` says. */
  lemma CatalogueChargeAlwaysFlat(p: Catalogue.Product)
    ensures !Explain(ViewOf(p)).isFlatRate ==> Explain(ViewOf(p)).makingChargeCost == p.makingCharge
    ensures !Explain(ViewOf(p)).isFlatRate ==> Explain(ViewOf(p)).rows[1] == MakingCharge(p.makingCharge, false)
  {
  }

  /** p1 (22K gold, 14.5 g, 12%): the breakdown shows 87000 and a fixed 12,
      while Total shows the stored 85000, and the mismatch is logged. */
  lemma RadiantLotusAsWritten()
    ensures Explain(ViewOf(Catalogue.P1)).rows
            == [MaterialCost(87000.0), MakingCharge(12.0, false), Total(85000.0)]
    ensures Explain(ViewOf(Catalogue.P1)).mismatchLogged
  {
  }

  /** The breakdown with the percentage flag the catalogue actually carries. */
  function ExplainIntended(p: Catalogue.Product): (b: Breakdown)
    ensures !b.isFlatRate ==>
              b.materialCost + b.makingChargeCost
              == Helpers.CalculateJewelryPrice(Helpers.GetMaterialBasePrice(p.material), p.weight,
                                               p.makingCharge, p.isMakingChargePercentage)
    ensures |b.rows| >= 2 && b.rows[|b.rows| - 1] == Total(p.price)
  {
    var view := ProductView(p.material, Some(p.weight), Number(p.makingCharge),
                            if p.isMakingChargePercentage then Some("percentage") else None, p.price);
    var b := Explain(view);
    assert !b.isFlatRate ==> b.materialCost == Helpers.GetMaterialBasePrice(p.material) * p.weight;
    b
  }

  /** With the catalogue's flag, p1 shows 12% of 87000 = 10440 as making charge. */
  lemma RadiantLotusIntended()
    ensures ExplainIntended(Catalogue.P1).rows
            == [MaterialCost(87000.0), MakingCharge(10440.0, true), Total(85000.0)]
  {
  }
}
