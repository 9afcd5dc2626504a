/** The catalogue of src/data/products.ts: the `Product` record, the
    material rate table and the eight shipped products, which the other
    modules use as concrete test vectors. */
module Catalogue {
  import opened Base
  import Seqs
  import Helpers

  /** A catalogue product. `collection` is optional in the source type. */
  datatype Product = Product(
    id: string,
    name: string,
    description: string,
    price: real,
    images: seq<string>,
    category: string,
    material: string,
    weight: real,
    makingCharge: real,
    isMakingChargePercentage: bool,
    isDynamicPricing: bool,
    inStock: bool,
    featured: bool,
    isNew: bool,
    collection: Option<string>
  )

  /** `materialPrices`: per gram for metals, per carat for diamond. */
  const MaterialPrices: map<string, real> := map[
    "gold-24k" := 6500.0,
    "gold-22k" := 6000.0,
    "gold-18k" := 5000.0,
    "silver" := 80.0,
    "platinum" := 3500.0,
    "diamond" := 50000.0
  ]

  const P1Description := "Exquisite 22K gold necklace inspired by the lotus flower, symbolizing purity and beauty. Each petal is delicately crafted with attention to detail."
  const P1Images := [
    "https://images.unsplash.com/photo-1599643478518-a784e5dc4c8f?ixlib=rb-4.0.3&ixid=M3wxMjA3fDB8MHxwaG90by1wYWdlfHx8fGVufDB8fHx8fA%3D%3D&auto=format&fit=crop&w=1287&q=80",
    "https://images.unsplash.com/photo-1611652022419-a9419f74343d?ixlib=rb-4.0.3&ixid=M3wxMjA3fDB8MHxwaG90by1wYWdlfHx8fGVufDB8fHx8fA%3D%3D&auto=format&fit=crop&w=1288&q=80"
  ]
  const P1: Product := Product(
    id := "p1",
    name := "Radiant Lotus Gold Necklace",
    description := P1Description,
    price := 85000.0,
    images := P1Images,
    category := "necklace",
    material := "gold-22k",
    weight := 14.5,
    makingCharge := 12.0,
    isMakingChargePercentage := true,
    isDynamicPricing := true,
    inStock := true,
    featured := true,
    isNew := false,
    collection := Some("Floral Symphony")
  )

  const P2Description := "Elegant constellation-inspired diamond earrings set in 18K white gold. The arrangement of diamonds resembles the stars of the night sky."
  const P2Images := [
    "https://images.unsplash.com/photo-1535632066927-ab7c9ab60908?ixlib=rb-4.0.3&ixid=M3wxMjA3fDB8MHxwaG90by1wYWdlfHx8fGVufDB8fHx8fA%3D%3D&auto=format&fit=crop&w=1160&q=80",
    "https://images.unsplash.com/photo-1602173574767-37ac01994b2a?ixlib=rb-4.0.3&ixid=M3wxMjA3fDB8MHxwaG90by1wYWdlfHx8fGVufDB8fHx8fA%3D%3D&auto=format&fit=crop&w=1319&q=80"
  ]
  const P2: Product := Product(
    id := "p2",
    name := "Diamond Constellation Earrings",
    description := P2Description,
    price := 45000.0,
    images := P2Images,
    category := "earrings",
    material := "gold-18k",
    weight := 6.2,
    makingCharge := 15.0,
    isMakingChargePercentage := true,
    isDynamicPricing := true,
    inStock := true,
    featured := true,
    isNew := true,
    collection := Some("Celestial Dreams")
  )

  const P3Description := "A stunning ring featuring a central emerald surrounded by diamonds, set in 22K gold. The design is inspired by royal heritage jewelry."
  const P3Images := [
    "https://images.unsplash.com/photo-1605100804763-247f67b3557e?ixlib=rb-4.0.3&ixid=M3wxMjA3fDB8MHxwaG90by1wYWdlfHx8fGVufDB8fHx8fA%3D%3D&auto=format&fit=crop&w=1170&q=80",
    "https://images.unsplash.com/photo-1608042314453-ae338d80c427?ixlib=rb-4.0.3&ixid=M3wxMjA3fDB8MHxwaG90by1wYWdlfHx8fGVufDB8fHx8fA%3D%3D&auto=format&fit=crop&w=1170&q=80"
  ]
  const P3: Product := Product(
    id := "p3",
    name := "Royal Emerald Ring",
    description := P3Description,
    price := 65000.0,
    images := P3Images,
    category := "rings",
    material := "gold-22k",
    weight := 8.7,
    makingCharge := 18.0,
    isMakingChargePercentage := true,
    isDynamicPricing := true,
    inStock := true,
    featured := true,
    isNew := false,
    collection := Some("Royal Heritage")
  )

  const P4Description := "A delicate silver bracelet featuring the infinity symbol, representing endless possibilities and eternal connection."
  const P4Images := [
    "https://images.unsplash.com/photo-1611591437281-460bfbe1220a?ixlib=rb-4.0.3&ixid=M3wxMjA3fDB8MHxwaG90by1wYWdlfHx8fGVufDB8fHx8fA%3D%3D&auto=format&fit=crop&w=1170&q=80",
    "https://images.unsplash.com/photo-1603561596112-0a132b757442?ixlib=rb-4.0.3&ixid=M3wxMjA3fDB8MHxwaG90by1wYWdlfHx8fGVufDB8fHx8fA%3D%3D&auto=format&fit=crop&w=1170&q=80"
  ]
  const P4: Product := Product(
    id := "p4",
    name := "Silver Infinity Bracelet",
    description := P4Description,
    price := 5500.0,
    images := P4Images,
    category := "bracelets",
    material := "silver",
    weight := 15.3,
    makingCharge := 500.0,
    isMakingChargePercentage := false,
    isDynamicPricing := true,
    inStock := true,
    featured := false,
    isNew := true,
    collection := Some("Timeless Essentials")
  )

  const P5Description := "An elegant necklace featuring perfectly cultured pearls with a 18K gold clasp. A classic piece that adds sophistication to any outfit."
  const P5Images := [
    "https://images.unsplash.com/photo-1591209662757-ac2eb0abf780?ixlib=rb-4.0.3&ixid=M3wxMjA3fDB8MHxwaG90by1wYWdlfHx8fGVufDB8fHx8fA%3D%3D&auto=format&fit=crop&w=1287&q=80",
    "https://images.unsplash.com/photo-1617038220319-276d3cfab638?ixlib=rb-4.0.3&ixid=M3wxMjA3fDB8MHxwaG90by1wYWdlfHx8fGVufDB8fHx8fA%3D%3D&auto=format&fit=crop&w=1287&q=80"
  ]
  const P5: Product := Product(
    id := "p5",
    name := "Pearl Harmony Necklace",
    description := P5Description,
    price := 25000.0,
    images := P5Images,
    category := "necklace",
    material := "gold-18k",
    weight := 12.0,
    makingCharge := 10.0,
    isMakingChargePercentage := true,
    isDynamicPricing := false,
    inStock := true,
    featured := true,
    isNew := false,
    collection := Some("Pearl Essence")
  )

  const P6Description := "A timeless platinum wedding band with a subtle hammered texture, symbolizing the beautiful journey of marriage."
  const P6Images := [
    "https://images.unsplash.com/photo-1607703829739-c05b7beddf60?ixlib=rb-4.0.3&ixid=M3wxMjA3fDB8MHxwaG90by1wYWdlfHx8fGVufDB8fHx8fA%3D%3D&auto=format&fit=crop&w=1170&q=80",
    "https://images.unsplash.com/photo-1517613367530-b0a79a1a7fee?ixlib=rb-4.0.3&ixid=M3wxMjA3fDB8MHxwaG90by1wYWdlfHx8fGVufDB8fHx8fA%3D%3D&auto=format&fit=crop&w=1170&q=80"
  ]
  const P6: Product := Product(
    id := "p6",
    name := "Platinum Wedding Band",
    description := P6Description,
    price := 35000.0,
    images := P6Images,
    category := "rings",
    material := "platinum",
    weight := 6.5,
    makingCharge := 20.0,
    isMakingChargePercentage := true,
    isDynamicPricing := true,
    inStock := true,
    featured := false,
    isNew := false,
    collection := Some("Wedding Essentials")
  )

  const P7Description := "Intricately designed traditional anklet crafted in 22K gold, featuring tiny bells that create a melodious sound with every step."
  const P7Images := [
    "https://images.unsplash.com/photo-1611591437281-460bfbe1220a?ixlib=rb-4.0.3&ixid=M3wxMjA3fDB8MHxwaG90by1wYWdlfHx8fGVufDB8fHx8fA%3D%3D&auto=format&fit=crop&w=1170&q=80",
    "https://images.unsplash.com/photo-1537832816519-689ad163238b?ixlib=rb-4.0.3&ixid=M3wxMjA3fDB8MHxwaG90by1wYWdlfHx8fGVufDB8fHx8fA%3D%3D&auto=format&fit=crop&w=1159&q=80"
  ]
  const P7: Product := Product(
    id := "p7",
    name := "Traditional Gold Anklet",
    description := P7Description,
    price := 28000.0,
    images := P7Images,
    category := "anklets",
    material := "gold-22k",
    weight := 9.2,
    makingCharge := 15.0,
    isMakingChargePercentage := true,
    isDynamicPricing := true,
    inStock := true,
    featured := false,
    isNew := true,
    collection := Some("Heritage Collection")
  )

  const P8Description := "A timeless solitaire diamond pendant set in 18K white gold, suspended on a delicate chain. Perfect for everyday elegance."
  const P8Images := [
    "https://images.unsplash.com/photo-1601821326018-d949a54b6402?ixlib=rb-4.0.3&ixid=M3wxMjA3fDB8MHxwaG90by1wYWdlfHx8fGVufDB8fHx8fA%3D%3D&auto=format&fit=crop&w=1287&q=80",
    "https://images.unsplash.com/photo-1575863438850-fb1c06a38884?ixlib=rb-4.0.3&ixid=M3wxMjA3fDB8MHxwaG90by1wYWdlfHx8fGVufDB8fHx8fA%3D%3D&auto=format&fit=crop&w=1310&q=80"
  ]
  const P8: Product := Product(
    id := "p8",
    name := "Classic Diamond Pendant",
    description := P8Description,
    price := 18000.0,
    images := P8Images,
    category := "pendants",
    material := "gold-18k",
    weight := 3.5,
    makingCharge := 12.0,
    isMakingChargePercentage := true,
    isDynamicPricing := false,
    inStock := true,
    featured := true,
    isNew := false,
    collection := Some("Timeless Essentials")
  )

  const Products: seq<Product> := [P1, P2, P3, P4, P5, P6, P7, P8]

  /** The catalogue's rate table has exactly the entries of the pricing engine's lookup table. */
  lemma RateTablesAgree()
    ensures MaterialPrices == Helpers.BasePrices
    ensures MaterialPrices["gold-22k"] == 6000.0 && MaterialPrices["diamond"] == 50000.0
  {
  }

  /** The catalogue ids p1..p8 are pairwise distinct. */
  lemma IdsDistinct()
    ensures |Products| == 8
    ensures forall i, j :: 0 <= i < j < |Products| ==> Products[i].id != Products[j].id
  {
  }

  /** Every product's material has a rate, and every weight is positive. */
  lemma MaterialsKnownWeightsPositive()
    ensures forall p :: p in Products ==> p.material in MaterialPrices && p.weight > 0.0
  {
  }

  /** Only p4 has a flat making charge; only p5 and p8 are not dynamically priced. */
  lemma PricingFlags()
    ensures forall p :: p in Products ==> (!p.isMakingChargePercentage <==> p.id == "p4")
    ensures forall p :: p in Products ==> (!p.isDynamicPricing <==> p.id == "p5" || p.id == "p8")
  {
  }

  /** Although optional in the type, every catalogue entry sets `collection`. */
  lemma EveryCollectionSet()
    ensures forall p :: p in Products ==> p.collection.Some?
  {
  }

  /** A filter of eight products keeps those that pass, in order. */
  lemma FilterEight(a: Product, b: Product, c: Product, d: Product,
                    e: Product, f: Product, g: Product, h: Product, keep: Product -> bool)
    ensures Seqs.Filter([a, b, c, d, e, f, g, h], keep)
            == Seqs.KeptIf(keep, a) + (Seqs.KeptIf(keep, b) + (Seqs.KeptIf(keep, c) + (Seqs.KeptIf(keep, d)
               + (Seqs.KeptIf(keep, e) + (Seqs.KeptIf(keep, f) + (Seqs.KeptIf(keep, g) + Seqs.KeptIf(keep, h)))))))
  {
    var kh := Seqs.KeptIf(keep, h);
    var kg := Seqs.KeptIf(keep, g) + kh;
    var kf := Seqs.KeptIf(keep, f) + kg;
    var ke := Seqs.KeptIf(keep, e) + kf;
    var kd := Seqs.KeptIf(keep, d) + ke;
    var kc := Seqs.KeptIf(keep, c) + kd;
    var kb := Seqs.KeptIf(keep, b) + kc;
    assert Seqs.Filter([h], keep) == kh;
    assert Seqs.Filter([g, h], keep) == kg by {
      Seqs.FilterCons(g, [h], keep);
      assert [g, h] == [g] + [h];
    }
    assert Seqs.Filter([f, g, h], keep) == kf by {
      Seqs.FilterCons(f, [g, h], keep);
      assert [f, g, h] == [f] + [g, h];
    }
    assert Seqs.Filter([e, f, g, h], keep) == ke by {
      Seqs.FilterCons(e, [f, g, h], keep);
      assert [e, f, g, h] == [e] + [f, g, h];
    }
    assert Seqs.Filter([d, e, f, g, h], keep) == kd by {
      Seqs.FilterCons(d, [e, f, g, h], keep);
      assert [d, e, f, g, h] == [d] + [e, f, g, h];
    }
    assert Seqs.Filter([c, d, e, f, g, h], keep) == kc by {
      Seqs.FilterCons(c, [d, e, f, g, h], keep);
      assert [c, d, e, f, g, h] == [c] + [d, e, f, g, h];
    }
    assert Seqs.Filter([b, c, d, e, f, g, h], keep) == kb by {
      Seqs.FilterCons(b, [c, d, e, f, g, h], keep);
      assert [b, c, d, e, f, g, h] == [b] + [c, d, e, f, g, h];
    }
    Seqs.FilterCons(a, [b, c, d, e, f, g, h], keep);
    assert [a, b, c, d, e, f, g, h] == [a] + [b, c, d, e, f, g, h];
  }

  /** Any filter of the catalogue keeps the products that pass, in catalogue order. */
  lemma FilterProducts(keep: Product -> bool)
    ensures Seqs.Filter(Products, keep)
            == Seqs.KeptIf(keep, P1) + (Seqs.KeptIf(keep, P2) + (Seqs.KeptIf(keep, P3) + (Seqs.KeptIf(keep, P4)
               + (Seqs.KeptIf(keep, P5) + (Seqs.KeptIf(keep, P6) + (Seqs.KeptIf(keep, P7) + Seqs.KeptIf(keep, P8)))))))
  {
    FilterEight(P1, P2, P3, P4, P5, P6, P7, P8, keep);
  }
}
