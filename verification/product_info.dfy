/** The purchasing panel of src/components/product/ProductInfo.tsx: the
    quantity stepper, the cart line built from the shown product, and the
    material label. The component receives `product: any`; here it is a
    catalogue product, absent when the page has none. */
module ProductInfo {
  import opened Base
  import Text
  import Catalogue
  import Cart

  // ---------------------------------------------------------------------
  // Quantity

  /** `Math.max(1, parseInt(value) || 1)`: unparseable text and 0 give 1,
      anything below 1 is raised to 1, and a positive number is kept. */
  function ClampQuantity(parsed: Option<int>): (q: int)
    ensures q >= 1
    ensures parsed.Some? && parsed.value >= 1 ==> q == parsed.value
    ensures parsed.None? || parsed.value < 1 ==> q == 1
  {
    var n := if parsed.None? || parsed.value == 0 then 1 else parsed.value;
    if n < 1 then 1 else n
  }

  /** The stepper's state; the quantity starts at 1 and never goes below it. */
  class QuantityStepper {
    var quantity: int

    ghost predicate Valid()
      reads this
    {
      quantity >= 1
    }

    constructor ()
      ensures Valid() && quantity == 1
    {
      quantity := 1;
    }

    /** `incrementQuantity`: one more. */
    method Increment()
      requires Valid()
      modifies this
      ensures Valid() && quantity == old(quantity) + 1
    {
      quantity := quantity + 1;
    }

    /** `decrementQuantity`: one fewer, only when above 1. */
    method Decrement()
      requires Valid()
      modifies this
      ensures Valid()
      ensures old(quantity) > 1 ==> quantity == old(quantity) - 1
      ensures old(quantity) <= 1 ==> quantity == old(quantity)
    {
      if quantity > 1 {
        quantity := quantity - 1;
      }
    }

    /** The number input's `onChange`. */
    method SetFromInput(parsed: Option<int>)
      requires Valid()
      modifies this
      ensures Valid() && quantity == ClampQuantity(parsed)
    {
      quantity := ClampQuantity(parsed);
    }
  }

  // ---------------------------------------------------------------------
  // Cart line

  /** `images[0]`, undefined for an empty list. */
  function FirstImage(images: seq<string>): (r: Option<string>)
    ensures r.None? <==> |images| == 0
    ensures r.Some? ==> r.value == images[0]
  {
    if |images| > 0 then Some(images[0]) else None
  }

  /** `handleAddToCart`: nothing without a product; otherwise a line with the
      stored price, the first image, the current quantity and the product's
      id, name, weight, material and making charge. */
  function CartItemFor(product: Option<Catalogue.Product>, quantity: int): (r: Option<Cart.CartItem>)
    ensures r.None? <==> product.None?
    ensures r.Some? ==>
              r.value.id == product.value.id && r.value.name == product.value.name
              && r.value.price == product.value.price && r.value.quantity == quantity
              && r.value.image == FirstImage(product.value.images)
              && r.value.weight == Some(product.value.weight)
              && r.value.material == Some(product.value.material)
              && r.value.makingCharge == Some(product.value.makingCharge)
  {
    match product
    case None => None
    case Some(p) =>
      Some(Cart.CartItem(p.id, p.name, p.price, FirstImage(p.images), quantity,
                         Some(p.weight), Some(p.material), Some(p.makingCharge)))
  }

  /** Adding the panel's line to a cart without the product appends it with
      the chosen quantity; with the product already there only that line's
      quantity grows, and it keeps the price it was first added at. */
  lemma AddFromPanel(cart: seq<Cart.CartItem>, p: Catalogue.Product, quantity: int)
    requires Cart.UniqueIds(cart)
    ensures !Cart.HasId(cart, p.id) ==>
              Cart.AddItem(cart, CartItemFor(Some(p), quantity).value)
              == cart + [CartItemFor(Some(p), quantity).value]
    ensures Cart.HasId(cart, p.id) ==>
              var k := Cart.IndexOfId(cart, p.id);
              |Cart.AddItem(cart, CartItemFor(Some(p), quantity).value)| == |cart|
              && Cart.AddItem(cart, CartItemFor(Some(p), quantity).value)[k]
                 == cart[k].(quantity := cart[k].quantity + quantity)
  {
    var item := CartItemFor(Some(p), quantity).value;
    if Cart.HasId(cart, p.id) {
      var k := Cart.IndexOfId(cart, p.id);
      Cart.AddExistingMerges(cart, item, k);
    } else {
      Cart.AddNewAppends(cart, item);
      assert Cart.AddItem(cart, item) == cart + [item];
    }
  }

  // ---------------------------------------------------------------------
  // Material label

  /** `formatMaterialName(material)`: the first character upper-cased, and
      in the rest only the first '-' replaced by a space. */
  function FormatMaterialName(material: string): (r: string)
    ensures |r| == |material|
    ensures |material| > 0 ==> r[0] == Text.UpperChar(material[0])
    ensures |material| > 0 ==>
              forall i :: 1 <= i < |material| ==>
                r[i] == if i - 1 == Text.IndexOf(material[1..], '-') then ' ' else material[i]
  {
    if |material| == 0 then ""
    else [Text.UpperChar(material[0])] + Text.ReplaceFirst(material[1..], '-', ' ')
  }

  /** A slug `c a-b` whose part `a` has no hyphen reads `C a b`: the first
      hyphen after the first character becomes a space, and any later one in
      `b` stays. */
  lemma FirstHyphenBecomesSpace(c: char, a: string, b: string)
    requires '-' !in a
    ensures FormatMaterialName([c] + a + "-" + b) == [Text.UpperChar(c)] + a + " " + b
  {
    var m := [c] + a + "-" + b;
    var rest := a + "-" + b;
    assert m[1..] == rest;
    var k := Text.IndexOf(rest, '-');
    assert rest[|a|] == '-';
    assert k == |a| by {
      assert forall i :: 0 <= i < |a| ==> rest[i] == a[i];
    }
    var r := FormatMaterialName(m);
    var expected := [Text.UpperChar(c)] + a + " " + b;
    assert |r| == |expected|;
    forall i | 0 <= i < |r|
      ensures r[i] == expected[i]
    {
      if 1 <= i <= |a| {
        assert expected[i] == a[i - 1] && m[i] == a[i - 1];
      } else if i > |a| + 1 {
        assert expected[i] == b[i - |a| - 2] && m[i] == b[i - |a| - 2];
      }
    }
  }

  /** "gold-22k", the catalogue's most common slug, reads "Gold 22k". */
  lemma GoldLabel()
    ensures FormatMaterialName("gold-22k") == "Gold 22k"
  {
    calc {
      FormatMaterialName("gold-22k");
    == { assert "gold-22k" == ['g'] + "old" + "-" + "22k"; }
      FormatMaterialName(['g'] + "old" + "-" + "22k");
    == { FirstHyphenBecomesSpace('g', "old", "22k"); }
      [Text.UpperChar('g')] + "old" + " " + "22k";
    == { assert Text.UpperChar('g') == 'G'; }
      "Gold 22k";
    }
  }

  /** A leading hyphen is the first character, so it is never replaced. */
  lemma LeadingHyphenKept(a: string, b: string)
    requires '-' !in a
    ensures FormatMaterialName(['-'] + a + "-" + b) == ['-'] + a + " " + b
  {
    FirstHyphenBecomesSpace('-', a, b);
  }
}
