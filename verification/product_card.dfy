/** The catalogue tile of src/components/ProductCard.tsx: its quick "Add to
    Cart" line and its material label. */
module ProductCard {
  import opened Base
  import Text
  import Catalogue
  import Cart
  import ProductInfo

  /** `handleAddToCart`: one unit of the product at its stored price, with
      its first image and its id, name, weight, material and making charge. */
  function CardItem(product: Catalogue.Product): (item: Cart.CartItem)
    ensures item.quantity == 1
    ensures item.price == product.price
    ensures item.image == ProductInfo.FirstImage(product.images)
    ensures item.id == product.id && item.name == product.name
    ensures item.weight == Some(product.weight) && item.material == Some(product.material)
    ensures item.makingCharge == Some(product.makingCharge)
  {
    Cart.CartItem(product.id, product.name, product.price, ProductInfo.FirstImage(product.images), 1,
                  Some(product.weight), Some(product.material), Some(product.makingCharge))
  }

  /** The card adds exactly the line the product page adds at quantity 1. */
  lemma CardMatchesProductPage(product: Catalogue.Product)
    ensures ProductInfo.CartItemFor(Some(product), 1) == Some(CardItem(product))
  {
  }

  /** The stored price goes to the cart even where the catalogue's own
      pricing inputs give another amount: p1 is added at 85000. */
  lemma CardUsesStoredPrice()
    ensures CardItem(Catalogue.P1).price == 85000.0
    ensures Catalogue.P1.price != 6000.0 * Catalogue.P1.weight * (1.0 + Catalogue.P1.makingCharge / 100.0)
  {
  }

  /** The tile's material line: the same expression as the product page's
      `formatMaterialName`. */
  function MaterialLabel(product: Catalogue.Product): (shown: string)
    ensures |shown| == |product.material|
    ensures |shown| > 0 ==> shown[0] == Text.UpperChar(product.material[0])
    ensures shown == ProductInfo.FormatMaterialName(product.material)
  {
    var material := product.material;
    if |material| == 0 then ""
    else [Text.UpperChar(material[0])] + Text.ReplaceFirst(material[1..], '-', ' ')
  }

  /** p1's tile reads "Gold 22k". */
  lemma RadiantLotusLabel()
    ensures MaterialLabel(Catalogue.P1) == "Gold 22k"
  {
    ProductInfo.GoldLabel();
  }
}
