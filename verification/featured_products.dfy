/** The home page section of src/components/FeaturedProducts.tsx: the
    catalogue's featured products. */
module FeaturedProducts {
  import Seqs
  import Catalogue

  type Product = Catalogue.Product

  predicate IsFeatured(p: Product) {
    p.featured
  }

  /** `products.filter(product => product.featured)`. */
  function Featured(products: seq<Product>): seq<Product> {
    Seqs.Filter(products, IsFeatured)
  }

  /** Every returned product is featured, every featured product is returned
      as often as it occurs, and the catalogue order is kept: the featured
      products of a front part come before those of the rest. */
  lemma FeaturedFacts(products: seq<Product>, more: seq<Product>)
    ensures forall i :: 0 <= i < |Featured(products)| ==> Featured(products)[i].featured
    ensures forall p :: p in products && p.featured ==> p in Featured(products)
    ensures forall p: Product :: p.featured ==> multiset(Featured(products))[p] == multiset(products)[p]
    ensures Featured(products + more) == Featured(products) + Featured(more)
  {
    Seqs.FilterFacts(products, IsFeatured);
    Seqs.FilterConcat(products, more, IsFeatured);
  }

  /** On the shipped catalogue the section shows p1, p2, p3, p5 and p8. */
  lemma CatalogueFeatured()
    ensures Featured(Catalogue.Products)
            == [Catalogue.P1, Catalogue.P2, Catalogue.P3, Catalogue.P5, Catalogue.P8]
  {
    Catalogue.FilterProducts(IsFeatured);
  }
}
