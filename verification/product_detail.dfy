/** The product page of src/pages/ProductDetail.tsx: the lookup by route id,
    the related-products selection and the three views (loading, not found,
    product). The route id arrives as an `Option` (`useParams` may give
    undefined); the page's state is a value updated by the lookup effect. */
module ProductDetail {
  import opened Base
  import Seqs
  import Catalogue

  type Product = Catalogue.Product

  /** `products.find(p => p.id === id)`; an undefined id matches nothing. */
  function FindProduct(products: seq<Product>, id: Option<string>): Option<Product> {
    if id.None? || |products| == 0 then None
    else if products[0].id == id.value then Some(products[0])
    else FindProduct(products[1..], id)
  }

  /** The lookup is by exact id: it finds the first product with the id, and
      nothing when no product has it. */
  lemma {:induction false} FindProductFirst(products: seq<Product>, id: Option<string>)
    ensures FindProduct(products, id).None? <==>
              id.None? || forall i :: 0 <= i < |products| ==> products[i].id != id.value
    ensures FindProduct(products, id).Some? ==>
              exists k :: 0 <= k < |products| && products[k] == FindProduct(products, id).value
                          && products[k].id == id.value
                          && forall i :: 0 <= i < k ==> products[i].id != id.value
  {
    if id.Some? && |products| > 0 && products[0].id != id.value {
      FindProductFirst(products[1..], id);
      if FindProduct(products, id).Some? {
        var k :| 0 <= k < |products[1..]| && products[1..][k] == FindProduct(products, id).value
                 && products[1..][k].id == id.value
                 && forall i :: 0 <= i < k ==> products[1..][i].id != id.value;
        assert products[k + 1] == products[1..][k];
        assert forall i :: 1 <= i < k + 1 ==> products[i] == products[1..][i - 1];
      } else {
        assert forall i :: 1 <= i < |products| ==> products[i] == products[1..][i - 1];
      }
    }
  }

  /** The filter of lines 33-36: another product sharing the category or
      the collection (two undefined collections compare equal). */
  predicate IsRelated(found: Product, p: Product) {
    p.id != found.id && (p.category == found.category || p.collection == found.collection)
  }

  function RelatedKeep(found: Product): Product -> bool {
    (p: Product) => IsRelated(found, p)
  }

  /** `products.filter(...).slice(0, 3)`. */
  function Related(products: seq<Product>, found: Product): seq<Product> {
    Seqs.Take(Seqs.Filter(products, RelatedKeep(found)), 3)
  }

  /** At most three related products, never the product itself, each
      sharing its category or collection, and they are the first matches in
      catalogue order. */
  lemma RelatedFacts(products: seq<Product>, found: Product)
    ensures |Related(products, found)| <= 3
    ensures forall p :: p in Related(products, found) ==>
              p in products && p.id != found.id
              && (p.category == found.category || p.collection == found.collection)
    ensures Related(products, found)
            == Seqs.Filter(products, RelatedKeep(found))[..|Related(products, found)|]
    ensures |Seqs.Filter(products, RelatedKeep(found))| <= 3 ==>
              Related(products, found) == Seqs.Filter(products, RelatedKeep(found))
  {
    var all := Seqs.Filter(products, RelatedKeep(found));
    Seqs.FilterFacts(products, RelatedKeep(found));
    forall p | p in Related(products, found)
      ensures p in all
    {
      var i :| 0 <= i < |Related(products, found)| && Related(products, found)[i] == p;
      assert all[i] == p;
    }
  }

  /** The page state: the product shown, the loading flag, the related list. */
  datatype DetailState = DetailState(product: Option<Product>, loading: bool, related: seq<Product>)

  /** `useState(null)`, `useState(true)`, `useState([])`. */
  const Initial := DetailState(None, true, [])

  /** `fetchProduct` as written: a hit stores the product and its related
      list; a miss stores nothing, so the previous product and list remain. */
  function FetchProduct(products: seq<Product>, s: DetailState, id: Option<string>): (r: DetailState)
    ensures !r.loading
    ensures FindProduct(products, id).Some? ==>
              r.product == FindProduct(products, id)
              && r.related == Related(products, FindProduct(products, id).value)
    ensures FindProduct(products, id).None? ==> r.product == s.product && r.related == s.related
  {
    match FindProduct(products, id)
    case Some(foundProduct) => DetailState(Some(foundProduct), false, Related(products, foundProduct))
    case None => s.(loading := false)
  }

  datatype View = Loading | NotFound | Shown(product: Product)

  /** `loading ? <LoadingState/> : !product ? <ProductNotFound/> : ...`. */
  function ViewOf(s: DetailState): View {
    if s.loading then Loading
    else if s.product.None? then NotFound
    else Shown(s.product.value)
  }

  /** On the first visit a miss shows the not-found view, and a hit shows the
      product; the loading view never remains after the lookup. */
  lemma FirstVisit(products: seq<Product>, id: Option<string>)
    ensures FindProduct(products, id).None? ==> ViewOf(FetchProduct(products, Initial, id)) == NotFound
    ensures FindProduct(products, id).Some? ==>
              ViewOf(FetchProduct(products, Initial, id)) == Shown(FindProduct(products, id).value)
    ensures ViewOf(FetchProduct(products, Initial, id)) != Loading
  {
  }

  /** The page stays mounted when only the route id changes: going from p1 to
      an id no product has keeps showing p1 and its related list. */
  lemma StaleProductAfterMiss()
    ensures ViewOf(FetchProduct(Catalogue.Products, FetchProduct(Catalogue.Products, Initial, Some("p1")), Some("p9")))
            == Shown(Catalogue.P1)
  {
    FindProductFirst(Catalogue.Products, Some("p9"));
  }

  /** The lookup with the state reset on a miss, so the view always matches
      the current id. */
  function FetchProductIntended(products: seq<Product>, s: DetailState, id: Option<string>): (r: DetailState)
    ensures !r.loading
    ensures r.product == FindProduct(products, id)
    ensures r.product.None? ==> r.related == []
    ensures r.product.Some? ==> r.related == Related(products, r.product.value)
  {
    match FindProduct(products, id)
    case Some(foundProduct) => DetailState(Some(foundProduct), false, Related(products, foundProduct))
    case None => DetailState(None, false, [])
  }

  /** With the reset, the view depends only on the id, whatever came before. */
  lemma IntendedViewIgnoresHistory(products: seq<Product>, s: DetailState, id: Option<string>)
    ensures ViewOf(FetchProductIntended(products, s, id)) == ViewOf(FetchProductIntended(products, Initial, id))
    ensures FindProduct(products, id).None? <==> ViewOf(FetchProductIntended(products, s, id)) == NotFound
  {
  }

  /** p1's only related product is the other necklace, p5; p4 and p8 share
      the Timeless Essentials collection. */
  lemma CatalogueRelated()
    ensures Related(Catalogue.Products, Catalogue.P1) == [Catalogue.P5]
    ensures Related(Catalogue.Products, Catalogue.P4) == [Catalogue.P8]
  {
    Catalogue.FilterProducts(RelatedKeep(Catalogue.P1));
    Catalogue.FilterProducts(RelatedKeep(Catalogue.P4));
  }
}
