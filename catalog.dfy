/** The product catalogue and its category filter. */
module Catalog {
  import opened Seqs

  /** A catalogue entry. The category is the one assigned when the catalogue
      was loaded; title, price and image are carried along untouched. */
  datatype Product = Product(id: int, title: string, price: real, image: string, category: string)

  /** The filter value that selects the whole catalogue. */
  const AllCategories: string := "all"

  /** The selector "has exactly this category". */
  function InCategory(category: string): Product -> bool
  {
    (p: Product) => p.category == category
  }

  /** The products shown for the filter button `filter`. */
  function FilterProducts(products: seq<Product>, filter: string): (shown: seq<Product>)
    ensures filter == AllCategories ==> shown == products
    ensures filter != AllCategories ==>
      (forall k :: 0 <= k < |shown| ==> shown[k] in products && shown[k].category == filter)
    ensures filter != AllCategories ==>
      (forall k :: 0 <= k < |products| && products[k].category == filter ==> products[k] in shown)
    ensures |shown| <= |products|
  {
    if filter == AllCategories then products else Filter(products, InCategory(filter))
  }

  /** A specific category yields exactly its products: each as often as in the
      catalogue, nothing else, in catalogue order. */
  lemma FilterProductsExact(products: seq<Product>, filter: string, p: Product)
    requires filter != AllCategories
    ensures IsSubsequence(FilterProducts(products, filter), products)
    ensures multiset(FilterProducts(products, filter))[p] ==
            if p.category == filter then multiset(products)[p] else 0
  {
    FilterIsSubsequence(products, InCategory(filter));
    FilterMultiplicity(products, InCategory(filter), p);
  }

  /** The view for a category is the concatenation of the views of the two
      halves of the catalogue, so products keep their load order. */
  lemma FilterProductsConcat(a: seq<Product>, b: seq<Product>, filter: string)
    ensures FilterProducts(a + b, filter) == FilterProducts(a, filter) + FilterProducts(b, filter)
  {
    if filter != AllCategories {
      FilterConcat(a, b, InCategory(filter));
    }
  }

  /** Choosing the same category twice shows the same products. */
  lemma FilterProductsIdempotent(products: seq<Product>, filter: string)
    ensures FilterProducts(FilterProducts(products, filter), filter) == FilterProducts(products, filter)
  {
    if filter != AllCategories {
      FilterIdempotent(products, InCategory(filter));
    }
  }
}
