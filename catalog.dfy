/** The category filter of the storefront's product grid. */
module Catalog {
  import opened Types

  /** The id of the tab that shows the whole catalog. */
  const AllCategories: string := "all"

  /** `products.filter(p => p.category === category)`. */
  function ByCategory(products: seq<Product>, category: string): (r: seq<Product>)
    ensures forall p :: p in r <==> p in products && p.category == category
    ensures forall p :: multiset(r)[p] == if p.category == category then multiset(products)[p] else 0
    ensures |r| <= |products|
  {
    if products == [] then []
    else
      var rest := ByCategory(products[1..], category);
      assert products == [products[0]] + products[1..];
      assert forall p :: multiset(products)[p] == multiset([products[0]])[p] + multiset(products[1..])[p];
      if products[0].category == category then [products[0]] + rest else rest
  }

  /** `filteredProducts`: the whole catalog on the "all" tab, otherwise the
      products of the selected category. */
  function FilteredProducts(catalog: seq<Product>, selected: string): (r: seq<Product>)
    ensures selected == AllCategories ==> r == catalog
    ensures selected != AllCategories ==>
      forall p :: p in r <==> p in catalog && p.category == selected
    ensures forall p :: p in r ==> p in catalog
  {
    if selected == AllCategories then catalog else ByCategory(catalog, selected)
  }

  /** Filtering keeps the catalog's order: it distributes over concatenation. */
  lemma {:induction false} ByCategoryAppend(a: seq<Product>, b: seq<Product>, category: string)
    ensures ByCategory(a + b, category) == ByCategory(a, category) + ByCategory(b, category)
  {
    if a == [] {
      assert a + b == b;
    } else {
      assert (a + b)[1..] == a[1..] + b;
      ByCategoryAppend(a[1..], b, category);
    }
  }

  /** Filtering twice by the same category changes nothing more. */
  lemma {:induction false} ByCategoryIdempotent(products: seq<Product>, category: string)
    ensures ByCategory(ByCategory(products, category), category) == ByCategory(products, category)
  {
    if products != [] {
      ByCategoryIdempotent(products[1..], category);
      var rest := ByCategory(products[1..], category);
      if products[0].category == category {
        assert ([products[0]] + rest)[1..] == rest;
      }
    }
  }
}
