/** The product grid's filter: `filteredProducts` (App.tsx:101-109). */
module Catalog {
  import opened Types
  import opened Text

  /** A product is listed when it is in the chosen category (or 'All') and its name or category contains the search term, ignoring case. */
  predicate Listed(p: Product, activeCategory: string, searchTerm: string) {
    var term := Lower(searchTerm);
    && (activeCategory == "All" || p.category == activeCategory)
    && (Includes(Lower(p.name), term) || Includes(Lower(p.category), term))
  }

  /** `products.filter(...)`: exactly the listed products, in catalog order. */
  function FilterProducts(products: seq<Product>, activeCategory: string, searchTerm: string): (r: seq<Product>)
    ensures |r| <= |products|
    ensures forall k :: 0 <= k < |r| ==> r[k] in products && Listed(r[k], activeCategory, searchTerm)
    ensures forall k :: 0 <= k < |products| && Listed(products[k], activeCategory, searchTerm) ==> products[k] in r
    ensures forall p :: multiset(r)[p] == if Listed(p, activeCategory, searchTerm) then multiset(products)[p] else 0
  {
    if |products| == 0 then []
    else
      assert products == [products[0]] + products[1..];
      var rest := FilterProducts(products[1..], activeCategory, searchTerm);
      if Listed(products[0], activeCategory, searchTerm) then [products[0]] + rest else rest
  }

  /** The filter works product by product: filtering a concatenation filters each part, so catalog order is kept. */
  lemma {:induction false} FilterProductsAppend(a: seq<Product>, b: seq<Product>, activeCategory: string, searchTerm: string)
    ensures FilterProducts(a + b, activeCategory, searchTerm)
         == FilterProducts(a, activeCategory, searchTerm) + FilterProducts(b, activeCategory, searchTerm)
  {
    if |a| == 0 {
      assert a + b == b;
    } else {
      assert (a + b)[0] == a[0] && (a + b)[1..] == a[1..] + b;
      FilterProductsAppend(a[1..], b, activeCategory, searchTerm);
    }
  }

  /** With category 'All' and an empty search box the whole catalog is shown, in order. */
  lemma {:induction false} ShowAllWhenUnfiltered(products: seq<Product>)
    ensures FilterProducts(products, "All", "") == products
  {
    if |products| > 0 {
      IncludesEmpty(Lower(products[0].name));
      assert Lower("") == "";
      ShowAllWhenUnfiltered(products[1..]);
      assert products == [products[0]] + products[1..];
    }
  }
}
