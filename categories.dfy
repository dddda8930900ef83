/**
 * The "Shop by Category" page: a fixed list of category buttons and the products
 * shown for the selected one.
 */
module Categories {
  import opened Lists

  datatype CatalogProduct = CatalogProduct(id: int, name: string, category: string, image: string)

  const All := "all"

  /** The filter buttons, in order; the page starts with "all" selected. */
  const CategoryButtons: seq<string> := [All, "smartphones", "laptops", "tablets", "audio", "accessories"]

  const InitialSelection := All

  /** The products the page lists (prices are left out). */
  const Catalog: seq<CatalogProduct> := [
    CatalogProduct(1, "iPhone 13 Pro", "smartphones", "phone.jpg"),
    CatalogProduct(2, "MacBook Pro", "laptops", "laptop.jpg")
  ]

  function CategoryOf(p: CatalogProduct): string { p.category }

  /** `filteredProducts`: every product for "all", otherwise those whose category is the selection. */
  function FilteredProducts(products: seq<CatalogProduct>, selected: string): seq<CatalogProduct> {
    if selected == All then products else KeepKey(products, CategoryOf, selected)
  }

  /** The result keeps the products' order, and holds exactly the products of the selected category (all of them for "all"). */
  lemma FilteredProductsSpec(products: seq<CatalogProduct>, selected: string)
    ensures IsSubsequence(FilteredProducts(products, selected), products)
    ensures selected == All ==> FilteredProducts(products, selected) == products
    ensures selected != All ==>
              forall p :: p in FilteredProducts(products, selected) <==> p in products && p.category == selected
  {
    if selected == All {
      SubsequenceOfItself(products);
    } else {
      KeepKeyIsSubsequence(products, CategoryOf, selected);
    }
  }

  /** Every list is a subsequence of itself. */
  lemma {:induction false} SubsequenceOfItself<T>(s: seq<T>)
    ensures IsSubsequence(s, s)
  {
    if s != [] {
      SubsequenceOfItself(s[1..]);
    }
  }

  /** A product whose category is none of the buttons' (other than "all") is never shown except under "all". */
  lemma UnlistedCategoryOnlyUnderAll(products: seq<CatalogProduct>, selected: string, p: CatalogProduct)
    requires selected in CategoryButtons && p.category !in CategoryButtons[1..]
    requires p in FilteredProducts(products, selected)
    ensures selected == All
  {
    if selected != All {
      FilteredProductsSpec(products, selected);
    }
  }

  /** With the page's own catalogue, each of the last three buttons shows an empty grid. */
  lemma EmptyCatalogueCategories(selected: string)
    requires selected in CategoryButtons[3..]
    ensures FilteredProducts(Catalog, selected) == []
  {
    FilteredProductsSpec(Catalog, selected);
  }
}
