/** The product grid of the cashier screen
    (src/components/cashier/ProductGrid.tsx): the products matching the
    search text and the category tab, and the click that picks one. */
module ProductGrid {
  import opened Common

  /** A product offered for sale. */
  datatype Product = Product(id: string, name: string, price: real, image: Option<string>, category: string, inStock: bool)

  /** The tab that shows every category; it is also the initial tab. */
  const AllCategories: string := "Semua"

  /** The default category tabs. */
  const DefaultCategories: seq<string> := [AllCategories, "Makanan", "Minuman"]

  /** The product's name contains the search text, ignoring case, and the tab
      is "Semua" or the product's category. */
  predicate Shown(p: Product, searchTerm: string, activeCategory: string) {
    IncludesIgnoringCase(p.name, searchTerm) && (activeCategory == AllCategories || p.category == activeCategory)
  }

  /** `filteredProducts`. */
  function FilteredProducts(products: seq<Product>, searchTerm: string, activeCategory: string): (r: seq<Product>)
    ensures forall i :: 0 <= i < |r| ==> r[i] in products && Shown(r[i], searchTerm, activeCategory)
    ensures forall i :: 0 <= i < |products| && Shown(products[i], searchTerm, activeCategory) ==> products[i] in r
    ensures Subseq(r, products)
  {
    Filter(products, (p: Product) => Shown(p, searchTerm, activeCategory))
  }

  /** With no search text and the initial tab every product is shown, in
      order. */
  lemma InitialViewShowsAll(products: seq<Product>)
    ensures FilteredProducts(products, "", AllCategories) == products
  {
    forall i | 0 <= i < |products| ensures Shown(products[i], "", AllCategories) {
      EmptyQueryMatches(products[i].name);
    }
    FilterKeepsAll(products, (p: Product) => Shown(p, "", AllCategories));
  }

  /** On a category tab other than "Semua" only that category is shown; a
      product of another category never is. */
  lemma CategoryTabShowsOnlyCategory(products: seq<Product>, searchTerm: string, tab: string)
    requires tab != AllCategories
    ensures forall i :: 0 <= i < |FilteredProducts(products, searchTerm, tab)| ==>
              FilteredProducts(products, searchTerm, tab)[i].category == tab
  {
  }

  /** A click on a card: the product is handed to `onProductSelect` exactly
      when it is in stock. */
  function Click(p: Product): (selected: Option<Product>)
    ensures selected.Some? <==> p.inStock
    ensures selected.Some? ==> selected.value == p
  {
    if p.inStock then Some(p) else None
  }
}
