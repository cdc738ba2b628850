/** The product table of the inventory screen
    (src/components/inventory/InventoryTable.tsx): search over name and SKU,
    the category filter, the sort toggled by the column headers, the
    low-stock badge and the list of categories offered by the filter. */
module InventoryTable {
  import opened Common
  import opened Sorting

  /** A stocked product. */
  datatype Product = Product(
    id: string, name: string, sku: string, category: string,
    price: real, cost: real, stock: int, reorderLevel: int)

  /** A column the table can be sorted by (`keyof Product`). */
  datatype Field = Id | Name | Sku | Category | Price | Cost | Stock | ReorderLevel

  datatype Direction = Asc | Desc

  /** Text fields compare by `localeCompare`, numeric ones by subtraction. */
  predicate IsNumeric(f: Field) {
    f == Price || f == Cost || f == Stock || f == ReorderLevel
  }

  /** `product[field]` as a sort key. */
  function KeyOf(p: Product, f: Field): (k: Key)
    ensures k.Num? <==> IsNumeric(f)
  {
    match f
    case Id => Text(p.id)
    case Name => Text(p.name)
    case Sku => Text(p.sku)
    case Category => Text(p.category)
    case Price => Num(p.price)
    case Cost => Num(p.cost)
    case Stock => Num(p.stock as real)
    case ReorderLevel => Num(p.reorderLevel as real)
  }

  /** The sort state after a click on a column header. */
  function NextSort(field: Option<Field>, dir: Direction, clicked: Field): (r: (Option<Field>, Direction))
    ensures r.0 == Some(clicked)
    ensures field == Some(clicked) ==> r.1 != dir
    ensures field != Some(clicked) ==> r.1 == Asc
  {
    if field == Some(clicked) then (field, if dir == Asc then Desc else Asc)
    else (Some(clicked), Asc)
  }

  /** Clicking the current sort column twice restores the direction; clicking
      a new column twice sorts it descending. */
  lemma SortTwice(field: Option<Field>, dir: Direction, clicked: Field)
    ensures var s := NextSort(field, dir, clicked);
      NextSort(s.0, s.1, clicked).1 == (if field == Some(clicked) then dir else Desc)
  {
  }

  /** The search text occurs in the name or the SKU, ignoring case, and the
      category is the selected one, if one is selected (the empty string
      counts as none selected). */
  predicate Matches(p: Product, searchTerm: string, selected: Option<string>) {
    (IncludesIgnoringCase(p.name, searchTerm) || IncludesIgnoringCase(p.sku, searchTerm)) &&
    (selected.None? || selected.value == "" || p.category == selected.value)
  }

  /** `filteredProducts`: the matching products, stably sorted by the sort
      field when there is one. Without a field the comparator returns 0 for
      every pair, and a stable sort then keeps the order. */
  function FilteredProducts(products: seq<Product>, searchTerm: string, selected: Option<string>,
                            sortField: Option<Field>, dir: Direction): seq<Product>
  {
    var kept := Filter(products, (p: Product) => Matches(p, searchTerm, selected));
    if sortField.None? then kept
    else SortBy(kept, (p: Product) => KeyOf(p, sortField.value), dir == Desc)
  }

  /** A product is listed exactly when it matches, whatever the sort. */
  lemma ListedIffMatches(products: seq<Product>, searchTerm: string, selected: Option<string>,
                         sortField: Option<Field>, dir: Direction, p: Product)
    ensures p in FilteredProducts(products, searchTerm, selected, sortField, dir) <==>
              p in products && Matches(p, searchTerm, selected)
  {
    var kept := Filter(products, (q: Product) => Matches(q, searchTerm, selected));
    var r := FilteredProducts(products, searchTerm, selected, sortField, dir);
    assert multiset(r) == multiset(kept);
    assert p in r <==> p in multiset(r);
    assert p in kept <==> p in multiset(kept);
  }

  /** Sorting reorders the matching products and nothing more: the result is
      a permutation of them, and without a sort field it is them in their
      original order. */
  lemma SortIsPermutation(products: seq<Product>, searchTerm: string, selected: Option<string>,
                          sortField: Option<Field>, dir: Direction)
    ensures var kept := Filter(products, (p: Product) => Matches(p, searchTerm, selected));
      multiset(FilteredProducts(products, searchTerm, selected, sortField, dir)) == multiset(kept) &&
      (sortField.None? ==> FilteredProducts(products, searchTerm, selected, sortField, dir) == kept)
    ensures sortField.None? ==> Subseq(FilteredProducts(products, searchTerm, selected, sortField, dir), products)
  {
  }

  /** With no search text, no category and no sort field, as the table
      starts, every product is listed in its own order. */
  lemma InitialRowsAreAll(products: seq<Product>)
    ensures FilteredProducts(products, "", None, None, Asc) == products
  {
    forall i | 0 <= i < |products| ensures Matches(products[i], "", None) {
      EmptyQueryMatches(products[i].name);
    }
    FilterKeepsAll(products, (p: Product) => Matches(p, "", None));
  }

  /** Sorting by a numeric column gives non-decreasing values ascending and
      non-increasing values descending. */
  lemma NumericSortOrdered(products: seq<Product>, searchTerm: string, selected: Option<string>,
                           f: Field, dir: Direction)
    requires IsNumeric(f)
    ensures var r := FilteredProducts(products, searchTerm, selected, Some(f), dir);
      forall i, j :: 0 <= i < j < |r| ==>
        if dir == Asc then KeyOf(r[i], f).n <= KeyOf(r[j], f).n else KeyOf(r[i], f).n >= KeyOf(r[j], f).n
  {
    var r := FilteredProducts(products, searchTerm, selected, Some(f), dir);
    forall i, j | 0 <= i < j < |r|
      ensures if dir == Asc then KeyOf(r[i], f).n <= KeyOf(r[j], f).n else KeyOf(r[i], f).n >= KeyOf(r[j], f).n
    {
      assert Before((p: Product) => KeyOf(p, f), dir == Desc, r[i], r[j]);
    }
  }

  /** The "Stok Menipis" badge: stock at or below the reorder level. */
  predicate LowStock(p: Product) {
    p.stock <= p.reorderLevel
  }

  /** The categories of the products, in order. */
  function CategoryColumn(products: seq<Product>): (r: seq<string>)
    ensures |r| == |products|
    ensures forall i :: 0 <= i < |products| ==> r[i] == products[i].category
  {
    seq(|products|, i requires 0 <= i < |products| => products[i].category)
  }

  /** The categories offered by the filter. */
  function Categories(products: seq<Product>): seq<string> {
    Distinct(CategoryColumn(products))
  }

  /** The filter offers every product's category once, and nothing else. */
  lemma CategoriesExact(products: seq<Product>)
    ensures NoDuplicates(Categories(products))
    ensures forall i :: 0 <= i < |products| ==> products[i].category in Categories(products)
    ensures forall c :: c in Categories(products) <==> exists i :: 0 <= i < |products| && products[i].category == c
  {
    var col := CategoryColumn(products);
    forall c | c in Categories(products)
      ensures exists i :: 0 <= i < |products| && products[i].category == c
    {
      var k :| 0 <= k < |Categories(products)| && Categories(products)[k] == c;
      assert c in col;
      var i :| 0 <= i < |col| && col[i] == c;
      assert products[i].category == c;
    }
    forall i | 0 <= i < |products| ensures products[i].category in Categories(products) {
      assert col[i] == products[i].category;
    }
  }

  /** The table's own state: search text, sort and category filter. */
  class Table {
    var searchTerm: string
    var sortField: Option<Field>
    var sortDirection: Direction
    var selectedCategory: Option<string>

    constructor ()
      ensures searchTerm == "" && sortField == None && sortDirection == Asc && selectedCategory == None
    {
      searchTerm := "";
      sortField := None;
      sortDirection := Asc;
      selectedCategory := None;
    }

    /** The rows shown for these products. */
    function Rows(products: seq<Product>): seq<Product>
      reads this
    {
      FilteredProducts(products, searchTerm, selectedCategory, sortField, sortDirection)
    }

    /** `handleSort`. */
    method HandleSort(field: Field)
      modifies this
      ensures (sortField, sortDirection) == NextSort(old(sortField), old(sortDirection), field)
      ensures searchTerm == old(searchTerm) && selectedCategory == old(selectedCategory)
    {
      if sortField == Some(field) {
        sortDirection := if sortDirection == Asc then Desc else Asc;
      } else {
        sortField := Some(field);
        sortDirection := Asc;
      }
    }

    /** The search box. */
    method SetSearchTerm(text: string)
      modifies this
      ensures searchTerm == text
      ensures sortField == old(sortField) && sortDirection == old(sortDirection)
      ensures selectedCategory == old(selectedCategory)
    {
      searchTerm := text;
    }

    /** "Semua Kategori" (`None`) or one category of the filter menu. */
    method SetSelectedCategory(category: Option<string>)
      modifies this
      ensures selectedCategory == category
      ensures searchTerm == old(searchTerm) && sortField == old(sortField) && sortDirection == old(sortDirection)
    {
      selectedCategory := category;
    }
  }
}
