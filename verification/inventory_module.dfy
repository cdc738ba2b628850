/** The inventory screen (src/components/inventory/InventoryModule.tsx): the
    low-stock alerts with their suggested reorder quantity, the per-category
    product counts, and which tab and form are open. */
module InventoryModule {
  import opened Common
  import opened InventoryTable
  import ProductForm

  /** One entry of the low-stock banner. */
  datatype StockAlert = StockAlert(
    id: string, name: string, currentStock: int, reorderLevel: int,
    category: string, suggestedOrder: int, lastSold: string)

  /** `Math.max(reorderLevel * 2 - stock, 5)`: enough to reach twice the
      reorder level, and at least 5. */
  function SuggestedOrder(p: Product): (n: int)
    ensures n >= 5 && n >= 2 * p.reorderLevel - p.stock
    ensures n == 5 || n == 2 * p.reorderLevel - p.stock
  {
    Max(p.reorderLevel * 2 - p.stock, 5)
  }

  /** The banner entry of a product: its id, name, stock, reorder level and
      category, with the suggested order. */
  function AlertFor(p: Product): (a: StockAlert)
    ensures a.id == p.id && a.name == p.name && a.category == p.category
    ensures a.currentStock == p.stock && a.reorderLevel == p.reorderLevel
    ensures a.suggestedOrder >= 5
  {
    StockAlert(p.id, p.name, p.stock, p.reorderLevel, p.category, SuggestedOrder(p), "2 jam lalu")
  }

  /** The products of the "Stok Menipis" tab. */
  function LowStockList(products: seq<Product>): (r: seq<Product>)
    ensures forall i :: 0 <= i < |r| ==> r[i] in products && LowStock(r[i])
    ensures forall i :: 0 <= i < |products| && LowStock(products[i]) ==> products[i] in r
    ensures Subseq(r, products)
  {
    Filter(products, LowStock)
  }

  /** `lowStockProducts`: one alert per low product, in product order. */
  function LowStockProducts(products: seq<Product>): (r: seq<StockAlert>)
    ensures |r| == |LowStockList(products)|
    ensures forall i :: 0 <= i < |r| ==> r[i] == AlertFor(LowStockList(products)[i])
  {
    var low := LowStockList(products);
    seq(|low|, i requires 0 <= i < |low| => AlertFor(low[i]))
  }

  /** The alerts are exactly those of the low products, in order; each copies
      the product's id, name, stock, reorder level and category. */
  lemma LowStockAlertsExact(products: seq<Product>)
    ensures forall i :: 0 <= i < |products| && LowStock(products[i]) ==> AlertFor(products[i]) in LowStockProducts(products)
    ensures forall a :: a in LowStockProducts(products) ==>
              exists p :: p in products && LowStock(p) && a == AlertFor(p)
    ensures Subseq(LowStockList(products), products)
    ensures forall a :: a in LowStockProducts(products) ==> a.currentStock <= a.reorderLevel && a.suggestedOrder >= 5
  {
    var low := LowStockList(products);
    var r := LowStockProducts(products);
    forall i | 0 <= i < |products| && LowStock(products[i])
      ensures AlertFor(products[i]) in r
    {
      var k :| 0 <= k < |low| && low[k] == products[i];
      assert r[k] == AlertFor(products[i]);
    }
    forall a | a in r
      ensures exists p :: p in products && LowStock(p) && a == AlertFor(p)
    {
      var k :| 0 <= k < |r| && r[k] == a;
      assert low[k] in products && LowStock(low[k]);
    }
  }

  /** The products the screen shows. */
  function SampleProducts(): seq<Product> {
    [Product("1", "Kopi Arabica", "KP-001", "Minuman", 15000.0, 8000.0, 25, 10),
     Product("2", "Nasi Goreng", "NG-001", "Makanan", 25000.0, 12000.0, 5, 8),
     Product("3", "Es Teh Manis", "ET-001", "Minuman", 8000.0, 3000.0, 40, 15),
     Product("4", "Roti Bakar", "RB-001", "Makanan", 12000.0, 5000.0, 12, 10),
     Product("5", "Ayam Goreng", "AG-001", "Makanan", 18000.0, 10000.0, 8, 5)]
  }

  /** Of the sample products only Nasi Goreng (stock 5, reorder level 8) is
      low, and 11 more are suggested. */
  lemma SampleLowStock()
    ensures LowStockProducts(SampleProducts()) ==
              [StockAlert("2", "Nasi Goreng", 5, 8, "Makanan", 11, "2 jam lalu")]
  {
    var ps := SampleProducts();
    assert ps == [ps[0]] + ps[1..];
    assert ps[1..] == [ps[1]] + ps[2..];
    assert ps[2..] == [ps[2]] + ps[3..];
    assert ps[3..] == [ps[3]] + ps[4..];
    assert LowStockList(ps) == [ps[1]];
  }

  /** `products.filter(p => p.category === category).length`. */
  function CountIn(products: seq<Product>, category: string): nat {
    |Filter(products, (p: Product) => p.category == category)|
  }

  /** The counts shown on the category cards, added up. */
  function SumCounts(products: seq<Product>, categories: seq<string>): nat {
    if categories == [] then 0
    else SumCounts(products, categories[..|categories| - 1]) + CountIn(products, categories[|categories| - 1])
  }

  lemma CountInSnoc(products: seq<Product>, p: Product, c: string)
    ensures CountIn(products + [p], c) == CountIn(products, c) + (if p.category == c then 1 else 0)
  {
    FilterAppend(products, [p], (q: Product) => q.category == c);
  }

  lemma CountInAbsent(products: seq<Product>, c: string)
    requires c !in CategoryColumn(products)
    ensures CountIn(products, c) == 0
  {
    forall i | 0 <= i < |products| ensures products[i].category != c {
      assert CategoryColumn(products)[i] == products[i].category;
    }
    FilterKeepsNone(products, (q: Product) => q.category == c);
  }

  /** Adding a product to the list adds one to the total over any list of
      distinct categories that holds its category, and nothing otherwise. */
  lemma {:induction false} SumCountsSnoc(products: seq<Product>, p: Product, categories: seq<string>)
    requires NoDuplicates(categories)
    ensures SumCounts(products + [p], categories) ==
              SumCounts(products, categories) + (if p.category in categories then 1 else 0)
    decreases |categories|
  {
    if categories != [] {
      var n := |categories| - 1;
      var init, last := categories[..n], categories[n];
      assert NoDuplicates(init) by {
        forall i, j | 0 <= i < j < n ensures init[i] != init[j] {
          assert init[i] == categories[i] && init[j] == categories[j];
        }
      }
      assert last !in init by {
        forall i | 0 <= i < n ensures init[i] != last {
          assert init[i] == categories[i];
        }
      }
      assert p.category in categories <==> p.category in init || p.category == last by {
        assert categories == init + [last];
      }
      SumCountsSnoc(products, p, init);
      CountInSnoc(products, p, last);
    }
  }

  lemma SumCountsAppendOne(products: seq<Product>, categories: seq<string>, c: string)
    ensures SumCounts(products, categories + [c]) == SumCounts(products, categories) + CountIn(products, c)
  {
    assert (categories + [c])[..|categories|] == categories;
  }

  /** The category cards cover every product exactly once: their counts add
      up to the number of products. */
  lemma {:induction false} CategoryCountsSumToTotal(products: seq<Product>)
    ensures SumCounts(products, Categories(products)) == |products|
    decreases |products|
  {
    if products != [] {
      var n := |products| - 1;
      var init := products[..n];
      var p := products[n];
      assert products == init + [p];
      CategoryCountsSumToTotal(init);
      var d := Categories(init);
      assert CategoryColumn(products)[..n] == CategoryColumn(init);
      SumCountsSnoc(init, p, d);
      if p.category in d {
        assert Categories(products) == d;
      } else {
        assert Categories(products) == d + [p.category];
        SumCountsAppendOne(products, d, p.category);
        CountInSnoc(init, p, p.category);
        assert p.category !in CategoryColumn(init);
        CountInAbsent(init, p.category);
      }
    }
  }

  /** The initial form data for the product being edited, or none (the
      form's own defaults) when adding. */
  function FormProduct(editing: Option<Product>): (r: Option<ProductForm.FormData>)
    ensures r.Some? <==> editing.Some?
    ensures r.Some? ==>
              (r.value.id == editing.value.id && r.value.name == editing.value.name &&
               r.value.sku == editing.value.sku && r.value.category == editing.value.category &&
               r.value.price == editing.value.price && r.value.cost == editing.value.cost &&
               r.value.stock == editing.value.stock as real &&
               r.value.reorderPoint == editing.value.reorderLevel as real &&
               r.value.description == "" && r.value.isActive)
  {
    match editing
    case None => None
    case Some(p) =>
      Some(ProductForm.FormData(p.id, p.name, "", p.price, p.cost, p.category, p.sku,
                                p.stock as real, p.reorderLevel as real, true))
  }

  /** The screen's state: the open tab, whether the form is open and the
      product being edited. */
  class Screen {
    var activeTab: string
    var showProductForm: bool
    var editingProduct: Option<Product>

    constructor ()
      ensures activeTab == "all-products" && !showProductForm && editingProduct == None
    {
      activeTab := "all-products";
      showProductForm := false;
      editingProduct := None;
    }

    /** "Tambah Produk": an empty form. */
    method HandleAddProduct()
      modifies this
      ensures editingProduct == None && showProductForm
      ensures activeTab == old(activeTab)
      ensures FormProduct(editingProduct) == None
    {
      editingProduct := None;
      showProductForm := true;
    }

    /** "Edit": the form, filled from the product. */
    method HandleEditProduct(p: Product)
      modifies this
      ensures editingProduct == Some(p) && showProductForm
      ensures activeTab == old(activeTab)
    {
      editingProduct := Some(p);
      showProductForm := true;
    }

    /** The form was submitted: it closes; the product being edited stays. */
    method HandleProductSubmit(data: ProductForm.FormData)
      modifies this
      ensures !showProductForm
      ensures editingProduct == old(editingProduct) && activeTab == old(activeTab)
    {
      showProductForm := false;
    }

    /** The form was cancelled or dismissed. */
    method HandleFormCancel()
      modifies this
      ensures !showProductForm
      ensures editingProduct == old(editingProduct) && activeTab == old(activeTab)
    {
      showProductForm := false;
    }

    /** "Lihat Semua" on the banner, or a tab click. */
    method SetActiveTab(tab: string)
      modifies this
      ensures activeTab == tab
      ensures showProductForm == old(showProductForm) && editingProduct == old(editingProduct)
    {
      activeTab := tab;
    }
  }
}
