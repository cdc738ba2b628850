/** The product performance report
    (src/components/reports/ProductPerformance.tsx): the ten best or worst
    products by profit and the revenue pie built from them. */
module ProductPerformance {
  import opened Common
  import opened Sorting

  datatype Trend = Up | Down | Stable

  /** One product's figures for the period. */
  datatype ProductData = ProductData(
    id: string, name: string, category: string, sold: int, revenue: real,
    profit: real, profitMargin: real, stockTurnover: real, trend: Trend)

  /** The two tabs. */
  datatype View = Best | Worst

  /** How many products a view shows at most. */
  const ShownCount: nat := 10

  /** The profit as a sort key. */
  function ProfitKey(p: ProductData): Key {
    Num(p.profit)
  }

  /** `displayProducts`: a copy of the products sorted by profit, highest
      first for the best view and lowest first for the worst, cut to ten. */
  function DisplayProducts(products: seq<ProductData>, view: View): (r: seq<ProductData>)
    ensures |r| == Min(ShownCount, |products|)
  {
    Top(products, ProfitKey, view == Best, ShownCount)
  }

  /** `a` ranks no lower than `b` in the view: more profit for the best
      view, less for the worst. */
  predicate RanksAbove(view: View, a: ProductData, b: ProductData) {
    if view == Best then a.profit >= b.profit else a.profit <= b.profit
  }

  /** The shown products are products of the input, ordered by profit
      (non-increasing for the best view, non-decreasing for the worst). */
  lemma DisplayOrdered(products: seq<ProductData>, view: View)
    ensures var r := DisplayProducts(products, view);
      multiset(r) <= multiset(products) &&
      forall i, j :: 0 <= i < j < |r| ==> RanksAbove(view, r[i], r[j])
  {
    TopSorted(products, ProfitKey, view == Best, ShownCount);
    var r := DisplayProducts(products, view);
    forall i, j | 0 <= i < j < |r| ensures RanksAbove(view, r[i], r[j]) {
      assert Before(ProfitKey, view == Best, r[i], r[j]);
    }
  }

  /** The view keeps its promise: every shown product ranks at least as high
      as every product left out (counted with multiplicity). */
  lemma DisplayBeatsRest(products: seq<ProductData>, view: View)
    ensures var r := DisplayProducts(products, view);
      forall p, q :: p in r && q in multiset(products) - multiset(r) ==> RanksAbove(view, p, q)
  {
    TopBeatsRest(products, ProfitKey, view == Best, ShownCount);
    var r := DisplayProducts(products, view);
    forall p, q | p in r && q in multiset(products) - multiset(r) ensures RanksAbove(view, p, q) {
      assert Before(ProfitKey, view == Best, p, q);
    }
  }

  /** A slice of the revenue pie. */
  datatype Slice = Slice(name: string, value: real)

  /** `pieData`: one slice per shown product, in order, named after it and
      sized by its revenue. */
  function PieData(shown: seq<ProductData>): (r: seq<Slice>)
    ensures |r| == |shown|
    ensures forall i :: 0 <= i < |shown| ==> r[i] == Slice(shown[i].name, shown[i].revenue)
  {
    seq(|shown|, i requires 0 <= i < |shown| => Slice(shown[i].name, shown[i].revenue))
  }
}
