/** The best-sellers card of the dashboard
    (src/components/dashboard/TopProducts.tsx): the bar chart's labels and
    values, and the trend badge of each row. */
module TopProducts {
  import opened Common

  datatype Trend = Up | Down | Stable

  /** One best-selling product. */
  datatype TopProduct = TopProduct(id: string, name: string, quantity: int, revenue: real, trend: Trend, percentageChange: real)

  /** How many characters of a name the chart shows before cutting it. */
  const LabelLength: nat := 10

  /** A chart label: a name longer than ten characters is cut to its first
      ten followed by "..."; a shorter one is kept. */
  function Truncate(name: string): (shown: string)
    ensures |name| > LabelLength ==> shown == name[..LabelLength] + "..."
    ensures |name| <= LabelLength ==> shown == name
    ensures |shown| <= LabelLength + 3
    ensures |shown| <= |name| + 3
  {
    if |name| > LabelLength then name[..LabelLength] + "..." else name
  }

  /** Cutting a label again leaves it as it is. */
  lemma TruncateIdempotent(name: string)
    ensures Truncate(Truncate(name)) == Truncate(name)
  {
    if |name| > LabelLength {
      var shown := Truncate(name);
      assert shown[..LabelLength] == name[..LabelLength];
    }
  }

  /** Two long names get the same label exactly when their first ten
      characters agree. */
  lemma TruncateCollisions(a: string, b: string)
    requires |a| > LabelLength && |b| > LabelLength
    ensures Truncate(a) == Truncate(b) <==> a[..LabelLength] == b[..LabelLength]
  {
    if Truncate(a) == Truncate(b) {
      assert Truncate(a)[..LabelLength] == a[..LabelLength];
      assert Truncate(b)[..LabelLength] == b[..LabelLength];
    }
  }

  /** A bar of the chart. */
  datatype Bar = Bar(name: string, revenue: real)

  /** `chartData`: one bar per product, in order, labelled with the cut name
      and as long as the product's revenue. */
  function ChartData(products: seq<TopProduct>): (r: seq<Bar>)
    ensures |r| == |products|
    ensures forall i :: 0 <= i < |products| ==>
              r[i].revenue == products[i].revenue && r[i].name == Truncate(products[i].name)
  {
    seq(|products|, i requires 0 <= i < |products| => Bar(Truncate(products[i].name), products[i].revenue))
  }

  /** The badge of a row: shown unless the trend is stable, with an up or
      down arrow and the percentage. */
  datatype Badge = Badge(up: bool, percentageChange: real)

  function TrendBadge(p: TopProduct): (b: Option<Badge>)
    ensures b.Some? <==> p.trend != Stable
    ensures b.Some? ==> b.value.up == (p.trend == Up) && b.value.percentageChange == p.percentageChange
  {
    if p.trend != Stable then Some(Badge(p.trend == Up, p.percentageChange)) else None
  }

  /** The products the card shows by default. */
  function DefaultProducts(): seq<TopProduct> {
    [TopProduct("1", "Nasi Goreng Spesial", 42, 1260000.0, Up, 12.0),
     TopProduct("2", "Es Teh Manis", 78, 780000.0, Up, 8.0),
     TopProduct("3", "Ayam Goreng", 36, 720000.0, Down, 5.0),
     TopProduct("4", "Mie Goreng", 28, 560000.0, Stable, 0.0),
     TopProduct("5", "Soto Ayam", 22, 440000.0, Up, 3.0)]
  }

  /** On the default products the first three names are cut and the last
      two are not. */
  lemma DefaultLabels()
    ensures ChartData(DefaultProducts())[0].name == "Nasi Goren..."
    ensures ChartData(DefaultProducts())[1].name == "Es Teh Man..."
    ensures ChartData(DefaultProducts())[2].name == "Ayam Goren..."
    ensures ChartData(DefaultProducts())[3].name == "Mie Goreng"
  {
  }
}
