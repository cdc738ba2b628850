/** The figures under the sales report chart
    (src/components/reports/SalesReportChart.tsx): total, average and
    highest sales of the period, and the previous period's total. */
module SalesReportChart {
  import opened Common

  /** `sales.reduce((a, b) => a + b, 0)`. */
  function Sum(s: seq<real>): real
  {
    if s == [] then 0.0 else s[0] + Sum(s[1..])
  }

  /** `Math.max(...sales)` of a non-empty array: one of the entries, and no
      entry is larger. */
  function MaxOf(s: seq<real>): (m: real)
    requires s != []
    ensures m in s
    ensures forall i :: 0 <= i < |s| ==> s[i] <= m
  {
    if |s| == 1 then s[0]
    else
      var rest := MaxOf(s[1..]);
      assert forall i :: 1 <= i < |s| ==> s[i] == s[1..][i - 1];
      if s[0] >= rest then s[0] else rest
  }

  /** The "Highest" figure; an empty array has none (`Math.max()` is
      `-Infinity`). */
  function Highest(s: seq<real>): (h: Option<real>)
    ensures h.Some? <==> s != []
    ensures h.Some? ==> h.value in s && forall i :: 0 <= i < |s| ==> s[i] <= h.value
  {
    if s == [] then None else Some(MaxOf(s))
  }

  /** The highest figure is the one entry that bounds all the others. */
  lemma HighestIsBound(s: seq<real>, m: real)
    requires m in s && forall i :: 0 <= i < |s| ==> s[i] <= m
    ensures Highest(s) == Some(m)
  {
    var h := Highest(s).value;
    var k :| 0 <= k < |s| && s[k] == m;
    assert h >= s[k];
  }

  /** The "Average" figure before rounding; an empty array has none (the
      division gives `NaN`). */
  function Average(s: seq<real>): (a: Option<real>)
    ensures a.Some? <==> s != []
    ensures a.Some? ==> a.value * |s| as real == Sum(s)
  {
    if s == [] then None else Some(Sum(s) / |s| as real)
  }

  /** The "Average" figure as shown: `Math.round` of the average, the
      integer nearest to it with halves rounded up. */
  function RoundedAverage(s: seq<real>): (r: Option<int>)
    ensures r.Some? <==> s != []
    ensures r.Some? ==> r.value as real - 0.5 <= Average(s).value < r.value as real + 0.5
  {
    match Average(s)
    case None => None
    case Some(a) => Some((a + 0.5).Floor)
  }

  /** The total is at most the number of days times the highest day. */
  lemma {:induction false} SumAtMostCountTimesMax(s: seq<real>, m: real)
    requires forall i :: 0 <= i < |s| ==> s[i] <= m
    ensures Sum(s) <= |s| as real * m
  {
    if s != [] {
      assert forall i :: 0 <= i < |s| - 1 ==> s[1..][i] == s[i + 1];
      SumAtMostCountTimesMax(s[1..], m);
    }
  }

  /** The average never exceeds the highest day. */
  lemma AverageAtMostHighest(s: seq<real>)
    requires s != []
    ensures Average(s).value <= Highest(s).value
  {
    var m := Highest(s).value;
    SumAtMostCountTimesMax(s, m);
    var n := |s| as real;
    assert Average(s).value * n <= m * n;
  }

  /** The "Previous Total": the sum of the previous period's sales, when
      the data has them. */
  function PreviousTotal(previous: Option<seq<real>>): (t: Option<real>)
    ensures t.Some? <==> previous.Some?
    ensures previous.Some? ==> t.value == Sum(previous.value)
  {
    match previous
    case None => None
    case Some(p) => Some(Sum(p))
  }

  /** The daily sales the chart shows by default, and the period before. */
  function DefaultSales(): seq<real> {
    [120000.0, 150000.0, 90000.0, 180000.0, 130000.0, 160000.0, 200000.0, 170000.0, 190000.0, 210000.0]
  }

  function DefaultPreviousSales(): seq<real> {
    [100000.0, 130000.0, 80000.0, 150000.0, 120000.0, 140000.0, 180000.0, 160000.0, 170000.0, 190000.0]
  }

  /** On the default data the total is 1,600,000 and the average 160,000. */
  lemma DefaultTotalAndAverage()
    ensures Sum(DefaultSales()) == 1600000.0
    ensures Average(DefaultSales()) == Some(160000.0)
  {
  }

  /** On the default data the "Average" shown is 160,000. */
  lemma DefaultRoundedAverage()
    ensures RoundedAverage(DefaultSales()) == Some(160000)
  {
    DefaultTotalAndAverage();
  }

  /** On the default data the highest day is 210,000, the last one. */
  lemma DefaultHighest()
    ensures Highest(DefaultSales()) == Some(210000.0)
  {
    var s := DefaultSales();
    assert s[9] == 210000.0;
    HighestIsBound(s, 210000.0);
  }

  /** On the default data the previous period's total is 1,420,000. */
  lemma DefaultPreviousTotal()
    ensures PreviousTotal(Some(DefaultPreviousSales())) == Some(1420000.0)
  {
  }
}
