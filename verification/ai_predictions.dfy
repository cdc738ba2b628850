/** The demand lists of the AI prediction report
    (src/components/reports/AIPredictions.tsx): the products whose demand is
    predicted to rise most and those predicted to fall most. */
module AiPredictions {
  import opened Common
  import opened Sorting

  /** A product's predicted demand change, in percent. */
  datatype ProductPrediction = ProductPrediction(
    name: string, currentDemand: real, predictedDemand: real, changePercentage: real)

  function ChangeKey(p: ProductPrediction): Key {
    Num(p.changePercentage)
  }

  predicate Rising(p: ProductPrediction) { p.changePercentage > 0.0 }
  predicate Falling(p: ProductPrediction) { p.changePercentage < 0.0 }

  /** "Top Products with Increasing Demand": the rising products, largest
      change first, at most five. */
  function Increasing(products: seq<ProductPrediction>): (r: seq<ProductPrediction>)
    ensures |r| == Min(5, |Filter(products, Rising)|)
  {
    Top(Filter(products, Rising), ChangeKey, true, 5)
  }

  /** "Products with Decreasing Demand": the falling products, largest fall
      first, at most three. */
  function Decreasing(products: seq<ProductPrediction>): (r: seq<ProductPrediction>)
    ensures |r| == Min(3, |Filter(products, Falling)|)
  {
    Top(Filter(products, Falling), ChangeKey, false, 3)
  }

  /** The top `k` by change: products of the input, in order of change
      (falling for `desc`), and none left out ranks above one shown. */
  lemma TopByChange(kept: seq<ProductPrediction>, desc: bool, k: nat)
    ensures var r := Top(kept, ChangeKey, desc, k);
      (forall p :: p in r ==> p in kept) &&
      (forall i, j :: 0 <= i < j < |r| ==>
         if desc then r[i].changePercentage >= r[j].changePercentage
         else r[i].changePercentage <= r[j].changePercentage) &&
      (forall p, q :: p in r && q in multiset(kept) - multiset(r) ==>
         if desc then p.changePercentage >= q.changePercentage
         else p.changePercentage <= q.changePercentage)
  {
    TopByChangeOrdered(kept, desc, k);
    TopByChangeBeatsRest(kept, desc, k);
  }

  lemma TopByChangeOrdered(kept: seq<ProductPrediction>, desc: bool, k: nat)
    ensures var r := Top(kept, ChangeKey, desc, k);
      (forall p :: p in r ==> p in kept) &&
      (forall i, j :: 0 <= i < j < |r| ==>
         if desc then r[i].changePercentage >= r[j].changePercentage
         else r[i].changePercentage <= r[j].changePercentage)
  {
    var r := Top(kept, ChangeKey, desc, k);
    TopSorted(kept, ChangeKey, desc, k);
    forall p | p in r ensures p in kept {
      assert p in multiset(r);
    }
    forall i, j | 0 <= i < j < |r|
      ensures if desc then r[i].changePercentage >= r[j].changePercentage
              else r[i].changePercentage <= r[j].changePercentage
    {
      assert Before(ChangeKey, desc, r[i], r[j]);
    }
  }

  lemma TopByChangeBeatsRest(kept: seq<ProductPrediction>, desc: bool, k: nat)
    ensures var r := Top(kept, ChangeKey, desc, k);
      forall p, q :: p in r && q in multiset(kept) - multiset(r) ==>
        if desc then p.changePercentage >= q.changePercentage
        else p.changePercentage <= q.changePercentage
  {
    var r := Top(kept, ChangeKey, desc, k);
    TopBeatsRest(kept, ChangeKey, desc, k);
    forall p, q | p in r && q in multiset(kept) - multiset(r)
      ensures if desc then p.changePercentage >= q.changePercentage
              else p.changePercentage <= q.changePercentage
    {
      assert Before(ChangeKey, desc, p, q);
    }
  }

  /** The rising list holds rising products of the input, in non-increasing
      order of change, and none left out rose more than one shown. */
  lemma IncreasingSelection(products: seq<ProductPrediction>)
    ensures var r := Increasing(products);
      (forall p :: p in r ==> p in products && Rising(p)) &&
      (forall i, j :: 0 <= i < j < |r| ==> r[i].changePercentage >= r[j].changePercentage) &&
      (forall p, q :: p in r && q in multiset(Filter(products, Rising)) - multiset(r) ==>
         p.changePercentage >= q.changePercentage)
  {
    var kept := Filter(products, Rising);
    TopByChange(kept, true, 5);
    forall p | p in Increasing(products) ensures p in products && Rising(p) {
      var i :| 0 <= i < |kept| && kept[i] == p;
    }
  }

  /** The falling list holds falling products of the input, in non-decreasing
      order of change, and none left out fell further than one shown. */
  lemma DecreasingSelection(products: seq<ProductPrediction>)
    ensures var r := Decreasing(products);
      (forall p :: p in r ==> p in products && Falling(p)) &&
      (forall i, j :: 0 <= i < j < |r| ==> r[i].changePercentage <= r[j].changePercentage) &&
      (forall p, q :: p in r && q in multiset(Filter(products, Falling)) - multiset(r) ==>
         p.changePercentage <= q.changePercentage)
  {
    var kept := Filter(products, Falling);
    TopByChange(kept, false, 3);
    forall p | p in Decreasing(products) ensures p in products && Falling(p) {
      var i :| 0 <= i < |kept| && kept[i] == p;
    }
  }

  /** No product is in both lists, and one whose change is 0 is in neither. */
  lemma ListsDisjoint(products: seq<ProductPrediction>)
    ensures forall p :: !(p in Increasing(products) && p in Decreasing(products))
    ensures forall p: ProductPrediction :: p.changePercentage == 0.0 ==> p !in Increasing(products) && p !in Decreasing(products)
  {
    IncreasingSelection(products);
    DecreasingSelection(products);
  }

  /** The magnitude shown beside a falling product: `Math.abs` of its change,
      which is positive and the change's negation. */
  function ShownDecrease(p: ProductPrediction): (m: real)
    requires Falling(p)
    ensures m > 0.0 && m == -p.changePercentage
  {
    Abs(p.changePercentage)
  }

  /** The predictions the report shows when none are passed in. */
  function DefaultProducts(): seq<ProductPrediction> {
    [ProductPrediction("Nasi Goreng", 40.0, 48.0, 20.0),
     ProductPrediction("Mie Ayam", 30.0, 35.0, 16.7),
     ProductPrediction("Es Teh", 60.0, 65.0, 8.3),
     ProductPrediction("Ayam Bakar", 25.0, 28.0, 12.0),
     ProductPrediction("Soto Ayam", 35.0, 32.0, -8.6),
     ProductPrediction("Bakso", 45.0, 40.0, -11.1),
     ProductPrediction("Es Jeruk", 50.0, 45.0, -10.0)]
  }

  /** When the products are rising ones followed by falling ones, those
      are the rising list and the falling list before sorting, each in
      input order. */
  lemma RisingThenFalling(d: seq<ProductPrediction>, front: seq<ProductPrediction>, back: seq<ProductPrediction>)
    requires d == front + back
    requires forall i :: 0 <= i < |front| ==> Rising(front[i])
    requires forall i :: 0 <= i < |back| ==> Falling(back[i])
    ensures Filter(d, Rising) == front && Filter(d, Falling) == back
  {
    FilterAppend(front, back, Rising);
    FilterAppend(front, back, Falling);
    FilterKeepsAll(front, Rising);
    FilterKeepsNone(back, Rising);
    FilterKeepsNone(front, Falling);
    FilterKeepsAll(back, Falling);
  }

  /** Changes that strictly fall (`desc`) or rise along the list, step by
      step. */
  predicate StrictChain(s: seq<ProductPrediction>, desc: bool) {
    forall i :: 0 <= i < |s| - 1 ==>
      if desc then s[i].changePercentage > s[i + 1].changePercentage
      else s[i].changePercentage < s[i + 1].changePercentage
  }

  /** A strict chain holds strictly ordered changes between any two
      positions, so it is sorted and no two of its products share a key. */
  lemma {:induction false} StrictChainSorted(s: seq<ProductPrediction>, desc: bool)
    requires StrictChain(s, desc)
    ensures forall i, j :: 0 <= i < j < |s| ==>
      if desc then s[i].changePercentage > s[j].changePercentage
      else s[i].changePercentage < s[j].changePercentage
    ensures SortedBy(s, ChangeKey, desc) && KeysDistinct(s, ChangeKey)
    decreases |s|
  {
    if |s| > 1 {
      StrictChainSorted(s[1..], desc);
      forall i, j | 0 <= i < j < |s|
        ensures if desc then s[i].changePercentage > s[j].changePercentage
                else s[i].changePercentage < s[j].changePercentage
      {
        if i > 0 {
          assert s[i] == s[1..][i - 1] && s[j] == s[1..][j - 1];
        } else if j > 1 {
          assert s[1] == s[1..][0] && s[j] == s[1..][j - 1];
        }
      }
    }
    forall i, j | 0 <= i < |s| && 0 <= j < |s| && ChangeKey(s[i]) == ChangeKey(s[j])
      ensures s[i] == s[j]
    {
      if i < j || j < i {
        assert false;
      }
    }
  }

  lemma ChainOfFour(a: ProductPrediction, b: ProductPrediction, c: ProductPrediction, e: ProductPrediction)
    requires a.changePercentage > b.changePercentage > e.changePercentage > c.changePercentage
    ensures SortedBy([a, b, e, c], ChangeKey, true) && KeysDistinct([a, b, e, c], ChangeKey)
  {
    var t := [a, b, e, c];
    assert StrictChain(t, true) by {
      assert t[0] == a && t[1] == b && t[2] == e && t[3] == c;
    }
    StrictChainSorted(t, true);
  }

  lemma ChainOfThree(a: ProductPrediction, b: ProductPrediction, c: ProductPrediction)
    requires b.changePercentage < c.changePercentage < a.changePercentage
    ensures SortedBy([b, c, a], ChangeKey, false) && KeysDistinct([b, c, a], ChangeKey)
  {
    var t := [b, c, a];
    assert StrictChain(t, false) by {
      assert t[0] == b && t[1] == c && t[2] == a;
    }
    StrictChainSorted(t, false);
  }

  lemma SwapLastTwo(a: ProductPrediction, b: ProductPrediction, c: ProductPrediction, e: ProductPrediction)
    ensures multiset([a, b, e, c]) == multiset([a, b, c, e])
  {
    assert [a, b, c, e] == [a, b] + [c] + [e] && [a, b, e, c] == [a, b] + [e] + [c];
  }

  /** Four rising products with changes a > b > e > c sort to a, b, e, c. */
  lemma SortFourDescending(a: ProductPrediction, b: ProductPrediction, c: ProductPrediction, e: ProductPrediction)
    requires a.changePercentage > b.changePercentage > e.changePercentage > c.changePercentage
    ensures SortBy([a, b, c, e], ChangeKey, true) == [a, b, e, c]
  {
    ChainOfFour(a, b, c, e);
    SwapLastTwo(a, b, c, e);
    SortIsSortedPermutation([a, b, e, c], [a, b, c, e], ChangeKey, true);
  }

  /** Three falling products with changes b < c < a sort to b, c, a. */
  lemma SortThreeAscending(a: ProductPrediction, b: ProductPrediction, c: ProductPrediction)
    requires b.changePercentage < c.changePercentage < a.changePercentage
    ensures SortBy([a, b, c], ChangeKey, false) == [b, c, a]
  {
    ChainOfThree(a, b, c);
    assert multiset([b, c, a]) == multiset([a, b, c]) by {
      assert [a, b, c] == [a] + [b, c] && [b, c, a] == [b, c] + [a];
    }
    SortIsSortedPermutation([b, c, a], [a, b, c], ChangeKey, false);
  }

  /** Four rising products with changes a > b > e > c make the rising list
      a, b, e, c. */
  lemma IncreasingOfFour(d: seq<ProductPrediction>, a: ProductPrediction, b: ProductPrediction,
                         c: ProductPrediction, e: ProductPrediction)
    requires Filter(d, Rising) == [a, b, c, e]
    requires a.changePercentage > b.changePercentage > e.changePercentage > c.changePercentage
    ensures Increasing(d) == [a, b, e, c]
  {
    SortFourDescending(a, b, c, e);
  }

  /** Three falling products with changes b < c < a make the falling list
      b, c, a. */
  lemma DecreasingOfThree(d: seq<ProductPrediction>, a: ProductPrediction, b: ProductPrediction,
                          c: ProductPrediction)
    requires Filter(d, Falling) == [a, b, c]
    requires b.changePercentage < c.changePercentage < a.changePercentage
    ensures Decreasing(d) == [b, c, a]
  {
    SortThreeAscending(a, b, c);
  }

  /** The default data's first four products rise and the other three
      fall. */
  lemma DefaultSplit()
    ensures var d := DefaultProducts();
      Filter(d, Rising) == [d[0], d[1], d[2], d[3]] && Filter(d, Falling) == [d[4], d[5], d[6]]
  {
    var d := DefaultProducts();
    var front, back := [d[0], d[1], d[2], d[3]], [d[4], d[5], d[6]];
    assert d == front + back;
    RisingThenFalling(d, front, back);
  }

  /** On the default data the rising list is Nasi Goreng, Mie Ayam, Ayam
      Bakar, Es Teh. */
  lemma DefaultIncreasing()
    ensures var d := DefaultProducts();
      Increasing(d) == [d[0], d[1], d[3], d[2]] &&
      [d[0].name, d[1].name, d[3].name, d[2].name] == ["Nasi Goreng", "Mie Ayam", "Ayam Bakar", "Es Teh"]
  {
    var d := DefaultProducts();
    DefaultSplit();
    IncreasingOfFour(d, d[0], d[1], d[2], d[3]);
  }

  /** On the default data the falling list is Bakso, Es Jeruk, Soto Ayam. */
  lemma DefaultDecreasing()
    ensures var d := DefaultProducts();
      Decreasing(d) == [d[5], d[6], d[4]] &&
      [d[5].name, d[6].name, d[4].name] == ["Bakso", "Es Jeruk", "Soto Ayam"]
  {
    var d := DefaultProducts();
    DefaultSplit();
    DecreasingOfThree(d, d[4], d[5], d[6]);
  }
}
