/** `Array.prototype.sort` with the comparators the components use: a
    numeric key compared by subtraction, or a text key compared by
    `localeCompare` (modelled as the lexicographic order on character
    codes), ascending or descending. JavaScript's sort is stable, so the
    result is the unique stable sorting of the input; `SortBy` computes it
    by insertion. */
module Sorting {

  /** A sort key: a number, or a text compared by `localeCompare`. */
  datatype Key = Num(n: real) | Text(t: string)

  /** Lexicographic order on strings, the stand-in for `localeCompare`. */
  predicate TextLe(a: string, b: string)
    decreases |a|
  {
    a == [] || (b != [] && (a[0] < b[0] || (a[0] == b[0] && TextLe(a[1..], b[1..]))))
  }

  /** Order on keys. Within one field all keys have the same kind; the
      mixed cases only make the order total. */
  predicate KeyLe(a: Key, b: Key) {
    match (a, b)
    case (Num(x), Num(y)) => x <= y
    case (Text(x), Text(y)) => TextLe(x, y)
    case (Num(_), Text(_)) => true
    case (Text(_), Num(_)) => false
  }

  lemma {:induction false} TextLeTotal(a: string, b: string)
    ensures TextLe(a, b) || TextLe(b, a)
  {
    if a != [] && b != [] && a[0] == b[0] {
      TextLeTotal(a[1..], b[1..]);
    }
  }

  lemma {:induction false} TextLeTransitive(a: string, b: string, c: string)
    requires TextLe(a, b) && TextLe(b, c)
    ensures TextLe(a, c)
  {
    if a != [] && a[0] == b[0] && b[0] == c[0] {
      TextLeTransitive(a[1..], b[1..], c[1..]);
    }
  }

  lemma KeyLeTotal(a: Key, b: Key)
    ensures KeyLe(a, b) || KeyLe(b, a)
  {
    if a.Text? && b.Text? {
      TextLeTotal(a.t, b.t);
    }
  }

  lemma KeyLeTransitive(a: Key, b: Key, c: Key)
    requires KeyLe(a, b) && KeyLe(b, c)
    ensures KeyLe(a, c)
  {
    if a.Text? && b.Text? && c.Text? {
      TextLeTransitive(a.t, b.t, c.t);
    }
  }

  /** `a` may stand before `b` in the sorted output: the comparator does not
      return a positive number for (a, b). */
  predicate Before<T>(key: T -> Key, desc: bool, a: T, b: T) {
    if desc then KeyLe(key(b), key(a)) else KeyLe(key(a), key(b))
  }

  lemma BeforeTotal<T>(key: T -> Key, desc: bool, a: T, b: T)
    ensures Before(key, desc, a, b) || Before(key, desc, b, a)
  {
    KeyLeTotal(key(a), key(b));
  }

  lemma BeforeTransitive<T>(key: T -> Key, desc: bool, a: T, b: T, c: T)
    requires Before(key, desc, a, b) && Before(key, desc, b, c)
    ensures Before(key, desc, a, c)
  {
    if desc {
      KeyLeTransitive(key(c), key(b), key(a));
    } else {
      KeyLeTransitive(key(a), key(b), key(c));
    }
  }

  /** Every element may stand before every later one. */
  predicate SortedBy<T>(s: seq<T>, key: T -> Key, desc: bool) {
    forall i, j :: 0 <= i < j < |s| ==> Before(key, desc, s[i], s[j])
  }

  /** Inserts `x`, which came before every element of `s` in the input,
      ahead of the first element it may stand before. */
  function Insert<T(==)>(x: T, s: seq<T>, key: T -> Key, desc: bool): (r: seq<T>)
    requires SortedBy(s, key, desc)
    ensures multiset(r) == multiset{x} + multiset(s)
    ensures SortedBy(r, key, desc)
  {
    if s == [] then [x]
    else if Before(key, desc, x, s[0]) then
      BeforeAll(x, s, key, desc);
      [x] + s
    else
      var rest := Insert(x, s[1..], key, desc);
      assert s == [s[0]] + s[1..];
      HeadBeforeInserted(x, s, rest, key, desc);
      [s[0]] + rest
  }

  /** What stands before the head of a sorted sequence stands before all of
      it. */
  lemma BeforeAll<T>(x: T, s: seq<T>, key: T -> Key, desc: bool)
    requires SortedBy(s, key, desc) && s != [] && Before(key, desc, x, s[0])
    ensures forall j :: 0 <= j < |s| ==> Before(key, desc, x, s[j])
  {
    forall j | 0 <= j < |s| ensures Before(key, desc, x, s[j]) {
      if j > 0 { BeforeTransitive(key, desc, x, s[0], s[j]); }
    }
  }

  /** When `x` goes past the head, the head stands before everything an
      insertion of `x` into the tail can give. */
  lemma HeadBeforeInserted<T>(x: T, s: seq<T>, rest: seq<T>, key: T -> Key, desc: bool)
    requires SortedBy(s, key, desc) && s != [] && !Before(key, desc, x, s[0])
    requires multiset(rest) == multiset{x} + multiset(s[1..])
    ensures forall j :: 0 <= j < |rest| ==> Before(key, desc, s[0], rest[j])
  {
    BeforeTotal(key, desc, x, s[0]);
    forall j | 0 <= j < |rest| ensures Before(key, desc, s[0], rest[j]) {
      assert rest[j] in multiset(rest);
      if rest[j] != x {
        assert rest[j] in multiset(s[1..]);
        var k :| 1 <= k < |s| && s[k] == rest[j];
      }
    }
  }

  /** The stable sort of `s` by `key`, ascending or (`desc`) descending. */
  function SortBy<T(==)>(s: seq<T>, key: T -> Key, desc: bool): (r: seq<T>)
    ensures multiset(r) == multiset(s)
    ensures SortedBy(r, key, desc)
  {
    if s == [] then []
    else
      assert s == [s[0]] + s[1..];
      Insert(s[0], SortBy(s[1..], key, desc), key, desc)
  }

  /** Ties keep their input order: when every element has the same key,
      the stable sort leaves the sequence as it is. */
  lemma {:induction false} SortKeepsTies<T>(s: seq<T>, key: T -> Key, desc: bool)
    requires forall i :: 0 <= i < |s| ==> key(s[i]) == key(s[0])
    ensures SortBy(s, key, desc) == s
  {
    if s != [] {
      var t := s[1..];
      SortKeepsTies(t, key, desc);
      if t != [] {
        KeyLeTotal(key(s[0]), key(s[0]));
        assert Before(key, desc, s[0], t[0]);
      }
      assert s == [s[0]] + t;
    }
  }

  /** A sorted sequence has as many elements as its input. */
  lemma SortLength<T>(s: seq<T>, key: T -> Key, desc: bool)
    ensures |SortBy(s, key, desc)| == |s|
  {
    assert |multiset(SortBy(s, key, desc))| == |multiset(s)|;
  }

  /** `[...s].sort(cmp).slice(0, k)`: the first `k` of the sorted copy. */
  function Top<T(==)>(s: seq<T>, key: T -> Key, desc: bool, k: nat): (r: seq<T>)
    ensures |r| == (if k < |s| then k else |s|)
  {
    SortLength(s, key, desc);
    SortBy(s, key, desc)[..if k < |s| then k else |s|]
  }

  /** The selection holds elements of the input, in sorted order. */
  lemma TopSorted<T>(s: seq<T>, key: T -> Key, desc: bool, k: nat)
    ensures multiset(Top(s, key, desc, k)) <= multiset(s)
    ensures SortedBy(Top(s, key, desc, k), key, desc)
  {
    var sorted := SortBy(s, key, desc);
    SortLength(s, key, desc);
    var n := if k < |s| then k else |s|;
    PrefixSorted(sorted, key, desc, n);
    RestIsSuffix(sorted, n);
  }

  /** A prefix of a sorted sequence is sorted. */
  lemma PrefixSorted<T>(s: seq<T>, key: T -> Key, desc: bool, n: nat)
    requires n <= |s| && SortedBy(s, key, desc)
    ensures SortedBy(s[..n], key, desc)
  {
    forall i, j | 0 <= i < j < n ensures Before(key, desc, s[..n][i], s[..n][j]) {
      assert s[..n][i] == s[i] && s[..n][j] == s[j];
    }
  }

  /** What a prefix leaves of a sequence's multiset is its suffix. */
  lemma RestIsSuffix<T>(s: seq<T>, n: nat)
    requires n <= |s|
    ensures multiset(s) - multiset(s[..n]) == multiset(s[n..])
    ensures multiset(s[..n]) <= multiset(s)
  {
    assert s == s[..n] + s[n..];
  }

  /** Every selected element may stand before every element left out
      (counted with multiplicity): the selection is a true top `k`. */
  lemma TopBeatsRest<T>(s: seq<T>, key: T -> Key, desc: bool, k: nat)
    ensures var r := Top(s, key, desc, k);
      forall p, q :: p in r && q in multiset(s) - multiset(r) ==> Before(key, desc, p, q)
  {
    var sorted := SortBy(s, key, desc);
    SortLength(s, key, desc);
    var n := if k < |s| then k else |s|;
    assert Top(s, key, desc, k) == sorted[..n];
    RestIsSuffix(sorted, n);
    PrefixBeatsSuffix(sorted, key, desc, n);
  }

  /** In a sorted sequence every element of a prefix may stand before every
      element after it. */
  lemma PrefixBeatsSuffix<T>(sorted: seq<T>, key: T -> Key, desc: bool, n: nat)
    requires SortedBy(sorted, key, desc) && n <= |sorted|
    ensures forall p, q :: p in sorted[..n] && q in multiset(sorted[n..]) ==> Before(key, desc, p, q)
  {
    forall p, q | p in sorted[..n] && q in multiset(sorted[n..]) ensures Before(key, desc, p, q) {
      var i :| 0 <= i < n && sorted[..n][i] == p;
      var j :| 0 <= j < |sorted| - n && sorted[n..][j] == q;
      assert Before(key, desc, sorted[i], sorted[n + j]);
    }
  }

  lemma {:induction false} TextLeAntisymmetric(a: string, b: string)
    requires TextLe(a, b) && TextLe(b, a)
    ensures a == b
  {
    if a != [] {
      TextLeAntisymmetric(a[1..], b[1..]);
      assert a == [a[0]] + a[1..] && b == [b[0]] + b[1..];
    }
  }

  /** Elements that may each stand before the other have equal keys. */
  lemma BeforeAntisymmetric<T>(key: T -> Key, desc: bool, a: T, b: T)
    requires Before(key, desc, a, b) && Before(key, desc, b, a)
    ensures key(a) == key(b)
  {
    if key(a).Text? && key(b).Text? {
      TextLeAntisymmetric(key(a).t, key(b).t);
    }
  }

  /** No two distinct elements of `r` share a key. */
  ghost predicate KeysDistinct<T>(r: seq<T>, key: T -> Key) {
    forall i, j :: 0 <= i < |r| && 0 <= j < |r| && key(r[i]) == key(r[j]) ==> r[i] == r[j]
  }

  /** Two sorted arrangements of the same elements with distinct keys start
      with the same element. */
  lemma SortedHeadsEqual<T>(r1: seq<T>, r2: seq<T>, key: T -> Key, desc: bool)
    requires SortedBy(r1, key, desc) && SortedBy(r2, key, desc)
    requires multiset(r1) == multiset(r2) && KeysDistinct(r1, key)
    requires r1 != []
    ensures r2 != [] && r1[0] == r2[0]
  {
    assert r1[0] in multiset(r2);
    var k :| 0 <= k < |r2| && r2[k] == r1[0];
    assert r2[0] in multiset(r1);
    var m :| 0 <= m < |r1| && r1[m] == r2[0];
    assert Before(key, desc, r2[0], r1[0]) by {
      if k > 0 { assert Before(key, desc, r2[0], r2[k]); } else { BeforeTotal(key, desc, r1[0], r1[0]); }
    }
    assert Before(key, desc, r1[0], r2[0]) by {
      if m > 0 { assert Before(key, desc, r1[0], r1[m]); } else { BeforeTotal(key, desc, r1[0], r1[0]); }
    }
    BeforeAntisymmetric(key, desc, r1[0], r2[0]);
    assert key(r1[0]) == key(r1[m]);
  }

  lemma TailMultiset<T>(r1: seq<T>, r2: seq<T>)
    requires r1 != [] && r2 != [] && r1[0] == r2[0] && multiset(r1) == multiset(r2)
    ensures multiset(r1[1..]) == multiset(r2[1..])
  {
    assert r1 == [r1[0]] + r1[1..] && r2 == [r2[0]] + r2[1..];
    assert multiset(r1[1..]) == multiset(r1) - multiset{r1[0]};
    assert multiset(r2[1..]) == multiset(r2) - multiset{r2[0]};
  }

  lemma TailSortedDistinct<T>(r: seq<T>, key: T -> Key, desc: bool)
    requires r != [] && SortedBy(r, key, desc) && KeysDistinct(r, key)
    ensures SortedBy(r[1..], key, desc) && KeysDistinct(r[1..], key)
  {
    forall i, j | 0 <= i < j < |r| - 1 ensures Before(key, desc, r[1..][i], r[1..][j]) {
      assert r[1..][i] == r[i + 1] && r[1..][j] == r[j + 1];
    }
    forall i, j | 0 <= i < |r| - 1 && 0 <= j < |r| - 1 && key(r[1..][i]) == key(r[1..][j])
      ensures r[1..][i] == r[1..][j]
    {
      assert r[1..][i] == r[i + 1] && r[1..][j] == r[j + 1];
    }
  }

  /** When no two elements share a key, there is only one sorted
      arrangement, so any sorted permutation of the input is its sort. */
  lemma {:induction false} SortedUnique<T>(r1: seq<T>, r2: seq<T>, key: T -> Key, desc: bool)
    requires SortedBy(r1, key, desc) && SortedBy(r2, key, desc)
    requires multiset(r1) == multiset(r2) && KeysDistinct(r1, key)
    ensures r1 == r2
    decreases |r1|
  {
    if r1 != [] {
      SortedHeadsEqual(r1, r2, key, desc);
      TailMultiset(r1, r2);
      TailSortedDistinct(r1, key, desc);
      assert SortedBy(r2[1..], key, desc) by {
        forall i, j | 0 <= i < j < |r2| - 1 ensures Before(key, desc, r2[1..][i], r2[1..][j]) {
          assert r2[1..][i] == r2[i + 1] && r2[1..][j] == r2[j + 1];
        }
      }
      SortedUnique(r1[1..], r2[1..], key, desc);
      assert r1 == [r1[0]] + r1[1..] && r2 == [r2[0]] + r2[1..];
    }
  }

  /** A sorted permutation of `s` without repeated keys is the sort of `s`. */
  lemma SortIsSortedPermutation<T>(r: seq<T>, s: seq<T>, key: T -> Key, desc: bool)
    requires SortedBy(r, key, desc) && KeysDistinct(r, key) && multiset(r) == multiset(s)
    ensures SortBy(s, key, desc) == r
  {
    SortedUnique(r, SortBy(s, key, desc), key, desc);
  }
}
