/** Helpers shared by the components: optional values, the order-preserving
    `Array.prototype.filter`, substring search (`String.prototype.includes`)
    and ASCII case folding (`toLowerCase`). */
module Common {

  /** An optional value: JavaScript's `undefined` / `null` versus a value. */
  datatype Option<+T> = None | Some(value: T)

  /** `a` is a subsequence of `b`: `a` is `b` with some elements dropped and
      the rest kept in their original order. */
  predicate Subseq<T(==)>(a: seq<T>, b: seq<T>)
    decreases |b|
  {
    a == [] || (b != [] && ((a[0] == b[0] && Subseq(a[1..], b[1..])) || Subseq(a, b[1..])))
  }

  /** `xs.filter(keep)`. */
  function Filter<T(==)>(xs: seq<T>, keep: T -> bool): (r: seq<T>)
    ensures |r| <= |xs|
    ensures forall i :: 0 <= i < |r| ==> r[i] in xs && keep(r[i])
    ensures forall i :: 0 <= i < |xs| && keep(xs[i]) ==> xs[i] in r
    ensures Subseq(r, xs)
  {
    if xs == [] then []
    else if keep(xs[0]) then [xs[0]] + Filter(xs[1..], keep)
    else Filter(xs[1..], keep)
  }

  /** Filtering a concatenation filters each part: the kept elements keep
      their relative order. */
  lemma {:induction false} FilterAppend<T>(a: seq<T>, b: seq<T>, keep: T -> bool)
    ensures Filter(a + b, keep) == Filter(a, keep) + Filter(b, keep)
  {
    if a == [] {
      assert a + b == b;
    } else {
      assert (a + b)[0] == a[0];
      assert (a + b)[1..] == a[1..] + b;
      FilterAppend(a[1..], b, keep);
    }
  }

  /** When every element is kept, the filter is the identity. */
  lemma {:induction false} FilterKeepsAll<T>(xs: seq<T>, keep: T -> bool)
    requires forall i :: 0 <= i < |xs| ==> keep(xs[i])
    ensures Filter(xs, keep) == xs
  {
    if xs != [] {
      FilterKeepsAll(xs[1..], keep);
    }
  }

  /** When no element is kept, the filter is empty. */
  lemma {:induction false} FilterKeepsNone<T>(xs: seq<T>, keep: T -> bool)
    requires forall i :: 0 <= i < |xs| ==> !keep(xs[i])
    ensures Filter(xs, keep) == []
  {
    if xs != [] {
      FilterKeepsNone(xs[1..], keep);
    }
  }

  /** No element occurs twice. */
  predicate NoDuplicates<T(==)>(xs: seq<T>) {
    forall i, j :: 0 <= i < j < |xs| ==> xs[i] != xs[j]
  }

  /** `xs.indexOf(x)` for an element that occurs: the position of its first
      occurrence. */
  function FirstIndex<T(==)>(xs: seq<T>, x: T): (k: nat)
    requires x in xs
    ensures k < |xs| && xs[k] == x
    ensures forall i :: 0 <= i < k ==> xs[i] != x
  {
    if xs[0] == x then 0 else 1 + FirstIndex(xs[1..], x)
  }

  /** Appending an element does not move the first occurrence of one that
      was already there. */
  lemma FirstIndexSnoc<T>(xs: seq<T>, y: T)
    requires xs != [] && y in xs[..|xs| - 1]
    ensures FirstIndex(xs, y) == FirstIndex(xs[..|xs| - 1], y)
  {
    var p := xs[..|xs| - 1];
    var k := FirstIndex(p, y);
    assert xs[k] == y;
    assert forall i :: 0 <= i < k ==> xs[i] == p[i];
  }

  /** `[...new Set(xs)]`: each distinct element once, in the order of its
      first occurrence (`DistinctOrder`). */
  function Distinct<T(==)>(xs: seq<T>): (r: seq<T>)
    ensures NoDuplicates(r)
    ensures forall i :: 0 <= i < |xs| ==> xs[i] in r
    ensures forall i :: 0 <= i < |r| ==> r[i] in xs
    ensures |r| <= |xs|
  {
    if xs == [] then []
    else
      var r := Distinct(xs[..|xs| - 1]);
      assert forall i :: 0 <= i < |xs| - 1 ==> xs[i] == xs[..|xs| - 1][i];
      if xs[|xs| - 1] in r then r else r + [xs[|xs| - 1]]
  }

  /** The elements of `Distinct(xs)` come in the order of their first
      occurrence in `xs`. */
  lemma {:induction false} DistinctOrder<T>(xs: seq<T>)
    ensures OrderedByFirst(xs, Distinct(xs))
  {
    if xs != [] {
      var p := xs[..|xs| - 1];
      var r := Distinct(p);
      DistinctOrder(p);
      assert OrderedByFirst(p, r);
      FirstIndexPrefixAll(xs, r);
      assert OrderedByFirst(xs, r);
      var x := xs[|xs| - 1];
      if x !in r {
        FirstIndexLast(xs);
        AppendLater(xs, r, x);
        assert Distinct(xs) == r + [x];
      } else {
        assert Distinct(xs) == r;
      }
    }
  }

  /** `r` lists elements of `xs` in the order of their first occurrence. */
  predicate OrderedByFirst<T(==)>(xs: seq<T>, r: seq<T>) {
    (forall i :: 0 <= i < |r| ==> r[i] in xs) &&
    forall i, j :: 0 <= i < j < |r| ==> FirstIndex(xs, r[i]) < FirstIndex(xs, r[j])
  }

  /** Appending an element does not move the first occurrences of the
      elements already there, which all lie before the new last position. */
  lemma FirstIndexPrefixAll<T>(xs: seq<T>, r: seq<T>)
    requires xs != [] && forall i :: 0 <= i < |r| ==> r[i] in xs[..|xs| - 1]
    ensures forall i :: 0 <= i < |r| ==>
              FirstIndex(xs, r[i]) == FirstIndex(xs[..|xs| - 1], r[i]) < |xs| - 1
  {
    forall i | 0 <= i < |r|
      ensures FirstIndex(xs, r[i]) == FirstIndex(xs[..|xs| - 1], r[i]) < |xs| - 1
    {
      FirstIndexSnoc(xs, r[i]);
    }
  }

  /** A last element that occurs nowhere earlier first occurs last. */
  lemma FirstIndexLast<T>(xs: seq<T>)
    requires xs != [] && xs[|xs| - 1] !in xs[..|xs| - 1]
    ensures FirstIndex(xs, xs[|xs| - 1]) == |xs| - 1
  {
  }

  /** An ordered list stays ordered when an element that first occurs after
      all of its elements is appended. */
  lemma AppendLater<T>(xs: seq<T>, r: seq<T>, x: T)
    requires x in xs && forall i :: 0 <= i < |r| ==> r[i] in xs && FirstIndex(xs, r[i]) < FirstIndex(xs, x)
    requires forall i, j :: 0 <= i < j < |r| ==> FirstIndex(xs, r[i]) < FirstIndex(xs, r[j])
    ensures OrderedByFirst(xs, r + [x])
  {
    var d := r + [x];
    forall i, j | 0 <= i < j < |d| ensures FirstIndex(xs, d[i]) < FirstIndex(xs, d[j]) {
      assert d[i] == r[i];
      if j < |r| {
        assert d[j] == r[j];
      }
    }
  }

  /** `s.startsWith(p)`. */
  predicate StartsWith(s: string, p: string) {
    |p| <= |s| && s[..|p|] == p
  }

  /** `s.includes(sub)`: `sub` occurs somewhere in `s`. */
  predicate Includes(s: string, sub: string)
    decreases |s|
  {
    StartsWith(s, sub) || (s != [] && Includes(s[1..], sub))
  }

  /** `sub` occurs in `s` starting at offset `i`. */
  predicate OccursAt(s: string, sub: string, i: int) {
    0 <= i && i + |sub| <= |s| && s[i..i + |sub|] == sub
  }

  /** `Includes` holds exactly when there is an offset where `sub` occurs. */
  lemma {:induction false} IncludesAt(s: string, sub: string)
    ensures Includes(s, sub) <==> exists i :: OccursAt(s, sub, i)
  {
    if StartsWith(s, sub) {
      assert OccursAt(s, sub, 0);
    } else if s == [] {
    } else {
      IncludesAt(s[1..], sub);
      if exists i :: OccursAt(s, sub, i) {
        var i :| OccursAt(s, sub, i);
        assert i != 0;
        assert s[1..][i - 1..i - 1 + |sub|] == s[i..i + |sub|];
        assert OccursAt(s[1..], sub, i - 1);
      }
      if exists i :: OccursAt(s[1..], sub, i) {
        var i :| OccursAt(s[1..], sub, i);
        assert s[1..][i..i + |sub|] == s[i + 1..i + 1 + |sub|];
        assert OccursAt(s, sub, i + 1);
      }
    }
  }

  /** Every string includes the empty string. */
  lemma IncludesEmpty(s: string)
    ensures Includes(s, "")
  {
    assert StartsWith(s, "");
  }

  /** ASCII lower-casing of one character. */
  function LowerChar(c: char): char {
    if 'A' <= c <= 'Z' then (c as int + 32) as char else c
  }

  /** `s.toLowerCase()`, restricted to ASCII letters. */
  function Lower(s: string): (r: string)
    ensures |r| == |s|
    ensures forall i :: 0 <= i < |s| ==> !('A' <= r[i] <= 'Z')
  {
    seq(|s|, i requires 0 <= i < |s| => LowerChar(s[i]))
  }

  /** Case-insensitive substring test: `s.toLowerCase().includes(q.toLowerCase())`. */
  predicate IncludesIgnoringCase(s: string, q: string) {
    Includes(Lower(s), Lower(q))
  }

  /** An empty query matches every string. */
  lemma EmptyQueryMatches(s: string)
    ensures IncludesIgnoringCase(s, "")
  {
    IncludesEmpty(Lower(s));
  }

  /** One of the characters 0-9. */
  predicate IsDigit(c: char) {
    '0' <= c <= '9'
  }

  predicate AllDigits(s: string) {
    forall i :: 0 <= i < |s| ==> IsDigit(s[i])
  }

  /** The longest prefix of `s` made of digits. */
  function DigitPrefix(s: string): (r: string)
    ensures |r| <= |s| && r == s[..|r|]
    ensures AllDigits(r)
    ensures |r| == |s| || !IsDigit(s[|r|])
  {
    if s != [] && IsDigit(s[0]) then [s[0]] + DigitPrefix(s[1..]) else []
  }

  /** The number a string of decimal digits denotes, most significant first. */
  function DecimalValue(d: string): nat
    requires AllDigits(d)
  {
    if d == [] then 0 else 10 * DecimalValue(d[..|d| - 1]) + (d[|d| - 1] as int - '0' as int)
  }

  /** The decimal digit for 0 <= n < 10. */
  function DigitChar(n: nat): (c: char)
    requires n < 10
    ensures IsDigit(c) && c as int - '0' as int == n
  {
    (n + '0' as int) as char
  }

  /** `String(n)`: the decimal notation of a natural number. */
  function ShowNat(n: nat): (r: string)
    ensures AllDigits(r) && |r| >= 1
  {
    if n < 10 then [DigitChar(n)] else ShowNat(n / 10) + [DigitChar(n % 10)]
  }

  /** Appending a zero multiplies by ten. */
  lemma ShowNatTimesTen(n: nat)
    requires n >= 1
    ensures ShowNat(n * 10) == ShowNat(n) + "0"
  {
    assert (n * 10) / 10 == n && (n * 10) % 10 == 0;
  }

  /** Reading back the decimal notation of a number gives the number. */
  lemma {:induction false} DecimalValueShowNat(n: nat)
    ensures DecimalValue(ShowNat(n)) == n
  {
    var s := ShowNat(n);
    if n < 10 {
      assert s[..0] == [];
    } else {
      assert s[..|s| - 1] == ShowNat(n / 10);
      DecimalValueShowNat(n / 10);
    }
  }

  /** A string of digits is its own digit prefix. */
  lemma {:induction false} DigitPrefixOfDigits(s: string)
    requires AllDigits(s)
    ensures DigitPrefix(s) == s
  {
    if s != [] {
      DigitPrefixOfDigits(s[1..]);
    }
  }

  /** `parseInt(s) || 0` for text without leading blanks or sign: the value of
      the leading digits, and 0 when there are none (NaN is falsy). */
  function ParseIntOrZero(s: string): (r: nat)
    ensures (|s| == 0 || !IsDigit(s[0])) ==> r == 0
  {
    DecimalValue(DigitPrefix(s))
  }

  /** `parseInt(String(n)) || 0` is `n`. */
  lemma ParseShowNat(n: nat)
    ensures ParseIntOrZero(ShowNat(n)) == n
  {
    DigitPrefixOfDigits(ShowNat(n));
    DecimalValueShowNat(n);
  }

  function Min(a: int, b: int): int { if a <= b then a else b }

  function Max(a: int, b: int): int { if a >= b then a else b }

  function Abs(x: real): real { if x < 0.0 then -x else x }
}
