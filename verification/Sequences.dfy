/** Sums, orderings and stable sorting of sequences, shared by the other modules. */
module Sequences {

  // ---------- Sums ----------

  function Sum(s: seq<real>): real {
    if s == [] then 0.0 else Sum(s[..|s| - 1]) + s[|s| - 1]
  }

  lemma SumTake(s: seq<real>, p: nat)
    requires p < |s|
    ensures Sum(s[..p + 1]) == Sum(s[..p]) + s[p]
  {
    assert s[..p + 1][..p] == s[..p];
  }

  lemma {:induction false} SumAppend(a: seq<real>, b: seq<real>)
    ensures Sum(a + b) == Sum(a) + Sum(b)
    decreases |b|
  {
    if b == [] {
      assert a + b == a;
    } else {
      var n := |b| - 1;
      assert (a + b)[..|a + b| - 1] == a + b[..n];
      SumAppend(a, b[..n]);
    }
  }

  /** The sum of f over a sequence: the plain reading of every accumulating loop. */
  function SumBy<T>(s: seq<T>, f: T -> real): real {
    if s == [] then 0.0 else SumBy(s[..|s| - 1], f) + f(s[|s| - 1])
  }

  lemma {:induction false} SumByAppend<T>(a: seq<T>, b: seq<T>, f: T -> real)
    ensures SumBy(a + b, f) == SumBy(a, f) + SumBy(b, f)
    decreases |b|
  {
    if b == [] {
      assert a + b == a;
    } else {
      var n := |b| - 1;
      assert (a + b)[..|a + b| - 1] == a + b[..n];
      SumByAppend(a, b[..n], f);
    }
  }

  lemma {:induction false} SumByZero<T>(s: seq<T>, f: T -> real)
    requires forall x :: x in s ==> f(x) == 0.0
    ensures SumBy(s, f) == 0.0
  {
    if s != [] {
      SumByZero(s[..|s| - 1], f);
    }
  }

  lemma {:induction false} SumByCong<T>(s: seq<T>, f: T -> real, g: T -> real)
    requires forall x :: x in s ==> f(x) == g(x)
    ensures SumBy(s, f) == SumBy(s, g)
  {
    if s != [] {
      SumByCong(s[..|s| - 1], f, g);
    }
  }

  lemma SumByOne<T>(x: T, f: T -> real)
    ensures SumBy([x], f) == f(x)
  {
    assert [x][..0] == [];
  }

  lemma SumByRemove<T>(s: seq<T>, i: nat, f: T -> real)
    requires i < |s|
    ensures SumBy(s, f) == f(s[i]) + SumBy(s[..i] + s[i + 1..], f)
  {
    var a, x, b := s[..i], [s[i]], s[i + 1..];
    assert s == a + (x + b);
    SumByAppend(a, x + b, f);
    SumByAppend(x, b, f);
    SumByAppend(a, b, f);
    SumByOne(s[i], f);
  }

  lemma RemoveMultiset<T>(s: seq<T>, i: nat)
    requires i < |s|
    ensures multiset(s[..i] + s[i + 1..]) == multiset(s) - multiset{s[i]}
  {
    assert s == s[..i] + [s[i]] + s[i + 1..];
  }

  /** A sum does not depend on the order of its terms. */
  lemma {:induction false} SumByPermutation<T>(a: seq<T>, b: seq<T>, f: T -> real)
    requires multiset(a) == multiset(b)
    ensures SumBy(a, f) == SumBy(b, f)
    decreases |a|
  {
    if a == [] {
      assert |multiset(b)| == 0;
    } else {
      var n := |a| - 1;
      assert a[n] in multiset(b);
      var i :| 0 <= i < |b| && b[i] == a[n];
      RemoveMultiset(a, n);
      RemoveMultiset(b, i);
      assert a[..n] + a[n + 1..] == a[..n];
      SumByPermutation(a[..n], b[..i] + b[i + 1..], f);
      SumByRemove(b, i, f);
    }
  }

  // ---------- Stable sorting ----------

  ghost predicate TotalPreorder<T(!new)>(le: (T, T) -> bool) {
    && (forall x, y :: le(x, y) || le(y, x))
    && (forall x, y, z :: le(x, y) && le(y, z) ==> le(x, z))
  }

  ghost predicate SortedBy<T>(le: (T, T) -> bool, s: seq<T>) {
    forall i, j :: 0 <= i < j < |s| ==> le(s[i], s[j])
  }

  function InsertBy<T>(le: (T, T) -> bool, x: T, s: seq<T>): seq<T> {
    if s == [] then [x]
    else if le(x, s[0]) then [x] + s
    else [s[0]] + InsertBy(le, x, s[1..])
  }

  /** Python's stable sort by a key comparison. */
  function SortBy<T>(le: (T, T) -> bool, s: seq<T>): seq<T> {
    if s == [] then [] else InsertBy(le, s[0], SortBy(le, s[1..]))
  }

  lemma {:induction false} InsertByMembers<T>(le: (T, T) -> bool, x: T, s: seq<T>)
    ensures multiset(InsertBy(le, x, s)) == multiset{x} + multiset(s)
  {
    if s == [] {
    } else if le(x, s[0]) {
      assert multiset([x] + s) == multiset{x} + multiset(s);
    } else {
      InsertByMembers(le, x, s[1..]);
      assert s == [s[0]] + s[1..];
      assert multiset(s) == multiset{s[0]} + multiset(s[1..]);
    }
  }

  lemma {:induction false} InsertBySorted<T(!new)>(le: (T, T) -> bool, x: T, s: seq<T>)
    requires TotalPreorder(le) && SortedBy(le, s)
    ensures SortedBy(le, InsertBy(le, x, s))
    ensures multiset(InsertBy(le, x, s)) == multiset{x} + multiset(s)
  {
    InsertByMembers(le, x, s);
    if s == [] {
    } else if le(x, s[0]) {
    } else {
      InsertBySorted(le, x, s[1..]);
      var t := InsertBy(le, x, s[1..]);
      assert InsertBy(le, x, s) == [s[0]] + t;
      hide InsertBy;
      forall j | 0 <= j < |t| ensures le(s[0], t[j]) {
        assert t[j] in multiset(t);
        if t[j] != x {
          assert t[j] in s[1..];
        }
      }
    }
  }

  lemma {:induction false} SortBySorted<T(!new)>(le: (T, T) -> bool, s: seq<T>)
    requires TotalPreorder(le)
    ensures SortedBy(le, SortBy(le, s))
    ensures multiset(SortBy(le, s)) == multiset(s)
    ensures |SortBy(le, s)| == |s|
    ensures forall x :: x in SortBy(le, s) <==> x in s
  {
    if s != [] {
      SortBySorted(le, s[1..]);
      InsertBySorted(le, s[0], SortBy(le, s[1..]));
      assert s == [s[0]] + s[1..];
    }
    var t := SortBy(le, s);
    assert |multiset(t)| == |multiset(s)|;
    forall x ensures x in t <==> x in s {
      assert x in t <==> x in multiset(t);
      assert x in s <==> x in multiset(s);
    }
  }

  /** Sorting leaves a sorted sequence alone. */
  lemma {:induction false} SortBySame<T(!new)>(le: (T, T) -> bool, s: seq<T>)
    requires SortedBy(le, s)
    ensures SortBy(le, s) == s
  {
    if |s| > 1 {
      SortBySame(le, s[1..]);
      assert le(s[0], s[1]);
      assert s == [s[0]] + s[1..];
    }
  }

  // ---------- Filtering ----------

  /** A list comprehension with a condition. */
  function Filter<T>(s: seq<T>, p: T -> bool): seq<T> {
    if s == [] then []
    else if p(s[|s| - 1]) then Filter(s[..|s| - 1], p) + [s[|s| - 1]]
    else Filter(s[..|s| - 1], p)
  }

  lemma {:induction false} FilterMembers<T(!new)>(s: seq<T>, p: T -> bool)
    ensures forall x :: x in Filter(s, p) <==> x in s && p(x)
    ensures |Filter(s, p)| <= |s|
  {
    if s != [] {
      FilterMembers(s[..|s| - 1], p);
      assert s == s[..|s| - 1] + [s[|s| - 1]];
    }
  }

  lemma {:induction false} FilterSorted<T(!new)>(s: seq<T>, p: T -> bool, le: (T, T) -> bool)
    requires SortedBy(le, s)
    ensures SortedBy(le, Filter(s, p))
  {
    if s != [] {
      var n := |s| - 1;
      var u := s[..n];
      FilterSorted(u, p, le);
      FilterMembers(u, p);
      var f := Filter(u, p);
      forall i | 0 <= i < |f| ensures le(f[i], s[n]) {
        var x := f[i];
        assert x in f && x in u;
        var j :| 0 <= j < |u| && u[j] == x;
        assert le(s[j], s[n]);
      }
    }
  }

  lemma {:induction false} FilterTwice<T>(s: seq<T>, p: T -> bool, q: T -> bool, pq: T -> bool)
    requires forall x :: x in s ==> pq(x) == (p(x) && q(x))
    ensures Filter(Filter(s, p), q) == Filter(s, pq)
  {
    if s != [] {
      var n := |s| - 1;
      assert s[n] in s;
      FilterTwice(s[..n], p, q, pq);
      var t := Filter(s[..n], p);
      assert (t + [s[n]])[..|t|] == t;
    }
  }

  lemma FilterOne<T>(x: T, p: T -> bool)
    ensures Filter([x], p) == if p(x) then [x] else []
  {
    assert [x][..0] == [];
  }

  lemma {:induction false} FilterCong<T>(s: seq<T>, p: T -> bool, q: T -> bool)
    requires forall x :: x in s ==> p(x) == q(x)
    ensures Filter(s, p) == Filter(s, q)
  {
    if s != [] {
      FilterCong(s[..|s| - 1], p, q);
    }
  }

  lemma {:induction false} FilterAppend<T>(s: seq<T>, t: seq<T>, p: T -> bool)
    ensures Filter(s + t, p) == Filter(s, p) + Filter(t, p)
  {
    if t == [] {
      assert s + t == s;
    } else {
      var n := |t| - 1;
      assert (s + t)[..|s + t| - 1] == s + t[..n];
      FilterAppend(s, t[..n], p);
    }
  }

  lemma {:induction false} FilterNone<T>(s: seq<T>, p: T -> bool)
    requires forall x :: x in s ==> !p(x)
    ensures Filter(s, p) == []
  {
    if s != [] {
      FilterNone(s[..|s| - 1], p);
    }
  }

  lemma {:induction false} FilterAll<T>(s: seq<T>, p: T -> bool)
    requires forall x :: x in s ==> p(x)
    ensures Filter(s, p) == s
  {
    if s != [] {
      FilterAll(s[..|s| - 1], p);
    }
  }

  lemma FilterSameIff<T(!new)>(s: seq<T>, p: T -> bool, q: T -> bool)
    ensures Filter(s, p) == Filter(s, q) <==> forall x :: x in s ==> p(x) == q(x)
  {
    FilterMembers(s, p);
    FilterMembers(s, q);
    if forall x :: x in s ==> p(x) == q(x) {
      FilterCong(s, p, q);
    }
    if Filter(s, p) == Filter(s, q) {
      forall x | x in s ensures p(x) == q(x) {
        assert x in Filter(s, p) <==> x in Filter(s, q);
      }
    }
  }

  lemma {:induction false} FilterSum<T>(s: seq<T>, p: T -> bool, f: T -> real, g: T -> real)
    requires forall x :: x in s ==> f(x) == if p(x) then g(x) else 0.0
    ensures SumBy(s, f) == SumBy(Filter(s, p), g)
  {
    if s != [] {
      var n := |s| - 1;
      FilterSum(s[..n], p, f, g);
      var t := Filter(s[..n], p);
      assert s[n] in s;
      if p(s[n]) {
        assert (t + [s[n]])[..|t|] == t;
      }
    }
  }

  lemma {:induction false} SumByPointwise<T>(s: seq<T>, t: seq<T>, f: T -> real)
    requires |s| == |t| && forall i :: 0 <= i < |s| ==> f(s[i]) == f(t[i])
    ensures SumBy(s, f) == SumBy(t, f)
  {
    if s != [] {
      SumByPointwise(s[..|s| - 1], t[..|t| - 1], f);
    }
  }

  /** The elements without repetition, in order of first occurrence. */
  function Distinct<T(==)>(s: seq<T>): seq<T> {
    if s == [] then []
    else
      var d := Distinct(s[..|s| - 1]);
      if s[|s| - 1] in d then d else d + [s[|s| - 1]]
  }

  lemma {:induction false} DistinctMembers<T>(s: seq<T>)
    ensures forall x :: x in Distinct(s) <==> x in s
    ensures forall i, j :: 0 <= i < j < |Distinct(s)| ==> Distinct(s)[i] != Distinct(s)[j]
  {
    if s != [] {
      DistinctMembers(s[..|s| - 1]);
      assert s == s[..|s| - 1] + [s[|s| - 1]];
    }
  }

  // ---------- Text order ----------

  /** Lexicographic order of strings. */
  predicate TextLe(a: string, b: string) {
    if a == "" then true
    else if b == "" then false
    else a[0] < b[0] || (a[0] == b[0] && TextLe(a[1..], b[1..]))
  }

  ghost predicate FirstDifference(a: string, b: string, k: nat) {
    && k <= |a| && k <= |b| && a[..k] == b[..k]
    && (k == |a| || (k < |b| && a[k] < b[k]))
  }

  /** A text comes before another when it is a prefix of it, or less where they first differ. */
  lemma {:induction false} TextReads(a: string, b: string)
    ensures TextLe(a, b) <==> exists k: nat :: FirstDifference(a, b, k)
  {
    if a == "" {
      assert FirstDifference(a, b, 0);
    } else if b != "" && a[0] < b[0] {
      assert FirstDifference(a, b, 0);
    } else if b != "" && a[0] == b[0] {
      TextReads(a[1..], b[1..]);
      forall k: nat ensures k < |a| ==> (FirstDifference(a[1..], b[1..], k) <==> FirstDifference(a, b, k + 1)) {
        if k < |a| && k < |b| {
          assert a[..k + 1] == [a[0]] + a[1..][..k] && b[..k + 1] == [b[0]] + b[1..][..k];
          assert a[1..][..k] == a[..k + 1][1..] && b[1..][..k] == b[..k + 1][1..];
        }
      }
      if TextLe(a, b) {
        var k: nat :| FirstDifference(a[1..], b[1..], k);
        assert FirstDifference(a, b, k + 1);
      }
      if k: nat :| FirstDifference(a, b, k) {
        assert FirstDifference(a[1..], b[1..], k - 1);
      }
    }
  }

  lemma {:induction false} TextTotal(a: string, b: string)
    ensures TextLe(a, b) || TextLe(b, a)
    ensures TextLe(a, b) && TextLe(b, a) ==> a == b
  {
    if a != "" && b != "" {
      TextTotal(a[1..], b[1..]);
      assert a == [a[0]] + a[1..] && b == [b[0]] + b[1..];
    }
  }

  lemma {:induction false} TextTransitive(a: string, b: string, c: string)
    requires TextLe(a, b) && TextLe(b, c)
    ensures TextLe(a, c)
  {
    if a != "" && b != "" && c != "" && a[0] == b[0] == c[0] {
      TextTransitive(a[1..], b[1..], c[1..]);
    }
  }

  lemma TextPreorder()
    ensures TotalPreorder(TextLe)
  {
    forall a: string, b: string ensures TextLe(a, b) || TextLe(b, a) {
      TextTotal(a, b);
    }
    forall a: string, b: string, c: string | TextLe(a, b) && TextLe(b, c) ensures TextLe(a, c) {
      TextTransitive(a, b, c);
    }
  }

  /** Order by a time, then by a name: the key (instant, id) of the Python sorts. */
  predicate KeyLe(s: int, a: string, t: int, b: string) {
    s < t || (s == t && TextLe(a, b))
  }

  lemma KeyOrder(s: int, a: string, t: int, b: string, u: int, c: string)
    ensures KeyLe(s, a, t, b) || KeyLe(t, b, s, a)
    ensures KeyLe(s, a, t, b) && KeyLe(t, b, u, c) ==> KeyLe(s, a, u, c)
  {
    TextTotal(a, b);
    if TextLe(a, b) && TextLe(b, c) {
      TextTransitive(a, b, c);
    }
  }

  // ---------- Distinct keys ----------

  predicate AllDistinct<T(==)>(s: seq<T>) {
    forall i, j :: 0 <= i < j < |s| ==> s[i] != s[j]
  }

  ghost predicate DistinctKeys<T, K>(s: seq<T>, key: T -> K) {
    forall i, j :: 0 <= i < j < |s| ==> key(s[i]) != key(s[j])
  }

  lemma {:induction false} OccursOnce<T, K>(s: seq<T>, key: T -> K, x: T)
    requires DistinctKeys(s, key)
    ensures multiset(s)[x] <= 1
  {
    if s != [] {
      var n := |s| - 1;
      OccursOnce(s[..n], key, x);
      assert s == s[..n] + [s[n]];
      forall i | 0 <= i < n ensures s[i] != s[n] {
        assert key(s[i]) != key(s[n]);
      }
    }
  }

  lemma OccursTwice<T>(s: seq<T>, i: nat, j: nat)
    requires i < j < |s| && s[i] == s[j]
    ensures multiset(s)[s[i]] >= 2
  {
    assert s == s[..j] + [s[j]] + s[j + 1..];
    assert s[i] in s[..j];
  }

  lemma DistinctPermutation<T, K>(s: seq<T>, t: seq<T>, key: T -> K)
    requires DistinctKeys(s, key) && multiset(s) == multiset(t)
    ensures DistinctKeys(t, key)
  {
    forall i, j | 0 <= i < j < |t| ensures key(t[i]) != key(t[j]) {
      assert t[i] in multiset(s) && t[j] in multiset(s);
      if t[i] == t[j] {
        OccursTwice(t, i, j);
        OccursOnce(s, key, t[i]);
        assert false;
      }
      var a :| 0 <= a < |s| && s[a] == t[i];
      var b :| 0 <= b < |s| && s[b] == t[j];
      assert key(s[a]) != key(s[b]);
    }
  }

  lemma {:induction false} DistinctFilter<T(!new), K>(s: seq<T>, p: T -> bool, key: T -> K)
    requires DistinctKeys(s, key)
    ensures DistinctKeys(Filter(s, p), key)
  {
    if s != [] {
      var n := |s| - 1;
      var u := s[..n];
      DistinctFilter(u, p, key);
      FilterMembers(u, p);
      var f := Filter(u, p);
      forall i | 0 <= i < |f| ensures key(f[i]) != key(s[n]) {
        var x := f[i];
        assert x in f && x in u;
        var j :| 0 <= j < |u| && u[j] == x;
        assert key(s[j]) != key(s[n]);
      }
    }
  }

  // ---------- Sorted sets ----------

  predicate IntLe(a: int, b: int) {
    a <= b
  }

  /** A set in order, as Python's sorted over a set. */
  lemma SortedDistinct<T(!new)>(le: (T, T) -> bool, s: seq<T>)
    requires TotalPreorder(le)
    ensures SortedBy(le, SortBy(le, Distinct(s))) && AllDistinct(SortBy(le, Distinct(s)))
    ensures forall x :: x in SortBy(le, Distinct(s)) <==> x in s
  {
    var d := Distinct(s);
    DistinctMembers(s);
    SortBySorted(le, d);
    var same := (x: T) => x;
    assert DistinctKeys(d, same);
    DistinctPermutation(d, SortBy(le, d), same);
    hide SortBy;
    hide Distinct;
    var sorted := SortBy(le, d);
    forall i, j | 0 <= i < j < |sorted| ensures sorted[i] != sorted[j] {
      assert same(sorted[i]) != same(sorted[j]);
    }
  }
}
