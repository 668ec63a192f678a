/** What goes into the calibration fit and what comes out of it: pairs, slices, means, points. */
module IsotonicReading {
  import opened Sequences
  import opened Reals
  import opened Integers
  import opened IsotonicFit
  import opened IsotonicCurve

  // ---------- The pairs ----------

  lemma {:induction false} InsertStable<T(!new)>(le: (T, T) -> bool, x: T, s: seq<T>, p: T -> bool)
    requires p(x) ==> forall y :: p(y) ==> le(x, y)
    ensures Filter(InsertBy(le, x, s), p) == Filter([x], p) + Filter(s, p)
  {
    hide Filter;
    if s == [] {
      NothingFiltered(p);
      assert Filter([x], p) + [] == Filter([x], p);
    } else if le(x, s[0]) {
      FilterAppend([x], s, p);
    } else {
      var rest := s[1..];
      InsertStable(le, x, rest, p);
      assert s == [s[0]] + rest;
      FilterAppend([s[0]], InsertBy(le, x, rest), p);
      FilterAppend([s[0]], rest, p);
      FilterOne(s[0], p);
      FilterOne(x, p);
      assert !(p(x) && p(s[0]));
      assert [] + Filter(s, p) == Filter(s, p) && [] + Filter(rest, p) == Filter(rest, p);
    }
  }

  lemma NothingFiltered<T>(p: T -> bool)
    ensures Filter([], p) == []
  {
  }

  /** Sorting keeps the order of elements that are alike. */
  lemma {:induction false} SortStable<T(!new)>(le: (T, T) -> bool, s: seq<T>, p: T -> bool)
    requires forall x, y :: p(x) && p(y) ==> le(x, y)
    ensures Filter(SortBy(le, s), p) == Filter(s, p)
  {
    if s != [] {
      SortStable(le, s[1..], p);
      InsertStable(le, s[0], SortBy(le, s[1..]), p);
      assert s == [s[0]] + s[1..];
      FilterAppend([s[0]], s[1..], p);
    }
  }

  function Prediction(): Pair -> real {
    (p: Pair) => p.0
  }

  function OutcomeOf(): Pair -> real {
    (p: Pair) => p.1
  }

  function OfPrediction(x: real): Pair -> bool {
    (p: Pair) => p.0 == x
  }

  /** The pairs that are fitted: each prediction with its outcome, as far as both go, by increasing prediction, and
      those of one prediction in their order. */
  lemma PairsRead(predictions: seq<real>, outcomes: seq<real>)
    ensures var sorted := SortBy(ByPrediction(), Zip(predictions, outcomes));
            var n := if |outcomes| < |predictions| then |outcomes| else |predictions|;
            var pairs := seq(n, i requires 0 <= i < n => (predictions[i], outcomes[i]));
            && multiset(sorted) == multiset(pairs)
            && (forall i, j :: 0 <= i < j < |sorted| ==> sorted[i].0 <= sorted[j].0)
            && forall x: real :: Filter(sorted, OfPrediction(x)) == Filter(pairs, OfPrediction(x))
  {
    var le := ByPrediction();
    var n := if |outcomes| < |predictions| then |outcomes| else |predictions|;
    var pairs := seq(n, i requires 0 <= i < n => (predictions[i], outcomes[i]));
    assert Zip(predictions, outcomes) == pairs;
    SortBySorted(le, pairs);
    var sorted := SortBy(le, pairs);
    forall i, j | 0 <= i < j < |sorted| ensures sorted[i].0 <= sorted[j].0 {
      assert le(sorted[i], sorted[j]);
    }
    forall x: real ensures Filter(sorted, OfPrediction(x)) == Filter(pairs, OfPrediction(x)) {
      SortStable(le, pairs, OfPrediction(x));
    }
    hide SortBy;
    hide Filter;
  }

  // ---------- The slices ----------

  lemma {:induction false} SumOfFirsts(pairs: seq<Pair>)
    ensures Sum(Firsts(pairs)) == SumBy(pairs, Prediction())
    ensures Sum(Seconds(pairs)) == SumBy(pairs, OutcomeOf())
  {
    if pairs != [] {
      var n := |pairs| - 1;
      SumOfFirsts(pairs[..n]);
      assert Firsts(pairs)[..n] == Firsts(pairs[..n]) && Seconds(pairs)[..n] == Seconds(pairs[..n]);
    }
  }

  /** A mean of n numbers with this total. */
  ghost predicate IsMean(mean: real, n: nat, total: real) {
    mean * n as real == total
  }

  lemma BucketReads(pairs: seq<Pair>)
    requires pairs != []
    ensures Bucket(pairs).weight == 1
    ensures IsMean(Bucket(pairs).x, |pairs|, SumBy(pairs, Prediction()))
    ensures IsMean(Bucket(pairs).y, |pairs|, SumBy(pairs, OutcomeOf()))
  {
    SumOfFirsts(pairs);
    MeanTimes(Firsts(pairs));
    MeanTimes(Seconds(pairs));
    hide Sum;
    hide SumBy;
    hide Mean;
    hide IsMean;
  }

  lemma MeanTimes(s: seq<real>)
    requires s != []
    ensures IsMean(Mean(s), |s|, Sum(s))
  {
    DivTimes(Sum(s), |s| as real);
  }

  /** The pairs from an index on, `size` of them or what is left. */
  function Slice(pairs: seq<Pair>, size: nat, from: nat): seq<Pair>
    requires from <= |pairs|
  {
    if from + size <= |pairs| then pairs[from..from + size] else pairs[from..]
  }

  lemma {:induction false} SlicesRead(pairs: seq<Pair>, size: nat, k: nat, from: nat)
    requires size > 0 && k < |InitialPools(pairs, size)| && from == k * size
    ensures from < |pairs| && InitialPools(pairs, size)[k] == Bucket(Slice(pairs, size, from))
    decreases |pairs|
  {
    hide Bucket;
    if k == 0 {
      assert from == 0;
      assert Slice(pairs, size, 0) == if |pairs| <= size then pairs else pairs[..size];
    } else {
      var rest := pairs[size..];
      assert from - size == (k - 1) * size;
      MulLe(1, k, size);
      SlicesRead(rest, size, k - 1, from - size);
      assert Slice(rest, size, from - size) == Slice(pairs, size, from);
    }
  }

  /** The k-th bucket counts once, with the mean prediction and the mean outcome of its slice. */
  lemma PoolsRead(pairs: seq<Pair>, size: nat, k: nat)
    requires size > 0 && k < |InitialPools(pairs, size)|
    ensures k * size < |pairs|
    ensures var pool, slice := InitialPools(pairs, size)[k], Slice(pairs, size, k * size);
            && pool.weight == 1 && slice != [] && IsMean(pool.x, |slice|, SumBy(slice, Prediction()))
            && IsMean(pool.y, |slice|, SumBy(slice, OutcomeOf()))
  {
    SlicesRead(pairs, size, k, k * size);
    var slice := Slice(pairs, size, k * size);
    BucketReads(slice);
    hide *;
  }

  // ---------- The points ----------

  /** The curve goes from (0, 0) through the means of the pools to (1, 1): predictions across, outcomes up. */
  lemma PointsRead(pools: seq<Pool>)
    ensures |Curve(pools)| == |pools| + 2
    ensures Curve(pools)[0] == (0.0, 0.0) && Curve(pools)[|pools| + 1] == (1.0, 1.0)
    ensures forall i :: 0 <= i < |pools| ==> Curve(pools)[i + 1].0 == pools[i].x && Curve(pools)[i + 1].1 == pools[i].y
  {
  }
}
