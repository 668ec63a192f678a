/** From predictions and outcomes to the points of the calibration curve. */
module IsotonicCurve {
  import opened Sequences
  import opened Reals
  import opened Integers
  import opened IsotonicFit

  type Pair = (real, real)

  /** Python's zip stops at the shorter list. */
  function Zip(a: seq<real>, b: seq<real>): seq<Pair> {
    var n := if |a| < |b| then |a| else |b|;
    seq(n, i requires 0 <= i < n => (a[i], b[i]))
  }

  function ByPrediction(): (Pair, Pair) -> bool {
    (a: Pair, b: Pair) => a.0 <= b.0
  }

  function Firsts(pairs: seq<Pair>): seq<real> {
    seq(|pairs|, i requires 0 <= i < |pairs| => pairs[i].0)
  }

  function Seconds(pairs: seq<Pair>): seq<real> {
    seq(|pairs|, i requires 0 <= i < |pairs| => pairs[i].1)
  }

  function Mean(s: seq<real>): real
    requires s != []
  {
    Sum(s) / |s| as real
  }

  function Bucket(pairs: seq<Pair>): Pool
    requires pairs != []
  {
    Pool(Mean(Firsts(pairs)), Mean(Seconds(pairs)), 1)
  }

  /** Consecutive slices of `size` sorted pairs; the last one may be shorter. */
  function InitialPools(pairs: seq<Pair>, size: nat): seq<Pool>
    requires size > 0
  {
    if pairs == [] then []
    else if |pairs| <= size then [Bucket(pairs)]
    else [Bucket(pairs[..size])] + InitialPools(pairs[size..], size)
  }

  function CeilDiv(a: nat, b: nat): nat
    requires b > 0
  {
    (a + b - 1) / b
  }

  function BucketCount(n: nat): nat {
    if n / 5 < 10 then n / 5 else 10
  }

  function BucketSize(n: nat): nat
    requires BucketCount(n) >= 2
  {
    CeilDiv(n, BucketCount(n))
  }

  /** One bucket for every full five pairs, and ten from fifty pairs on; as many pairs to a bucket as cover all. */
  lemma BucketsOfFive(n: nat)
    ensures n >= 50 ==> BucketCount(n) == 10
    ensures n < 50 ==> 5 * BucketCount(n) <= n < 5 * (BucketCount(n) + 1)
    ensures n >= 10 ==> (BucketSize(n) - 1) * BucketCount(n) < n <= BucketSize(n) * BucketCount(n)
  {
    if n >= 10 {
      CeilCovers(n, BucketCount(n));
    }
  }

  lemma CeilCovers(a: nat, b: nat)
    requires b > 0
    ensures (CeilDiv(a, b) - 1) * b < a <= CeilDiv(a, b) * b
  {
    var q, r := (a + b - 1) / b, (a + b - 1) % b;
    assert a + b - 1 == b * q + r && 0 <= r < b;
    assert (q - 1) * b == b * q - b;
  }

  lemma BucketSizePositive(n: nat)
    requires BucketCount(n) >= 2
    ensures BucketSize(n) > 0
  {
  }

  function Curve(pools: seq<Pool>): seq<Pair> {
    [(0.0, 0.0)] + seq(|pools|, i requires 0 <= i < |pools| => (pools[i].x, pools[i].y)) + [(1.0, 1.0)]
  }

  // ---------- Shape of the buckets and of the curve ----------

  ghost predicate SortedPairs(pairs: seq<Pair>) {
    forall i, j :: 0 <= i < j < |pairs| ==> pairs[i].0 <= pairs[j].0
  }

  ghost predicate UnitPairs(pairs: seq<Pair>) {
    forall p :: p in pairs ==> 0.0 <= p.0 <= 1.0 && 0.0 <= p.1 <= 1.0
  }

  /** Starts at (0,0), ends at (1,1), and never goes down or back. */
  ghost predicate CalibrationCurve(points: seq<Pair>) {
    && |points| >= 2
    && points[0] == (0.0, 0.0) && points[|points| - 1] == (1.0, 1.0)
    && forall i, j :: 0 <= i < j < |points| ==> points[i].0 <= points[j].0 && points[i].1 <= points[j].1
  }

  lemma {:induction false} SumBounds(s: seq<real>, lo: real, hi: real)
    requires forall v :: v in s ==> lo <= v <= hi
    ensures Times(lo, |s|) <= Sum(s) <= Times(hi, |s|)
  {
    if s != [] {
      var n := |s| - 1;
      assert forall v :: v in s[..n] ==> v in s;
      assert s[n] in s;
      SumBounds(s[..n], lo, hi);
    }
  }

  lemma MeanBounds(s: seq<real>, lo: real, hi: real)
    requires s != [] && forall v :: v in s ==> lo <= v <= hi
    ensures lo <= Mean(s) <= hi
  {
    SumBounds(s, lo, hi);
    TimesOfQuotient(Sum(s), |s|);
    TimesCancel(lo, Mean(s), |s|);
    TimesCancel(Mean(s), hi, |s|);
  }

  lemma BucketBounds(pairs: seq<Pair>)
    requires pairs != [] && SortedPairs(pairs)
    ensures Bucket(pairs).weight == 1
    ensures pairs[0].0 <= Bucket(pairs).x <= pairs[|pairs| - 1].0
    ensures UnitPairs(pairs) ==> 0.0 <= Bucket(pairs).x <= 1.0 && 0.0 <= Bucket(pairs).y <= 1.0
  {
    var f, g := Firsts(pairs), Seconds(pairs);
    forall v | v in f ensures pairs[0].0 <= v <= pairs[|pairs| - 1].0 {
      var i :| 0 <= i < |f| && f[i] == v;
    }
    MeanBounds(f, pairs[0].0, pairs[|pairs| - 1].0);
    if UnitPairs(pairs) {
      forall v | v in g ensures 0.0 <= v <= 1.0 {
        var i :| 0 <= i < |g| && g[i] == v;
        assert pairs[i] in pairs;
      }
      MeanBounds(g, 0.0, 1.0);
      assert pairs[0] in pairs && pairs[|pairs| - 1] in pairs;
    }
  }

  lemma ConsShape(p: Pool, ps: seq<Pool>)
    requires p.weight == 1 && UnitWeights(ps) && Ordered(ps) && forall q :: q in ps ==> p.x <= q.x
    ensures UnitWeights([p] + ps) && Ordered([p] + ps)
    ensures 0.0 <= p.x <= 1.0 && 0.0 <= p.y <= 1.0 && InUnitSquare(ps) ==> InUnitSquare([p] + ps)
  {
  }

  lemma {:induction false} InitialPoolsShape(pairs: seq<Pair>, size: nat)
    requires size > 0 && SortedPairs(pairs)
    ensures UnitWeights(InitialPools(pairs, size)) && Ordered(InitialPools(pairs, size))
    ensures forall p :: p in InitialPools(pairs, size) ==> pairs != [] && pairs[0].0 <= p.x
    ensures UnitPairs(pairs) ==> InUnitSquare(InitialPools(pairs, size))
    decreases |pairs|
  {
    hide Bucket;
    if pairs == [] {
    } else if |pairs| <= size {
      BucketBounds(pairs);
    } else {
      var first, rest := pairs[..size], pairs[size..];
      BucketBounds(first);
      InitialPoolsShape(rest, size);
      assert first[0] == pairs[0] && first[size - 1].0 <= rest[0].0;
      ConsShape(Bucket(first), InitialPools(rest, size));
      assert UnitPairs(pairs) ==> UnitPairs(first) && UnitPairs(rest);
    }
  }

  /** The list of pools has one entry for every started slice. */
  lemma {:induction false} InitialPoolCount(pairs: seq<Pair>, size: nat)
    requires size > 0
    ensures |InitialPools(pairs, size)| == CeilDiv(|pairs|, size)
    decreases |pairs|
  {
    if |pairs| > size {
      InitialPoolCount(pairs[size..], size);
      CeilDivStep(|pairs|, size);
    } else if pairs != [] {
      CeilDivSmall(|pairs|, size);
    } else {
      CeilDivBounds(0, size);
    }
  }

  lemma CeilDivBounds(a: nat, b: nat)
    requires b > 0
    ensures (CeilDiv(a, b) - 1) * b < a || a == 0
    ensures a <= CeilDiv(a, b) * b < a + b
    ensures a == 0 ==> CeilDiv(a, b) == 0
  {
    var q := (a + b - 1) / b;
    assert a + b - 1 == q * b + (a + b - 1) % b;
    if a == 0 {
      assert q * b <= b - 1;
      SmallQuotient(q, b);
    }
  }

  lemma SmallQuotient(q: nat, b: nat)
    requires b > 0 && q * b < b
    ensures q == 0
  {
    if q > 0 {
      MulAtLeast(q, b);
      assert false;
    }
  }

  lemma CeilDivUnique(a: nat, b: nat, q: nat)
    requires b > 0 && a <= q * b < a + b
    ensures CeilDiv(a, b) == q
  {
    var p := CeilDiv(a, b);
    CeilDivBounds(a, b);
    Close(p, q, a, b);
  }

  lemma Close(p: nat, q: nat, a: nat, b: nat)
    requires b > 0 && a <= p * b < a + b && a <= q * b < a + b
    ensures p == q
  {
    if p < q {
      MulGap(p, q, b);
      assert false;
    }
    if q < p {
      MulGap(q, p, b);
      assert false;
    }
  }

  lemma CeilDivSmall(a: nat, b: nat)
    requires 0 < a <= b
    ensures CeilDiv(a, b) == 1
  {
    CeilDivUnique(a, b, 1);
  }

  lemma CeilDivStep(a: nat, b: nat)
    requires 0 < b < a
    ensures CeilDiv(a, b) == 1 + CeilDiv(a - b, b)
  {
    CeilDivBounds(a - b, b);
    var q := CeilDiv(a - b, b);
    assert (1 + q) * b == b + q * b;
    CeilDivUnique(a, b, 1 + q);
  }

  /** The slices never exceed the requested bucket count, and reach it exactly when
      all full slices but one leave some pairs over. */
  lemma BucketCountReached(n: nat)
    requires BucketCount(n) >= 2
    ensures BucketSize(n) > 0
    ensures CeilDiv(n, BucketSize(n)) <= BucketCount(n)
    ensures CeilDiv(n, BucketSize(n)) == BucketCount(n) <==> (BucketCount(n) - 1) * BucketSize(n) < n
  {
    BucketSizePositive(n);
    CeilDivBounds(n, BucketCount(n));
    CountCore(n, BucketCount(n), BucketSize(n));
  }

  lemma CountCore(n: nat, b: nat, size: nat)
    requires n > 0 && b > 0 && size > 0 && n <= size * b
    ensures CeilDiv(n, size) <= b
    ensures CeilDiv(n, size) == b <==> (b - 1) * size < n
  {
    var q := CeilDiv(n, size);
    CeilDivBounds(n, size);
    if q > b {
      MulLe(b, q - 1, size);
      assert false;
    }
    if q < b {
      MulLe(q, b - 1, size);
    }
  }

  /** With 51 observations ten buckets are requested but only nine exist. */
  lemma FewerPoolsThanBuckets(pairs: seq<Pair>)
    requires |pairs| == 51
    ensures BucketCount(51) == 10 && BucketSize(51) > 0
    ensures |InitialPools(pairs, BucketSize(51))| == 9
  {
    assert BucketSize(51) == 6;
    InitialPoolCount(pairs, 6);
  }

  // ---------- The fit ----------

  lemma SortedByIsSortedPairs(pairs: seq<Pair>)
    ensures var sorted := SortBy(ByPrediction(), pairs);
            SortedPairs(sorted) && |sorted| == |pairs| && (UnitPairs(pairs) ==> UnitPairs(sorted))
  {
    var le := ByPrediction();
    SortBySorted(le, pairs);
    var sorted := SortBy(le, pairs);
    assert forall i, j :: 0 <= i < j < |sorted| ==> le(sorted[i], sorted[j]);
  }

  lemma CurveIsCalibration(pools: seq<Pool>)
    requires Ordered(pools) && InUnitSquare(pools)
    requires forall i, j :: 0 <= i < j < |pools| ==> pools[i].y <= pools[j].y
    ensures CalibrationCurve(Curve(pools))
  {
    var c, n := Curve(pools), |pools|;
    assert forall k :: 0 < k <= n ==> c[k] == (pools[k - 1].x, pools[k - 1].y) && pools[k - 1] in pools;
    assert c[n + 1] == (1.0, 1.0);
    forall i, j | 0 <= i < j < |c| ensures c[i].0 <= c[j].0 && c[i].1 <= c[j].1 {
      if 0 < i && j <= n {
        assert pools[i - 1].y <= pools[j - 1].y;
      }
    }
  }

  /** The slicing loop. */
  method BuildPools(pairs: seq<Pair>, size: nat) returns (initial: seq<Pool>)
    requires size > 0
    ensures initial == InitialPools(pairs, size)
  {
    initial := [];
    var start := 0;
    while start < |pairs|
      invariant 0 <= start <= |pairs|
      invariant initial + InitialPools(pairs[start..], size) == InitialPools(pairs, size)
    {
      var end := if start + size < |pairs| then start + size else |pairs|;
      assert pairs[start..end] == if |pairs[start..]| <= size then pairs[start..] else pairs[start..][..size];
      assert pairs[start..][end - start..] == pairs[end..];
      initial := initial + [Bucket(pairs[start..end])];
      start := end;
    }
  }

  /** The calibration fit. `pools` is the list the loop ends with. */
  method FitIsotonic(predictions: seq<real>, outcomes: seq<real>) returns (points: seq<Pair>, ghost pools: seq<Pool>)
    ensures var sorted := SortBy(ByPrediction(), Zip(predictions, outcomes));
            if BucketCount(|sorted|) < 2 then
              points == [(0.0, 0.0), (1.0, 1.0)]
            else
              && BucketSize(|sorted|) > 0
              && IsFit(InitialPools(sorted, BucketSize(|sorted|)), pools)
              && points == Curve(pools)
    ensures UnitPairs(Zip(predictions, outcomes)) ==> CalibrationCurve(points)
  {
    var pairs := Zip(predictions, outcomes);
    SortedByIsSortedPairs(pairs);
    pairs := SortBy(ByPrediction(), pairs);
    pools := [];
    var buckets := BucketCount(|pairs|);
    if buckets < 2 {
      return [(0.0, 0.0), (1.0, 1.0)], pools;
    }
    BucketSizePositive(|pairs|);
    var size := CeilDiv(|pairs|, buckets);
    var initial := BuildPools(pairs, size);
    InitialPoolsShape(pairs, size);
    var merged := PoolAdjacent(initial);
    if UnitPairs(pairs) {
      CurveIsCalibration(merged);
    }
    return Curve(merged), merged;
  }
}
