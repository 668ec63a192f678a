/** The pool-adjacent-violators fit of the probability calibration. */
module IsotonicFit {
  import opened Sequences
  import opened Reals

  /** A list entry of the fit: mean prediction, mean outcome, number of merged buckets. */
  datatype Pool = Pool(x: real, y: real, weight: nat)

  ghost predicate NonDecreasing(s: seq<real>) {
    forall i, j :: 0 <= i < j < |s| ==> s[i] <= s[j]
  }

  predicate Violation(pools: seq<Pool>, i: nat) {
    i + 1 < |pools| && pools[i].y > pools[i + 1].y
  }

  // ---------- What a list of pools says about the initial buckets ----------

  /** The pool is the mean of its buckets, and no prefix of them has a smaller mean outcome. */
  ghost predicate PoolOf(p: Pool, xs: seq<real>, ys: seq<real>) {
    && |xs| == |ys| == p.weight > 0
    && Sum(xs) == Times(p.x, p.weight)
    && Sum(ys) == Times(p.y, p.weight)
    && forall n: nat :: n <= |ys| ==> Sum(ys[..n]) >= Times(p.y, n)
  }

  /** The pools partition the buckets, in order, into consecutive blocks. */
  ghost predicate Partition(pools: seq<Pool>, xs: seq<real>, ys: seq<real>) {
    if pools == [] then xs == ys == []
    else
      var w := pools[0].weight;
      && w <= |xs| && w <= |ys|
      && PoolOf(pools[0], xs[..w], ys[..w])
      && Partition(pools[1..], xs[w..], ys[w..])
  }

  /** The step function: each bucket gets the value of the pool that holds it. */
  function Fitted(pools: seq<Pool>): seq<real> {
    if pools == [] then []
    else seq(pools[0].weight, _ => pools[0].y) + Fitted(pools[1..])
  }

  function SquaredError(a: seq<real>, b: seq<real>): real
    requires |a| == |b|
  {
    if a == [] then 0.0
    else
      var n := |a| - 1;
      SquaredError(a[..n], b[..n]) + (a[n] - b[n]) * (a[n] - b[n])
  }

  /** Inner product of the residual y - f with f - z. */
  ghost function Cross(y: seq<real>, f: seq<real>, z: seq<real>): real
    requires |y| == |f| == |z|
  {
    if y == [] then 0.0
    else
      var n := |y| - 1;
      Cross(y[..n], f[..n], z[..n]) + Mul(y[n] - f[n], f[n] - z[n])
  }

  lemma {:induction false} CrossAppend(y: seq<real>, f: seq<real>, z: seq<real>, w: nat)
    requires |y| == |f| == |z| && w <= |y|
    ensures Cross(y, f, z) == Cross(y[..w], f[..w], z[..w]) + Cross(y[w..], f[w..], z[w..])
    decreases |y|
  {
    hide Mul;
    if w == |y| {
      assert y[..w] == y && f[..w] == f && z[..w] == z;
    } else {
      var n := |y| - 1;
      CrossAppend(y[..n], f[..n], z[..n], w);
      assert y[..n][..w] == y[..w] && f[..n][..w] == f[..w] && z[..n][..w] == z[..w];
      assert y[w..][..n - w] == y[..n][w..] && f[w..][..n - w] == f[..n][w..] && z[w..][..n - w] == z[..n][w..];
    }
  }

  lemma {:induction false} Pythagoras(y: seq<real>, f: seq<real>, z: seq<real>)
    requires |y| == |f| == |z|
    ensures SquaredError(y, z) == SquaredError(y, f) + 2.0 * Cross(y, f, z) + SquaredError(f, z)
  {
    if y != [] {
      var n := |y| - 1;
      Pythagoras(y[..n], f[..n], z[..n]);
      var a, b := y[n] - f[n], f[n] - z[n];
      assert y[n] - z[n] == a + b;
      SquareOfSum(a, b);
    }
  }

  lemma {:induction false} SquaredErrorNonNegative(a: seq<real>, b: seq<real>)
    requires |a| == |b|
    ensures SquaredError(a, b) >= 0.0
    ensures SquaredError(a, b) == 0.0 ==> a == b
  {
    if a != [] {
      var n := |a| - 1;
      SquaredErrorNonNegative(a[..n], b[..n]);
      var d := a[n] - b[n];
      Square(d);
      if SquaredError(a, b) == 0.0 {
        ZeroSquare(d, d * d);
        assert a == a[..n] + [a[n]] && b == b[..n] + [b[n]];
      }
    }
  }

  lemma CrossStep(y: seq<real>, f: seq<real>, z: seq<real>, m: nat) returns (d: real, g: real)
    requires |y| == |f| == |z| && m < |y|
    ensures d == y[m] - f[m] && g == f[m] - z[m]
    ensures Cross(y[..m + 1], f[..m + 1], z[..m + 1]) == Cross(y[..m], f[..m], z[..m]) + Mul(d, g)
  {
    hide Mul;
    assert y[..m + 1][..m] == y[..m] && f[..m + 1][..m] == f[..m] && z[..m + 1][..m] == z[..m];
    d, g := y[m] - f[m], f[m] - z[m];
  }

  lemma PartsStep(x: real, s: real, d: real, a: real, b: real)
    requires x >= Mul(s, a) && s >= 0.0 && a >= b
    ensures x + Mul(d, b) >= Mul(s + d, b)
  {
    ScaleLe(s, b, a);
    Distribute(s, d, b);
  }

  // Summation by parts over the first n buckets of one pool.
  lemma {:induction false} PrefixBound(y: seq<real>, f: seq<real>, z: seq<real>, c: real, n: nat)
    returns (slack: real, gap: real)
    requires |y| == |f| == |z| && 0 < n <= |y| && NonDecreasing(z)
    requires forall v :: v in f ==> v == c
    requires forall k: nat :: k <= |y| ==> Sum(y[..k]) >= Times(c, k)
    ensures slack == Sum(y[..n]) - Times(c, n) && gap == c - z[n - 1]
    ensures Cross(y[..n], f[..n], z[..n]) >= Mul(slack, gap)
  {
    hide Mul;
    var m := n - 1;
    SumTake(y, m);
    var d, g := CrossStep(y, f, z, m);
    assert f[m] in f && f[m] == c;
    if m == 0 {
      assert y[..0] == [] && f[..0] == [] && z[..0] == [] && Times(c, 1) == c;
      slack, gap := d, g;
    } else {
      var s, a := PrefixBound(y, f, z, c, m);
      assert z[m - 1] <= z[m];
      PartsStep(Cross(y[..m], f[..m], z[..m]), s, d, a, g);
      slack, gap := s + d, g;
    }
  }

  lemma ZeroTimes(a: real, b: real)
    requires a == 0.0
    ensures Mul(a, b) == 0.0
  {
  }

  /** Inside one pool the residual never points towards a monotone assignment. */
  lemma PoolCross(p: Pool, xs: seq<real>, ys: seq<real>, f: seq<real>, z: seq<real>)
    requires PoolOf(p, xs, ys) && |z| == |ys| == |f| && NonDecreasing(z)
    requires forall v :: v in f ==> v == p.y
    ensures Cross(ys, f, z) >= 0.0
  {
    hide Mul;
    var n := |ys|;
    var slack, gap := PrefixBound(ys, f, z, p.y, n);
    assert ys[..n] == ys && f[..n] == f && z[..n] == z;
    ZeroTimes(slack, gap);
  }

  lemma {:induction false} FittedLength(pools: seq<Pool>, xs: seq<real>, ys: seq<real>)
    requires Partition(pools, xs, ys)
    ensures |Fitted(pools)| == |ys| == |xs|
  {
    if pools != [] {
      var w := pools[0].weight;
      FittedLength(pools[1..], xs[w..], ys[w..]);
    }
  }

  lemma {:induction false} PartitionCross(pools: seq<Pool>, xs: seq<real>, ys: seq<real>, z: seq<real>)
    requires Partition(pools, xs, ys) && |z| == |ys| && NonDecreasing(z)
    requires |Fitted(pools)| == |ys|
    ensures Cross(ys, Fitted(pools), z) >= 0.0
  {
    hide Mul;
    if pools != [] {
      var w := pools[0].weight;
      FittedLength(pools[1..], xs[w..], ys[w..]);
      var f := seq(w, _ => pools[0].y);
      PoolCross(pools[0], xs[..w], ys[..w], f, z[..w]);
      PartitionCross(pools[1..], xs[w..], ys[w..], z[w..]);
      CrossAppend(ys, Fitted(pools), z, w);
      assert Fitted(pools)[..w] == f;
      assert Fitted(pools)[w..] == Fitted(pools[1..]);
    }
  }

  /** Any partition into pools with the prefix property is at least as close to the outcomes as any
      monotone assignment, and the distance between the two is accounted for. */
  lemma LeastSquares(pools: seq<Pool>, xs: seq<real>, ys: seq<real>, z: seq<real>)
    requires Partition(pools, xs, ys) && |z| == |ys| && NonDecreasing(z)
    ensures |Fitted(pools)| == |ys|
    ensures SquaredError(ys, Fitted(pools)) + SquaredError(Fitted(pools), z) <= SquaredError(ys, z)
  {
    FittedLength(pools, xs, ys);
    PartitionCross(pools, xs, ys, z);
    Pythagoras(ys, Fitted(pools), z);
  }

  // ---------- The merge step ----------

  function WeightedMean(a: real, m: nat, b: real, n: nat): real
    requires m + n > 0
  {
    (a * m as real + b * n as real) / (m + n) as real
  }

  function Merged(a: Pool, b: Pool): Pool
    requires a.weight + b.weight > 0
  {
    Pool(WeightedMean(a.x, a.weight, b.x, b.weight), WeightedMean(a.y, a.weight, b.y, b.weight), a.weight + b.weight)
  }

  lemma QuotientOfSum(a: real, m: nat, b: real, n: nat)
    requires m + n > 0
    ensures Times(WeightedMean(a, m, b, n), m + n) == Times(a, m) + Times(b, n)
  {
    TimesIsProduct(a, m);
    TimesIsProduct(b, n);
    TimesOfQuotient(a * m as real + b * n as real, m + n);
  }

  lemma MergedMeans(a: Pool, b: Pool)
    requires a.weight > 0 && b.weight > 0
    ensures Times(Merged(a, b).x, a.weight + b.weight) == Times(a.x, a.weight) + Times(b.x, b.weight)
    ensures Times(Merged(a, b).y, a.weight + b.weight) == Times(a.y, a.weight) + Times(b.y, b.weight)
  {
    hide WeightedMean;
    QuotientOfSum(a.x, a.weight, b.x, b.weight);
    QuotientOfSum(a.y, a.weight, b.y, b.weight);
  }

  lemma MeanBetween(a: real, wa: nat, b: real, wb: nat, m: real, lo: real, hi: real)
    requires wa > 0 && wb > 0 && Times(m, wa + wb) == Times(a, wa) + Times(b, wb)
    requires lo <= a <= hi && lo <= b <= hi
    ensures lo <= m <= hi
  {
    TimesIsProduct(a, wa);
    TimesIsProduct(b, wb);
    TimesIsProduct(m, wa + wb);
    WeightedBetween(a, wa as real, b, wb as real, m, lo, hi);
  }

  // A prefix of the merged pool is a prefix of the first, or all of the first and a prefix of the second.
  lemma TailPrefix(ya: real, wa: nat, yb: real, wb: nat, m: real, p: nat)
    requires Times(m, wa + wb) == Times(ya, wa) + Times(yb, wb) && yb <= m && p <= wb
    ensures Times(ya, wa) + Times(yb, p) >= Times(m, wa + p)
  {
    TimesAdd(m, wa, wb);
    TimesAdd(m, wa, p);
    TimesAdd(m, p, wb - p);
    TimesAdd(yb, p, wb - p);
    TimesLe(yb, m, wb - p);
  }

  lemma MergePoolOf(a: Pool, b: Pool, xa: seq<real>, ya: seq<real>, xb: seq<real>, yb: seq<real>)
    requires PoolOf(a, xa, ya) && PoolOf(b, xb, yb) && a.y > b.y
    ensures PoolOf(Merged(a, b), xa + xb, ya + yb)
  {
    var m := Merged(a, b);
    MergedMeans(a, b);
    SumAppend(xa, xb);
    SumAppend(ya, yb);
    MeanBetween(a.y, a.weight, b.y, b.weight, m.y, b.y, a.y);
    forall n: nat | n <= |ya + yb| ensures Sum((ya + yb)[..n]) >= Times(m.y, n) {
      if n <= |ya| {
        assert (ya + yb)[..n] == ya[..n];
        TimesLe(m.y, a.y, n);
      } else {
        var p := n - |ya|;
        assert (ya + yb)[..n] == ya + yb[..p];
        SumAppend(ya, yb[..p]);
        TailPrefix(a.y, a.weight, b.y, b.weight, m.y, p);
      }
    }
  }

  function MergeAt(pools: seq<Pool>, i: nat): seq<Pool>
    requires i + 1 < |pools| && pools[i].weight + pools[i + 1].weight > 0
  {
    pools[..i] + [Merged(pools[i], pools[i + 1])] + pools[i + 2..]
  }

  lemma {:induction false} PartitionWeights(pools: seq<Pool>, xs: seq<real>, ys: seq<real>)
    requires Partition(pools, xs, ys)
    ensures forall p :: p in pools ==> p.weight > 0
  {
    if pools != [] {
      var w := pools[0].weight;
      PartitionWeights(pools[1..], xs[w..], ys[w..]);
      assert pools == [pools[0]] + pools[1..];
    }
  }

  lemma {:induction false} MergeKeepsPartition(pools: seq<Pool>, i: nat, xs: seq<real>, ys: seq<real>)
    requires Partition(pools, xs, ys) && Violation(pools, i)
    ensures pools[i].weight + pools[i + 1].weight > 0
    ensures Partition(MergeAt(pools, i), xs, ys)
    decreases i
  {
    hide PoolOf;
    PartitionWeights(pools, xs, ys);
    hide Merged;
    var w := pools[0].weight;
    var merged := MergeAt(pools, i);
    if i == 0 {
      MergeFirst(pools, xs, ys);
    } else {
      assert pools[1..][i - 1] == pools[i] && pools[1..][i] == pools[i + 1];
      MergeKeepsPartition(pools[1..], i - 1, xs[w..], ys[w..]);
      assert merged[0] == pools[0];
      assert merged[1..] == MergeAt(pools[1..], i - 1);
    }
  }

  lemma MergeFirst(pools: seq<Pool>, xs: seq<real>, ys: seq<real>)
    requires Partition(pools, xs, ys) && Violation(pools, 0)
    ensures pools[0].weight + pools[1].weight > 0
    ensures Partition(MergeAt(pools, 0), xs, ys)
  {
    hide PoolOf;
    PartitionWeights(pools, xs, ys);
    hide Merged;
    var w, v := pools[0].weight, pools[1].weight;
    var merged := MergeAt(pools, 0);
    assert Partition(pools[1..], xs[w..], ys[w..]);
    assert pools[1..][0] == pools[1] && pools[1..][1..] == pools[2..];
    MergePoolOf(pools[0], pools[1], xs[..w], ys[..w], xs[w..][..v], ys[w..][..v]);
    assert xs[..w] + xs[w..][..v] == xs[..w + v] && ys[..w] + ys[w..][..v] == ys[..w + v];
    assert xs[w..][v..] == xs[w + v..] && ys[w..][v..] == ys[w + v..];
    assert merged[0] == Merged(pools[0], pools[1]) && merged[1..] == pools[2..];
  }

  // ---------- The predictions stay ordered and inside the unit square ----------

  ghost predicate Ordered(pools: seq<Pool>) {
    forall i, j :: 0 <= i < j < |pools| ==> pools[i].x <= pools[j].x
  }

  ghost predicate InUnitSquare(pools: seq<Pool>) {
    forall p :: p in pools ==> 0.0 <= p.x <= 1.0 && 0.0 <= p.y <= 1.0
  }

  lemma MergeKeepsShape(pools: seq<Pool>, i: nat)
    requires i + 1 < |pools| && pools[i].weight > 0 && pools[i + 1].weight > 0
    ensures Ordered(pools) ==> Ordered(MergeAt(pools, i))
    ensures InUnitSquare(pools) ==> InUnitSquare(MergeAt(pools, i))
  {
    var a, b, m := pools[i], pools[i + 1], Merged(pools[i], pools[i + 1]);
    var merged := MergeAt(pools, i);
    MergedMeans(a, b);
    if Ordered(pools) {
      MeanBetween(a.x, a.weight, b.x, b.weight, m.x, a.x, b.x);
      forall j, k | 0 <= j < k < |merged| ensures merged[j].x <= merged[k].x {
        assert j != i ==> merged[j] == pools[if j < i then j else j + 1];
        assert k != i ==> merged[k] == pools[if k < i then k else k + 1];
      }
    }
    if InUnitSquare(pools) {
      MeanBetween(a.x, a.weight, b.x, b.weight, m.x, 0.0, 1.0);
      MeanBetween(a.y, a.weight, b.y, b.weight, m.y, 0.0, 1.0);
      forall p | p in merged ensures 0.0 <= p.x <= 1.0 && 0.0 <= p.y <= 1.0 {
        assert p == m || p in pools[..i] || p in pools[i + 2..];
      }
    }
  }

  // ---------- The initial buckets ----------

  function Xs(pools: seq<Pool>): seq<real> {
    seq(|pools|, i requires 0 <= i < |pools| => pools[i].x)
  }

  function Ys(pools: seq<Pool>): seq<real> {
    seq(|pools|, i requires 0 <= i < |pools| => pools[i].y)
  }

  ghost predicate UnitWeights(pools: seq<Pool>) {
    forall p :: p in pools ==> p.weight == 1
  }

  /** A correct result: consecutive blocks of the initial buckets, each at its mean, in increasing order. */
  ghost predicate IsFit(initial: seq<Pool>, pools: seq<Pool>) {
    && Partition(pools, Xs(initial), Ys(initial))
    && forall i, j :: 0 <= i < j < |pools| ==> pools[i].y <= pools[j].y
  }

  lemma SinglePool(p: Pool)
    requires p.weight == 1
    ensures PoolOf(p, [p.x], [p.y])
  {
    var xs, ys := [p.x], [p.y];
    SumTake(xs, 0);
    SumTake(ys, 0);
    assert xs[..0] == [] && ys[..0] == [] && xs[..1] == xs && ys[..1] == ys;
    assert Times(p.x, 1) == Times(p.x, 0) + p.x && Times(p.y, 1) == Times(p.y, 0) + p.y;
    forall n: nat | n <= |ys| ensures Sum(ys[..n]) >= Times(p.y, n) {
      assert n == 0 || n == 1;
    }
  }

  lemma {:induction false} InitialPartition(pools: seq<Pool>)
    requires UnitWeights(pools)
    ensures Partition(pools, Xs(pools), Ys(pools))
  {
    hide PoolOf;
    var xs, ys := Xs(pools), Ys(pools);
    if pools == [] {
      assert xs == [] && ys == [];
    } else {
      var p := pools[0];
      assert p in pools;
      SinglePool(p);
      assert xs[..1] == [p.x];
      assert ys[..1] == [p.y];
      assert xs[1..] == Xs(pools[1..]);
      assert ys[1..] == Ys(pools[1..]);
      InitialPartition(pools[1..]);
    }
  }

  lemma AdjacentIsEnough(pools: seq<Pool>, i: nat, j: nat)
    requires forall k: nat :: !Violation(pools, k)
    requires i <= j < |pools|
    ensures pools[i].y <= pools[j].y
    decreases j - i
  {
    if i < j {
      AdjacentIsEnough(pools, i, j - 1);
      assert !Violation(pools, j - 1);
    }
  }

  /** The loop of the fit: while some neighbours decrease, replace the first such pair by its mean. */
  method PoolAdjacent(initial: seq<Pool>) returns (pools: seq<Pool>)
    requires UnitWeights(initial)
    ensures IsFit(initial, pools)
    ensures forall z :: |z| == |initial| && NonDecreasing(z) ==>
              |Fitted(pools)| == |initial| && SquaredError(Ys(initial), Fitted(pools)) <= SquaredError(Ys(initial), z)
    ensures Ordered(initial) ==> Ordered(pools)
    ensures InUnitSquare(initial) ==> InUnitSquare(pools)
  {
    hide PoolOf;
    hide Partition;
    hide Merged;
    ghost var xs, ys := Xs(initial), Ys(initial);
    InitialPartition(initial);
    pools := initial;
    while exists i: nat | i < |pools| :: Violation(pools, i)
      invariant Partition(pools, xs, ys)
      invariant Ordered(initial) ==> Ordered(pools)
      invariant InUnitSquare(initial) ==> InUnitSquare(pools)
      decreases |pools|
    {
      PartitionWeights(pools, xs, ys);
      ghost var before := pools;
      for i := 0 to |pools| - 1
        invariant pools == before && exists k: nat | k < |pools| :: i <= k && Violation(pools, k)
      {
        if Violation(pools, i) {
          MergeKeepsPartition(pools, i, xs, ys);
          MergeKeepsShape(pools, i);
          pools := pools[..i] + [Merged(pools[i], pools[i + 1])] + pools[i + 2..];
          break;
        }
      }
    }
    forall i, j | 0 <= i < j < |pools| ensures pools[i].y <= pools[j].y {
      AdjacentIsEnough(pools, i, j);
    }
    forall z | |z| == |initial| && NonDecreasing(z)
      ensures |Fitted(pools)| == |initial| && SquaredError(ys, Fitted(pools)) <= SquaredError(ys, z)
    {
      LeastSquares(pools, xs, ys, z);
      SquaredErrorNonNegative(Fitted(pools), z);
    }
  }

  // ---------- Consequences of being a fit ----------

  lemma {:induction false} FittedMembers(pools: seq<Pool>, lo: real)
    requires forall p :: p in pools ==> lo <= p.y
    ensures forall v :: v in Fitted(pools) ==> lo <= v
  {
    if pools != [] {
      assert pools[0] in pools;
      FittedMembers(pools[1..], lo);
    }
  }

  lemma {:induction false} FittedNonDecreasing(pools: seq<Pool>)
    requires forall i, j :: 0 <= i < j < |pools| ==> pools[i].y <= pools[j].y
    ensures NonDecreasing(Fitted(pools))
  {
    if pools != [] {
      FittedNonDecreasing(pools[1..]);
      FittedMembers(pools[1..], pools[0].y);
      var f, w := Fitted(pools), pools[0].weight;
      forall i, j | 0 <= i < j < |f| ensures f[i] <= f[j] {
        if i < w <= j {
          assert f[j] in Fitted(pools[1..]);
        } else if w <= i {
          assert f[i] == Fitted(pools[1..])[i - w] && f[j] == Fitted(pools[1..])[j - w];
        }
      }
    }
  }

  /** The fitted step function is feasible and it is the only closest one. */
  lemma FitIsTheUniqueOptimum(initial: seq<Pool>, pools: seq<Pool>, z: seq<real>)
    requires IsFit(initial, pools) && |z| == |initial| && NonDecreasing(z)
    ensures |Fitted(pools)| == |initial| && NonDecreasing(Fitted(pools))
    ensures SquaredError(Ys(initial), z) <= SquaredError(Ys(initial), Fitted(pools)) ==> z == Fitted(pools)
  {
    FittedNonDecreasing(pools);
    LeastSquares(pools, Xs(initial), Ys(initial), z);
    SquaredErrorNonNegative(Fitted(pools), z);
  }

  function TotalWeight(pools: seq<Pool>): nat {
    if pools == [] then 0 else pools[0].weight + TotalWeight(pools[1..])
  }

  function WeightedX(pools: seq<Pool>): real {
    if pools == [] then 0.0 else pools[0].x * pools[0].weight as real + WeightedX(pools[1..])
  }

  function WeightedY(pools: seq<Pool>): real {
    if pools == [] then 0.0 else pools[0].y * pools[0].weight as real + WeightedY(pools[1..])
  }

  lemma WeightedHead(pools: seq<Pool>)
    requires pools != []
    ensures WeightedX(pools) == Times(pools[0].x, pools[0].weight) + WeightedX(pools[1..])
    ensures WeightedY(pools) == Times(pools[0].y, pools[0].weight) + WeightedY(pools[1..])
  {
    TimesIsProduct(pools[0].x, pools[0].weight);
    TimesIsProduct(pools[0].y, pools[0].weight);
  }

  lemma {:induction false} PartitionConserves(pools: seq<Pool>, xs: seq<real>, ys: seq<real>)
    requires Partition(pools, xs, ys)
    ensures TotalWeight(pools) == |xs| == |ys|
    ensures WeightedX(pools) == Sum(xs) && WeightedY(pools) == Sum(ys)
  {
    if pools != [] {
      var w := pools[0].weight;
      PartitionConserves(pools[1..], xs[w..], ys[w..]);
      WeightedHead(pools);
      SumAppend(xs[..w], xs[w..]);
      SumAppend(ys[..w], ys[w..]);
      assert xs == xs[..w] + xs[w..] && ys == ys[..w] + ys[w..];
    }
  }

  /** Merging moves no mass: the weighted sums are those of the initial buckets. */
  lemma FitConserves(initial: seq<Pool>, pools: seq<Pool>)
    requires IsFit(initial, pools)
    ensures TotalWeight(pools) == |initial|
    ensures WeightedX(pools) == Sum(Xs(initial)) && WeightedY(pools) == Sum(Ys(initial))
  {
    PartitionConserves(pools, Xs(initial), Ys(initial));
  }
}
