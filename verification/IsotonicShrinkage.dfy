/** How far the calibrated row moves from the original one, and where on the curve it moves to. */
module IsotonicShrinkage {
  import opened Sequences
  import opened Reals
  import opened IsotonicCurve
  import opened IsotonicApply

  /** The value y of the curve at x: that of the first point before it, of the last point after it, and in between
      on the chord of the two points around it. */
  ghost predicate OnCurve(points: seq<Pair>, x: real, y: real)
    requires points != []
  {
    var n := |points| - 1;
    && (x < points[0].0 ==> y == points[0].1)
    && (points[n].0 <= x ==> y == points[n].1)
    && forall j :: 0 <= j < n && points[j].0 <= x < points[j + 1].0 ==>
         (y - points[j].1) * (points[j + 1].0 - points[j].0) == (points[j + 1].1 - points[j].1) * (x - points[j].0)
  }

  lemma OnChord(a: Pair, b: Pair, x: real)
    requires a.0 < b.0
    ensures (OnSegment(a, b, x) - a.1) * (b.0 - a.0) == (b.1 - a.1) * (x - a.0)
  {
    DivTimes(b.1 - a.1, b.0 - a.0);
    Regroup(Slope(a, b), x - a.0, b.0 - a.0);
  }

  lemma Regroup(s: real, d: real, w: real)
    ensures s * d * w == s * w * d
  {
  }

  lemma InterpOnCurve(points: seq<Pair>, x: real)
    requires points != [] && forall i, j :: 0 <= i < j < |points| ==> points[i].0 <= points[j].0
    ensures OnCurve(points, x, Interp(points, x))
  {
    var n := |points| - 1;
    if points[0].0 <= x < points[n].0 {
      var k := LastAtMost(points, x);
      OnChord(points[k], points[k + 1], x);
      forall j | 0 <= j < n && points[j].0 <= x < points[j + 1].0 ensures j == k {
        assert j <= k;
      }
    }
    hide OnSegment;
  }

  /** The curve passes through its points, the last of them where an abscissa is repeated. */
  lemma ThroughPoints(points: seq<Pair>, j: nat, y: real)
    requires j < |points| && (j + 1 < |points| ==> points[j].0 < points[j + 1].0) && OnCurve(points, points[j].0, y)
    ensures y == points[j].1
  {
    if j + 1 < |points| {
      CancelEq(points[j + 1].0 - points[j].0, y - points[j].1, 0.0);
    }
  }

  /** The entry v moves towards y: a tenth of the way for fewer than 200 rows, then n parts of 1000 + n, and nine
      tenths at the most. */
  ghost predicate Moves(n: nat, v: real, y: real, s: real) {
    if n < 200 then 10.0 * (s - v) == y - v
    else if n <= 9000 then (1000 + n) as real * (s - v) == n as real * (y - v)
    else 10.0 * (s - v) == 9.0 * (y - v)
  }

  ghost predicate Clipped(s: real, c: real) {
    0.01 <= c <= 0.99 && (s < c ==> c == 0.01) && (s > c ==> c == 0.99)
  }

  lemma ShareKept(n: nat)
    requires n >= 200
    ensures n <= 9000 ==> Alpha(n) * (1000 + n) as real == 1000.0
    ensures n > 9000 ==> Alpha(n) == 0.1
  {
    var d := 1.0 + n as real / 1000.0;
    assert d * 1000.0 == (1000 + n) as real;
    DivTimes(1.0, d);
    if n <= 9000 {
      ScaleLe(0.1, d, 10.0);
      CancelLe(d, 0.1, 1.0 / d);
      assert 1.0 / d * d * 1000.0 == 1000.0;
    } else {
      ScaleLt(0.1, 10.0, d);
      if 0.1 <= 1.0 / d {
        ScaleLe(d, 0.1, 1.0 / d);
      }
    }
  }

  lemma MixMoves(a: real, v: real, y: real, n: real)
    requires a * (1000.0 + n) == 1000.0
    ensures (1000.0 + n) * (Mix(a, 1.0 - a, v, y) - v) == n * (y - v)
  {
    assert Mix(a, 1.0 - a, v, y) - v == (1.0 - a) * (y - v);
    assert (1000.0 + n) * (1.0 - a) == n;
    Regroup(1000.0 + n, 1.0 - a, y - v);
  }

  lemma ShrunkMoves(points: seq<Pair>, n: nat, v: real)
    requires points != []
    ensures Moves(n, v, Interp(points, v), Shrunk(points, n, v))
  {
    var y := Interp(points, v);
    hide Interp;
    if n >= 200 {
      ShareKept(n);
      if n <= 9000 {
        MixMoves(Alpha(n), v, y, n as real);
      }
    }
  }

  /** c is the clipped entry that v becomes on the curve of n rows. */
  ghost predicate Becomes(points: seq<Pair>, n: nat, v: real, c: real)
    requires points != []
  {
    exists y, s :: OnCurve(points, v, y) && Moves(n, v, y, s) && Clipped(s, c)
  }

  /** The entries of the row become those of `out`, times t. */
  ghost predicate Over(points: seq<Pair>, n: nat, row: seq<real>, out: seq<real>, t: real)
    requires points != []
  {
    t > 0.0 && |out| == |row| && forall i :: 0 <= i < |row| ==> Becomes(points, n, row[i], Mul(out[i], t))
  }

  lemma EntryMoves(points: seq<Pair>, n: nat, row: seq<real>, i: nat)
    requires CalibrationCurve(points) && i < |row|
    ensures var out := ApplyIsotonic(points, n, row);
            |out| == |row| && Becomes(points, n, row[i], Mul(out[i], Sum(CorrectedRow(points, n, row))))
  {
    var c := CorrectedRow(points, n, row);
    CorrectedSum(points, n, row);
    EntryBecomes(points, n, row[i]);
    hide Becomes;
    hide Shrunk;
    hide Clip;
    hide Sum;
    Undivided(c[i], Sum(c));
    hide Mul;
  }

  lemma Undivided(a: real, t: real)
    requires t != 0.0
    ensures Mul(a / t, t) == a
  {
    DivTimes(a, t);
  }

  lemma SumIsOne(points: seq<Pair>, n: nat, row: seq<real>)
    requires points != [] && row != []
    ensures Sum(ApplyIsotonic(points, n, row)) == 1.0
  {
    var c := CorrectedRow(points, n, row);
    CorrectedSum(points, n, row);
    SumDivided(c, Sum(c), ApplyIsotonic(points, n, row));
    DivOne(Sum(c));
    hide Sum;
    hide CorrectedRow;
  }

  /** Every entry of the calibrated row is its clipped move towards the curve, divided by the sum of these. */
  lemma RowMoves(points: seq<Pair>, n: nat, row: seq<real>)
    requires CalibrationCurve(points) && row != []
    ensures var out := ApplyIsotonic(points, n, row); Sum(out) == 1.0 && exists t :: Over(points, n, row, out, t)
  {
    SumIsOne(points, n, row);
    CorrectedSum(points, n, row);
    forall i | 0 <= i < |row| {
      EntryMoves(points, n, row, i);
    }
    hide ApplyIsotonic;
    hide CorrectedRow;
    hide Becomes;
    hide Sum;
    hide Mul;
    assert Over(points, n, row, ApplyIsotonic(points, n, row), Sum(CorrectedRow(points, n, row)));
  }

  lemma EntryBecomes(points: seq<Pair>, n: nat, v: real)
    requires CalibrationCurve(points)
    ensures Becomes(points, n, v, Clip(Shrunk(points, n, v)))
  {
    InterpOnCurve(points, v);
    ShrunkMoves(points, n, v);
    hide OnCurve;
    hide Interp;
    hide Shrunk;
    hide Moves;
    assert Clipped(Shrunk(points, n, v), Clip(Shrunk(points, n, v)));
  }

  /** The curve and the number of rows fix what an entry becomes. */
  lemma BecomesUnique(points: seq<Pair>, n: nat, v: real, c: real, d: real)
    requires points != [] && Becomes(points, n, v, c) && Becomes(points, n, v, d)
    ensures c == d
  {
    var y, s :| OnCurve(points, v, y) && Moves(n, v, y, s) && Clipped(s, c);
    var z, r :| OnCurve(points, v, z) && Moves(n, v, z, r) && Clipped(r, d);
    CurveUnique(points, v, y, z);
    hide OnCurve;
    hide Moves;
    MovesUnique(n, v, y, s, r);
  }

  lemma MovesUnique(n: nat, v: real, y: real, s: real, r: real)
    requires Moves(n, v, y, s) && Moves(n, v, y, r)
    ensures s == r
  {
    if 200 <= n <= 9000 {
      CancelEq((1000 + n) as real, s - v, r - v);
    }
  }

  lemma {:induction false} Straddles(points: seq<Pair>, x: real) returns (j: nat)
    requires |points| >= 2 && points[0].0 <= x < points[|points| - 1].0
    ensures j + 1 < |points| && points[j].0 <= x < points[j + 1].0
  {
    var n := |points| - 1;
    if points[n - 1].0 <= x {
      j := n - 1;
    } else {
      j := Straddles(points[..n], x);
    }
  }

  lemma CurveUnique(points: seq<Pair>, x: real, y: real, z: real)
    requires points != [] && OnCurve(points, x, y) && OnCurve(points, x, z)
    ensures y == z
  {
    if points[0].0 <= x < points[|points| - 1].0 {
      var j := Straddles(points, x);
      var a, b := points[j], points[j + 1];
      SameChord(y - a.1, z - a.1, b.0 - a.0, (b.1 - a.1) * (x - a.0));
    }
  }

  lemma SameChord(d: real, e: real, w: real, area: real)
    requires w > 0.0 && d * w == area && e * w == area
    ensures d == e
  {
    assert d == (d * w) / w;
  }

  lemma PartGrows(m: real, n: real, d: real, e: real, w: real)
    requires 0.0 <= m <= n && w >= 0.0 && (1000.0 + m) * d == m * w && (1000.0 + n) * e == n * w
    ensures 0.0 <= d <= e <= w
  {
    assert (1000.0 + n) * (w - e) == 1000.0 * w;
    PositiveFactor(1000.0 + n, w - e);
    ProductNonNegative(m, w);
    PositiveFactor(1000.0 + m, d);
    // With k = (1000 + m)(1000 + n): k e - k d = 1000 (n - m) w.
    assert (1000.0 + m) * (1000.0 + n) * (e - d) == (1000.0 + m) * (n * w) - (1000.0 + n) * (m * w);
    assert (1000.0 + m) * (n * w) - (1000.0 + n) * (m * w) == 1000.0 * ((n - m) * w);
    ProductNonNegative(n - m, w);
    PositiveFactor((1000.0 + m) * (1000.0 + n), e - d);
  }

  /** The entry moves this many parts of it and 1000 towards the curve. */
  function Parts(n: nat): real {
    if n < 200 then 1000.0 / 9.0 else if n <= 9000 then n as real else 9000.0
  }

  lemma MovesByParts(n: nat, v: real, y: real, s: real)
    requires Moves(n, v, y, s)
    ensures (1000.0 + Parts(n)) * (s - v) == Parts(n) * (y - v) && (1000.0 + Parts(n)) * (v - s) == Parts(n) * (v - y)
    ensures Parts(n) >= 0.0
  {
  }

  /** More rows move an entry further, in the same direction and never past the curve. */
  lemma MoreRowsMoveFurther(m: nat, n: nat, v: real, y: real, s: real, r: real)
    requires m <= n && Moves(m, v, y, s) && Moves(n, v, y, r)
    ensures v <= y ==> v <= s <= r <= y
    ensures y <= v ==> y <= r <= s <= v
  {
    var a, b := Parts(m), Parts(n);
    assert a <= b;
    MovesByParts(m, v, y, s);
    MovesByParts(n, v, y, r);
    hide Moves;
    hide Parts;
    if v <= y {
      PartGrows(a, b, s - v, r - v, y - v);
    } else {
      PartGrows(a, b, v - s, v - r, v - y);
    }
  }
}
