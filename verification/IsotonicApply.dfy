/** Applying a calibration curve to a row of outcome probabilities. */
module IsotonicApply {
  import opened Sequences
  import opened Reals
  import opened IsotonicCurve

  // ---------- Piecewise linear interpolation ----------

  /** The last point at or before x: with repeated abscissae, the last of them. */
  function LastAtMost(points: seq<Pair>, x: real): (j: nat)
    requires points != [] && points[0].0 <= x
    ensures j < |points| && points[j].0 <= x
    ensures forall k :: j < k < |points| ==> x < points[k].0
  {
    var n := |points| - 1;
    if points[n].0 <= x then n else LastAtMost(points[..n], x)
  }

  function Slope(a: Pair, b: Pair): real
    requires a.0 < b.0
  {
    (b.1 - a.1) / (b.0 - a.0)
  }

  function OnSegment(a: Pair, b: Pair, x: real): real
    requires a.0 < b.0
  {
    Slope(a, b) * (x - a.0) + a.1
  }

  function Interp(points: seq<Pair>, x: real): real
    requires points != []
  {
    if x < points[0].0 then points[0].1
    else
      var j := LastAtMost(points, x);
      if j == |points| - 1 then points[j].1
      else OnSegment(points[j], points[j + 1], x)
  }

  lemma SlopeNonNegative(a: Pair, b: Pair)
    requires a.0 < b.0 && a.1 <= b.1
    ensures Slope(a, b) >= 0.0
  {
    DivTimes(b.1 - a.1, b.0 - a.0);
    PositiveFactor(b.0 - a.0, Slope(a, b));
  }

  lemma SegmentBounds(a: Pair, b: Pair, x: real)
    requires a.0 < b.0 && a.1 <= b.1 && a.0 <= x <= b.0
    ensures a.1 <= OnSegment(a, b, x) <= b.1
  {
    var s := Slope(a, b);
    SlopeNonNegative(a, b);
    ProductNonNegative(s, x - a.0);
    ScaleLe(s, x - a.0, b.0 - a.0);
    DivTimes(b.1 - a.1, b.0 - a.0);
  }

  lemma SegmentMonotone(a: Pair, b: Pair, v: real, w: real)
    requires a.0 < b.0 && a.1 <= b.1 && v <= w
    ensures OnSegment(a, b, v) <= OnSegment(a, b, w)
  {
    SlopeNonNegative(a, b);
    ScaleLe(Slope(a, b), v - a.0, w - a.0);
  }

  lemma InterpInSegment(points: seq<Pair>, x: real)
    requires CalibrationCurve(points) && 0.0 <= x
    ensures points[LastAtMost(points, x)].1 <= Interp(points, x)
    ensures LastAtMost(points, x) + 1 < |points| ==> Interp(points, x) <= points[LastAtMost(points, x) + 1].1
    ensures 0.0 <= Interp(points, x) <= 1.0
  {
    var j := LastAtMost(points, x);
    if j + 1 < |points| {
      SegmentBounds(points[j], points[j + 1], x);
    }
    BetweenEnds(points, j);
    if j + 1 < |points| {
      BetweenEnds(points, j + 1);
    }
  }

  lemma BetweenEnds(points: seq<Pair>, j: nat)
    requires CalibrationCurve(points) && j < |points|
    ensures 0.0 <= points[j].1 <= 1.0
  {
    if 0 < j {
      assert points[0].1 <= points[j].1;
    }
    if j < |points| - 1 {
      assert points[j].1 <= points[|points| - 1].1;
    }
  }

  lemma LastAtMostMonotone(points: seq<Pair>, v: real, w: real)
    requires points != [] && points[0].0 <= v <= w
    ensures LastAtMost(points, v) <= LastAtMost(points, w)
  {
  }

  lemma InterpMonotone(points: seq<Pair>, v: real, w: real)
    requires CalibrationCurve(points) && 0.0 <= v <= w
    ensures Interp(points, v) <= Interp(points, w)
  {
    var i, j := LastAtMost(points, v), LastAtMost(points, w);
    LastAtMostMonotone(points, v, w);
    if i == j {
      if j + 1 < |points| {
        SegmentMonotone(points[j], points[j + 1], v, w);
      }
    } else {
      InterpInSegment(points, v);
      InterpInSegment(points, w);
      assert i + 1 == j || points[i + 1].1 <= points[j].1;
    }
  }

  // ---------- Shrinkage, clipping, normalisation ----------

  function Alpha(n: nat): real {
    if n < 200 then 0.9
    else
      var a := 1.0 / (1.0 + n as real / 1000.0);
      if a < 0.1 then 0.1 else a
  }

  function Clip(v: real): real {
    if v < 0.01 then 0.01 else if v > 0.99 then 0.99 else v
  }

  function Mix(a: real, b: real, v: real, w: real): real {
    a * v + b * w
  }

  function Shrunk(points: seq<Pair>, n: nat, v: real): real
    requires points != []
  {
    Mix(Alpha(n), 1.0 - Alpha(n), v, Interp(points, v))
  }

  function CorrectedRow(points: seq<Pair>, n: nat, row: seq<real>): seq<real>
    requires points != []
  {
    seq(|row|, i requires 0 <= i < |row| => Clip(Shrunk(points, n, row[i])))
  }

  function ApplyIsotonic(points: seq<Pair>, n: nat, row: seq<real>): seq<real>
    requires points != []
  {
    if row == [] then []
    else
      var c := CorrectedRow(points, n, row);
      CorrectedSum(points, n, row);
      var t := Sum(c);
      seq(|row|, i requires 0 <= i < |row| => c[i] / t)
  }

  lemma AlphaBounds(n: nat)
    ensures 0.1 <= Alpha(n) <= 0.9
  {
    if n >= 200 {
      var d := 1.0 + n as real / 1000.0;
      assert d >= 1.2;
      DivTimes(1.0, d);
      ScaleLe(0.9, 1.2, d);
      CancelLe(d, 1.0 / d, 0.9);
    }
  }

  lemma MixStrict(a: real, b: real, v: real, w: real, iv: real, iw: real)
    requires a > 0.0 && b >= 0.0 && v < w && iv <= iw
    ensures Mix(a, b, v, iv) < Mix(a, b, w, iw)
  {
    ScaleLt(a, v, w);
    ScaleLe(b, iv, iw);
  }

  lemma MixAboveFloor(a: real, b: real, w: real, iw: real)
    requires a >= 0.1 && b >= 0.0 && w >= 1.0 / 3.0 && iw >= 0.0
    ensures Mix(a, b, w, iw) > 0.01
  {
    ScaleLe(a, 1.0 / 3.0, w);
    ProductNonNegative(b, iw);
  }

  lemma MixAtMost(a: real, b: real, v: real, iv: real)
    requires a >= 0.0 && b >= 0.0 && v <= 0.5 && iv <= 1.0
    ensures Mix(a, b, v, iv) <= 0.5 * a + b
  {
    ScaleLe(a, v, 0.5);
    ScaleLe(b, iv, 1.0);
  }

  /** Shrinkage keeps a strict share of the input, so it separates what the curve merges. */
  lemma ShrunkStrict(points: seq<Pair>, n: nat, v: real, w: real)
    requires CalibrationCurve(points) && 0.0 <= v < w
    ensures Shrunk(points, n, v) < Shrunk(points, n, w)
  {
    AlphaBounds(n);
    InterpMonotone(points, v, w);
    MixStrict(Alpha(n), 1.0 - Alpha(n), v, w, Interp(points, v), Interp(points, w));
  }

  lemma {:induction false} SumPositive(s: seq<real>)
    requires s != [] && forall v :: v in s ==> v > 0.0
    ensures Sum(s) > 0.0
  {
    var n := |s| - 1;
    assert s[n] in s && forall v :: v in s[..n] ==> v in s;
    if n > 0 {
      SumPositive(s[..n]);
    }
  }

  lemma {:induction false} SumDivided(c: seq<real>, t: real, d: seq<real>)
    requires t != 0.0 && |d| == |c| && forall i :: 0 <= i < |c| ==> d[i] == c[i] / t
    ensures Sum(d) == Sum(c) / t
  {
    if c != [] {
      var n := |c| - 1;
      SumDivided(c[..n], t, d[..n]);
      DivAdd(Sum(c[..n]), c[n], t);
    }
  }

  lemma CorrectedSum(points: seq<Pair>, n: nat, row: seq<real>)
    requires points != [] && row != []
    ensures Sum(CorrectedRow(points, n, row)) > 0.0
  {
    var c := CorrectedRow(points, n, row);
    forall v | v in c ensures v > 0.0 {
      var i :| 0 <= i < |c| && c[i] == v;
    }
    SumPositive(c);
  }

  /** The calibrated row is a positive distribution in the order of the original one. */
  lemma ApplyKeepsOrder(points: seq<Pair>, n: nat, row: seq<real>)
    requires CalibrationCurve(points) && row != [] && forall v :: v in row ==> 0.0 <= v <= 1.0
    ensures var out := ApplyIsotonic(points, n, row);
            && |out| == |row| && Sum(out) == 1.0
            && (forall i :: 0 <= i < |out| ==> out[i] > 0.0)
            && forall i, j :: 0 <= i < |row| && 0 <= j < |row| && row[i] <= row[j] ==> out[i] <= out[j]
  {
    var out, c := ApplyIsotonic(points, n, row), CorrectedRow(points, n, row);
    var t := Sum(c);
    CorrectedSum(points, n, row);
    SumDivided(c, t, out);
    DivOne(t);
    forall i | 0 <= i < |out| ensures out[i] > 0.0 {
      DivPositive(c[i], t);
    }
    forall i, j | 0 <= i < |row| && 0 <= j < |row| && row[i] <= row[j] ensures out[i] <= out[j] {
      assert row[i] in row;
      if row[i] < row[j] {
        ShrunkStrict(points, n, row[i], row[j]);
      }
      DivLe(c[i], c[j], t);
    }
  }

  // ---------- Which outcome is predicted ----------

  /** The first index of the greatest entry, as argmax returns it. */
  ghost predicate IsFirstMax(row: seq<real>, m: nat) {
    && m < |row|
    && (forall i :: 0 <= i < |row| ==> row[i] <= row[m])
    && forall i :: 0 <= i < m ==> row[i] < row[m]
  }

  /** A row has exactly one such index. */
  lemma {:induction false} FirstMaxOnce(row: seq<real>) returns (m: nat)
    requires row != []
    ensures m < |row| && IsFirstMax(row, m)
    ensures forall k: nat :: IsFirstMax(row, k) ==> k == m
  {
    m := 0;
    if |row| > 1 {
      var init := row[..|row| - 1];
      m := FirstMaxOnce(init);
      if row[m] < row[|row| - 1] {
        m := |row| - 1;
      }
      assert forall i :: 0 <= i < |init| ==> init[i] == row[i];
    }
    assert IsFirstMax(row, m);
  }

  lemma DividedOrder(a: real, b: real, t: real)
    requires t > 0.0
    ensures a / t < b / t <==> a < b
    ensures a / t <= b / t <==> a <= b
  {
    DivTimes(a, t);
    DivTimes(b, t);
    if a < b {
      ScaleLt(1.0 / t, a, b);
    } else {
      DivLe(b, a, t);
    }
  }

  lemma FirstMaxOfScaled(c: seq<real>, t: real, out: seq<real>, m: nat)
    requires t > 0.0 && |out| == |c| && forall i :: 0 <= i < |c| ==> out[i] == c[i] / t
    ensures IsFirstMax(out, m) <==> IsFirstMax(c, m)
  {
    if m < |c| {
      forall i | 0 <= i < |c| ensures (out[i] <= out[m] <==> c[i] <= c[m]) && (out[i] < out[m] <==> c[i] < c[m]) {
        DividedOrder(c[i], c[m], t);
      }
    }
  }

  /** For any row, the predicted outcome survives exactly when clipping ties it with no earlier one. */
  lemma FirstMaxKeptIff(points: seq<Pair>, n: nat, row: seq<real>, m: nat)
    requires CalibrationCurve(points) && forall v :: v in row ==> 0.0 <= v <= 1.0
    requires IsFirstMax(row, m)
    ensures IsFirstMax(ApplyIsotonic(points, n, row), m)
       <==> m == 0 || (Shrunk(points, n, row[m]) > 0.01
                       && forall i :: 0 <= i < m ==> Shrunk(points, n, row[i]) < 0.99)
  {
    var c := CorrectedRow(points, n, row);
    CorrectedSum(points, n, row);
    FirstMaxOfScaled(c, Sum(c), ApplyIsotonic(points, n, row), m);
    forall i | 0 <= i < |row|
      ensures c[i] <= c[m]
      ensures i < m ==> (c[i] < c[m] <==> Shrunk(points, n, row[m]) > 0.01 && Shrunk(points, n, row[i]) < 0.99)
    {
      assert row[i] in row && row[m] in row;
      if row[i] < row[m] {
        ShrunkStrict(points, n, row[i], row[m]);
      }
    }
    if m > 0 {
      assert IsFirstMax(c, m) ==> c[0] < c[m];
    }
  }

  /** On a probability triple no tie can arise: the predicted outcome is always kept. */
  lemma FirstMaxKeptOnSimplex(points: seq<Pair>, n: nat, row: seq<real>, m: nat)
    requires CalibrationCurve(points)
    requires |row| == 3 && row[0] >= 0.0 && row[1] >= 0.0 && row[2] >= 0.0 && row[0] + row[1] + row[2] == 1.0
    requires IsFirstMax(row, m)
    ensures IsFirstMax(ApplyIsotonic(points, n, row), m)
  {
    AlphaBounds(n);
    InterpInSegment(points, row[m]);
    MixAboveFloor(Alpha(n), 1.0 - Alpha(n), row[m], Interp(points, row[m]));
    forall i | 0 <= i < m ensures Shrunk(points, n, row[i]) < 0.99 {
      InterpInSegment(points, row[i]);
      MixAtMost(Alpha(n), 1.0 - Alpha(n), row[i], Interp(points, row[i]));
    }
    FirstMaxKeptIff(points, n, row, m);
  }
}
