/** Reweighting a joint score matrix so that its home, draw and away masses meet a target. */
module JointProjection {
  import opened Reals
  import opened Wrappers

  /** Home goals index the rows, away goals the columns. */
  type Matrix = seq<seq<real>>

  ghost predicate Square(m: Matrix) {
    forall h :: 0 <= h < |m| ==> |m[h]| == |m|
  }

  datatype Triple = Triple(home: real, draw: real, away: real) {
    function At(c: nat): real {
      if c == 0 then home else if c == 1 then draw else away
    }

    function Total(): real {
      home + draw + away
    }
  }

  function ClassOf(h: nat, a: nat): nat {
    if h > a then 0 else if h == a then 1 else 2
  }

  // ---------- Masses ----------

  function RowMass(row: seq<real>, h: nat, c: nat): real {
    if row == [] then 0.0
    else
      var a := |row| - 1;
      RowMass(row[..a], h, c) + if ClassOf(h, a) == c then row[a] else 0.0
  }

  function Mass(m: Matrix, c: nat): real {
    if m == [] then 0.0
    else
      var h := |m| - 1;
      Mass(m[..h], c) + RowMass(m[h], h, c)
  }

  function Masses(m: Matrix): Triple {
    Triple(Mass(m, 0), Mass(m, 1), Mass(m, 2))
  }

  function RowTotal(row: seq<real>): real {
    if row == [] then 0.0 else RowTotal(row[..|row| - 1]) + row[|row| - 1]
  }

  function GrandTotal(m: Matrix): real {
    if m == [] then 0.0 else GrandTotal(m[..|m| - 1]) + RowTotal(m[|m| - 1])
  }

  lemma {:induction false} RowTotalIsMasses(row: seq<real>, h: nat)
    ensures RowTotal(row) == RowMass(row, h, 0) + RowMass(row, h, 1) + RowMass(row, h, 2)
  {
    if row != [] {
      RowTotalIsMasses(row[..|row| - 1], h);
    }
  }

  lemma {:induction false} TotalIsMasses(m: Matrix)
    ensures GrandTotal(m) == Masses(m).Total()
  {
    if m != [] {
      var h := |m| - 1;
      TotalIsMasses(m[..h]);
      RowTotalIsMasses(m[h], h);
    }
  }

  // ---------- Sums over pairs of goals ----------

  function RowSum(row: seq<real>, h: nat, pick: (nat, nat) -> bool): real {
    if row == [] then 0.0
    else
      var a := |row| - 1;
      RowSum(row[..a], h, pick) + if pick(h, a) then row[a] else 0.0
  }

  /** The sum of the cells of the picked pairs of home and away goals. */
  function CellSum(m: Matrix, pick: (nat, nat) -> bool): real {
    if m == [] then 0.0
    else
      var h := |m| - 1;
      CellSum(m[..h], pick) + RowSum(m[h], h, pick)
  }

  function HomeWins(): (nat, nat) -> bool {
    (home: nat, away: nat) => home > away
  }

  function Draws(): (nat, nat) -> bool {
    (home: nat, away: nat) => home == away
  }

  function AwayWins(): (nat, nat) -> bool {
    (home: nat, away: nat) => home < away
  }

  lemma {:induction false} RowSumIsMass(row: seq<real>, h: nat, pick: (nat, nat) -> bool, c: nat)
    requires forall a: nat :: pick(h, a) <==> ClassOf(h, a) == c
    ensures RowSum(row, h, pick) == RowMass(row, h, c)
  {
    if row != [] {
      RowSumIsMass(row[..|row| - 1], h, pick, c);
    }
  }

  lemma {:induction false} CellSumIsMass(m: Matrix, pick: (nat, nat) -> bool, c: nat)
    requires forall h: nat, a: nat :: pick(h, a) <==> ClassOf(h, a) == c
    ensures CellSum(m, pick) == Mass(m, c)
  {
    hide ClassOf;
    if m != [] {
      CellSumIsMass(m[..|m| - 1], pick, c);
      RowSumIsMass(m[|m| - 1], |m| - 1, pick, c);
    }
  }

  /** The masses are the sums of the cells with more home goals, with as many, with fewer. */
  lemma OutcomeSums(m: Matrix)
    ensures Masses(m) == Triple(CellSum(m, HomeWins()), CellSum(m, Draws()), CellSum(m, AwayWins()))
  {
    CellSumIsMass(m, HomeWins(), 0);
    CellSumIsMass(m, Draws(), 1);
    CellSumIsMass(m, AwayWins(), 2);
    hide Mass;
    hide CellSum;
  }

  // ---------- Class-wise scaling ----------

  function ScaledRow(row: seq<real>, h: nat, r: Triple): seq<real> {
    seq(|row|, a requires 0 <= a < |row| => Mul(row[a], r.At(ClassOf(h, a))))
  }

  function Scaled(m: Matrix, r: Triple): Matrix {
    seq(|m|, h requires 0 <= h < |m| => ScaledRow(m[h], h, r))
  }

  lemma {:induction false} RowMassScaled(row: seq<real>, h: nat, r: Triple, c: nat)
    requires c < 3
    ensures RowMass(ScaledRow(row, h, r), h, c) == Mul(RowMass(row, h, c), r.At(c))
  {
    hide Mul;
    if row == [] {
      MulDistributes(0.0, 0.0, r.At(c));
    } else {
      var a := |row| - 1;
      RowMassScaled(row[..a], h, r, c);
      assert ScaledRow(row, h, r)[..a] == ScaledRow(row[..a], h, r);
      MulDistributes(RowMass(row[..a], h, c), row[a], r.At(c));
    }
  }

  lemma {:induction false} MassScaled(m: Matrix, r: Triple, c: nat)
    requires c < 3
    ensures Mass(Scaled(m, r), c) == Mul(Mass(m, c), r.At(c))
  {
    hide Mul;
    if m == [] {
      MulDistributes(0.0, 0.0, r.At(c));
    } else {
      var h := |m| - 1;
      MassScaled(m[..h], r, c);
      RowMassScaled(m[h], h, r, c);
      assert Scaled(m, r)[..h] == Scaled(m[..h], r);
      MulDistributes(Mass(m[..h], c), RowMass(m[h], h, c), r.At(c));
    }
  }

  // ---------- The two reweighting routines ----------

  const EPS: real := 0.000000000000001
  const LOOP_FLOOR: real := 0.000000000001

  function Max(a: real, b: real): real {
    if a < b then b else a
  }

  function Ratio(prior: real, floor: real, target: real): real
    requires floor > 0.0
  {
    target / Max(floor, prior)
  }

  function Ratios(prior: Triple, floor: real, target: Triple): Triple
    requires floor > 0.0
  {
    Triple(Ratio(prior.home, floor, target.home),
           Ratio(prior.draw, floor, target.draw),
           Ratio(prior.away, floor, target.away))
  }

  function Uniform(v: real): Triple {
    Triple(v, v, v)
  }

  /** Scale each class towards the target and divide by the total. None: the total is zero. */
  function Reweight(m: Matrix, floor: real, target: Triple): Option<Matrix>
    requires floor > 0.0
  {
    var adjusted := Scaled(m, Ratios(Masses(m), floor, target));
    var total := GrandTotal(adjusted);
    if total == 0.0 then None else Some(Scaled(adjusted, Uniform(1.0 / total)))
  }

  function Project(m: Matrix, target: Triple): Option<Matrix> {
    Reweight(m, EPS, target)
  }

  // ---------- What reweighting does to the masses ----------

  /** The share of the target that a class of prior mass p receives before normalisation. */
  function Share(floor: real, p: real): real
    requires floor > 0.0
  {
    p / Max(floor, p)
  }

  function Shares(prior: Triple, floor: real, target: Triple): Triple
    requires floor > 0.0
  {
    Triple(Mul(target.home, Share(floor, prior.home)),
           Mul(target.draw, Share(floor, prior.draw)),
           Mul(target.away, Share(floor, prior.away)))
  }

  lemma ShareOf(floor: real, p: real)
    requires floor > 0.0
    ensures p >= floor ==> Share(floor, p) == 1.0
    ensures p < floor ==> Share(floor, p) * floor == p
    ensures p == 0.0 ==> Share(floor, p) == 0.0
    ensures 0.0 < p < floor ==> 0.0 < Share(floor, p) < 1.0
    ensures p >= 0.0 ==> 0.0 <= Share(floor, p) <= 1.0
  {
    var b := Max(floor, p);
    DivTimes(p, b);
    if p >= floor {
      DivOne(p);
    } else if 0.0 < p {
      DivPositive(p, b);
      DivLt(p, floor);
    }
  }

  lemma DivLt(p: real, b: real)
    requires 0.0 < p < b
    ensures p / b < 1.0
  {
    ScaleLt(1.0 / b, p, b);
    DivOne(b);
  }

  lemma RatioIsShare(p: real, floor: real, target: real)
    requires floor > 0.0
    ensures Mul(p, Ratio(p, floor, target)) == Mul(target, Share(floor, p))
  {
  }

  lemma AdjustedMasses(m: Matrix, floor: real, target: Triple)
    requires floor > 0.0
    ensures var adjusted := Scaled(m, Ratios(Masses(m), floor, target));
            && Masses(adjusted) == Shares(Masses(m), floor, target)
            && GrandTotal(adjusted) == Shares(Masses(m), floor, target).Total()
  {
    hide Mul;
    hide Ratio;
    hide Share;
    var r := Ratios(Masses(m), floor, target);
    MassScaled(m, r, 0);
    MassScaled(m, r, 1);
    MassScaled(m, r, 2);
    RatioIsShare(Mass(m, 0), floor, target.home);
    RatioIsShare(Mass(m, 1), floor, target.draw);
    RatioIsShare(Mass(m, 2), floor, target.away);
    TotalIsMasses(Scaled(m, r));
  }

  lemma Unscale(x: real, t: real)
    requires t != 0.0
    ensures Mul(Mul(x, 1.0 / t), t) == x
  {
  }

  /** Class masses after reweighting, in terms of the target and the floor alone. */
  lemma ReweightMasses(m: Matrix, floor: real, target: Triple, c: nat)
    requires floor > 0.0 && c < 3
    ensures var t := Shares(Masses(m), floor, target).Total();
            && (Reweight(m, floor, target) == None <==> t == 0.0)
            && (t != 0.0 ==>
                  Mul(Mass(Reweight(m, floor, target).value, c), t) == Shares(Masses(m), floor, target).At(c))
  {
    hide Mul;
    hide Share;
    var shares := Shares(Masses(m), floor, target);
    var t := shares.Total();
    AdjustedMasses(m, floor, target);
    if t != 0.0 {
      MassScaled(Scaled(m, Ratios(Masses(m), floor, target)), Uniform(1.0 / t), c);
      Unscale(shares.At(c), t);
    }
  }

  /** Each cell is multiplied by a factor that depends only on its class. */
  lemma ReweightCell(m: Matrix, floor: real, target: Triple, h: nat, a: nat)
    requires floor > 0.0 && h < |m| && a < |m[h]|
    requires Reweight(m, floor, target).Some?
    ensures var q := Reweight(m, floor, target).value; var t := Shares(Masses(m), floor, target).Total();
            && |q| == |m| && |q[h]| == |m[h]| && t != 0.0
            && q[h][a] == Mul(Mul(m[h][a], Ratios(Masses(m), floor, target).At(ClassOf(h, a))), 1.0 / t)
  {
    hide Mul;
    hide Share;
    AdjustedMasses(m, floor, target);
  }

  /** Within a class all ratios between cells are kept. */
  lemma ProjectKeepsRatios(m: Matrix, target: Triple, h: nat, a: nat, h': nat, a': nat)
    requires h < |m| && a < |m[h]| && h' < |m| && a' < |m[h']| && ClassOf(h, a) == ClassOf(h', a')
    requires Project(m, target).Some?
    ensures var q := Project(m, target).value;
            |q| == |m| && |q[h]| == |m[h]| && |q[h']| == |m[h']| && Mul(q[h][a], m[h'][a']) == Mul(q[h'][a'], m[h][a])
  {
    hide Mul;
    hide Share;
    hide Ratio;
    ReweightCell(m, EPS, target, h, a);
    ReweightCell(m, EPS, target, h', a');
    CrossMultiply(m[h][a], m[h'][a'], Ratios(Masses(m), EPS, target).At(ClassOf(h, a)),
                  1.0 / Shares(Masses(m), EPS, target).Total());
  }

  lemma CrossMultiply(x: real, y: real, r: real, k: real)
    ensures Mul(Mul(Mul(x, r), k), y) == Mul(Mul(Mul(y, r), k), x)
  {
  }

  // ---------- Hitting the target ----------

  ghost predicate AllAtLeast(t: Triple, floor: real) {
    t.home >= floor && t.draw >= floor && t.away >= floor
  }

  lemma MulOne(x: real)
    ensures Mul(x, 1.0) == x && Mul(1.0, x) == x
    ensures Mul(x, 0.0) == 0.0 && Mul(0.0, x) == 0.0
  {
  }

  lemma FullShares(prior: Triple, floor: real, target: Triple)
    requires floor > 0.0 && AllAtLeast(prior, floor)
    ensures Shares(prior, floor, target) == target
  {
    hide Mul;
    hide Share;
    ShareOf(floor, prior.home);
    ShareOf(floor, prior.draw);
    ShareOf(floor, prior.away);
    MulOne(target.home);
    MulOne(target.draw);
    MulOne(target.away);
  }

  /** When no prior mass is below the floor, the reweighted matrix has exactly the target masses. */
  lemma ReweightHitsTarget(m: Matrix, floor: real, target: Triple)
    requires floor > 0.0 && AllAtLeast(Masses(m), floor) && target.Total() == 1.0
    ensures Reweight(m, floor, target).Some? && Masses(Reweight(m, floor, target).value) == target
  {
    hide Mul;
    hide Share;
    FullShares(Masses(m), floor, target);
    ReweightMasses(m, floor, target, 0);
    ReweightMasses(m, floor, target, 1);
    ReweightMasses(m, floor, target, 2);
    var q := Reweight(m, floor, target).value;
    MulOne(Mass(q, 0));
    MulOne(Mass(q, 1));
    MulOne(Mass(q, 2));
  }

  lemma ProjectHitsTarget(m: Matrix, target: Triple)
    requires AllAtLeast(Masses(m), EPS) && target.Total() == 1.0
    ensures Project(m, target).Some? && Masses(Project(m, target).value) == target
  {
    ReweightHitsTarget(m, EPS, target);
  }

  // ---------- The same in terms of cells ----------

  /** The target of an outcome over the sum of its cells, which counts for `floor` at least. */
  function Factor(sum: real, floor: real, target: real): real
    requires floor > 0.0
  {
    if sum >= floor then target / sum else target / floor
  }

  /** A cell x becomes y: it is multiplied by the factor of its outcome and divided by the total. */
  ghost predicate Becomes(x: real, h: nat, a: nat, factors: Triple, total: real, y: real) {
    y * total == x * if h > a then factors.home else if h == a then factors.draw else factors.away
  }

  ghost predicate MultipliedBy(m: Matrix, factors: Triple, total: real, q: Matrix) {
    && |q| == |m| && (forall h :: 0 <= h < |m| ==> |q[h]| == |m[h]|)
    && forall h: nat, a: nat :: h < |m| && a < |m[h]| ==>
         Becomes(m[h][a], h, a, factors, total, q[h][a])
  }

  /** What the factors make of the sums of the outcomes, added up. */
  function Produced(sums: Triple, factors: Triple): real {
    sums.home * factors.home + sums.draw * factors.draw + sums.away * factors.away
  }

  /** What reweighting with a floor does to the cells of a matrix: each is multiplied by the factor of its outcome
      and divided by the total this gives, unless that is zero. */
  ghost predicate IsReweighted(m: Matrix, floor: real, target: Triple, r: Option<Matrix>)
    requires floor > 0.0
  {
    var sums := Triple(CellSum(m, HomeWins()), CellSum(m, Draws()), CellSum(m, AwayWins()));
    var factors := Triple(Factor(sums.home, floor, target.home), Factor(sums.draw, floor, target.draw),
                          Factor(sums.away, floor, target.away));
    && (r == None <==> Produced(sums, factors) == 0.0)
    && (r.Some? ==> MultipliedBy(m, factors, Produced(sums, factors), r.value))
  }

  lemma MulIs(a: real, b: real)
    ensures Mul(a, b) == a * b
  {
  }

  lemma RatioIsFactor(p: real, floor: real, target: real)
    requires floor > 0.0
    ensures Ratio(p, floor, target) == Factor(p, floor, target)
    ensures Mul(target, Share(floor, p)) == p * Factor(p, floor, target)
  {
    RatioIsShare(p, floor, target);
  }

  lemma PlainCell(m: Matrix, floor: real, target: Triple, h: nat, a: nat)
    requires floor > 0.0 && h < |m| && a < |m[h]| && Reweight(m, floor, target).Some?
    ensures var q := Reweight(m, floor, target).value;
            && |q| == |m| && |q[h]| == |m[h]|
            && Becomes(m[h][a], h, a, Factors(Masses(m), floor, target), Shares(Masses(m), floor, target).Total(),
                       q[h][a])
  {
    hide Mul;
    hide Ratio;
    hide Factor;
    hide Masses;
    hide Shares;
    hide Reweight;
    var p, t := Masses(m), Shares(Masses(m), floor, target).Total();
    ReweightCell(m, floor, target, h, a);
    RatioIsFactor(p.home, floor, target.home);
    RatioIsFactor(p.draw, floor, target.draw);
    RatioIsFactor(p.away, floor, target.away);
    var ratio := Ratios(p, floor, target).At(ClassOf(h, a));
    Unscale(Mul(m[h][a], ratio), t);
    MulIs(Reweight(m, floor, target).value[h][a], t);
    MulIs(m[h][a], ratio);
  }

  function Factors(p: Triple, floor: real, target: Triple): Triple
    requires floor > 0.0
  {
    Triple(Factor(p.home, floor, target.home), Factor(p.draw, floor, target.draw), Factor(p.away, floor, target.away))
  }

  lemma PlainCells(m: Matrix, floor: real, target: Triple)
    requires floor > 0.0 && Reweight(m, floor, target).Some?
    ensures MultipliedBy(m, Factors(Masses(m), floor, target), Shares(Masses(m), floor, target).Total(),
                         Reweight(m, floor, target).value)
  {
    ReweightShape(m, floor, target);
    hide Reweight;
    hide Becomes;
    hide Factors;
    hide Shares;
    hide Masses;
    forall h: nat, a: nat | h < |m| && a < |m[h]|
      ensures Becomes(m[h][a], h, a, Factors(Masses(m), floor, target), Shares(Masses(m), floor, target).Total(),
                      Reweight(m, floor, target).value[h][a])
    {
      PlainCell(m, floor, target, h, a);
    }
  }

  lemma SharesTotal(p: Triple, floor: real, target: Triple)
    requires floor > 0.0
    ensures Shares(p, floor, target).Total() == Produced(p, Factors(p, floor, target))
  {
    hide Mul;
    hide Share;
    hide Factor;
    RatioIsFactor(p.home, floor, target.home);
    RatioIsFactor(p.draw, floor, target.draw);
    RatioIsFactor(p.away, floor, target.away);
  }

  /** Reweighting, cell by cell. */
  lemma ReweightIsPlain(m: Matrix, floor: real, target: Triple)
    requires floor > 0.0
    ensures IsReweighted(m, floor, target, Reweight(m, floor, target))
  {
    OutcomeSums(m);
    SharesTotal(Masses(m), floor, target);
    ReweightMasses(m, floor, target, 0);
    if Reweight(m, floor, target).Some? {
      PlainCells(m, floor, target);
    }
    hide Shares;
    hide Masses;
    hide Factor;
    hide Produced;
    hide CellSum;
    hide Reweight;
    hide MultipliedBy;
  }

  lemma ReweightShape(m: Matrix, floor: real, target: Triple)
    requires floor > 0.0 && Reweight(m, floor, target).Some?
    ensures var q := Reweight(m, floor, target).value;
            |q| == |m| && forall h :: 0 <= h < |m| ==> |q[h]| == |m[h]|
  {
  }

  /** The cells of a matrix sum to these three figures: where home scores more, where both score the same,
      where away scores more. */
  ghost predicate SumsTo(m: Matrix, home: real, draw: real, away: real) {
    CellSum(m, HomeWins()) == home && CellSum(m, Draws()) == draw && CellSum(m, AwayWins()) == away
  }

  /** No outcome has less than this in the matrix. */
  ghost predicate NoneBelow(m: Matrix, floor: real) {
    CellSum(m, HomeWins()) >= floor && CellSum(m, Draws()) >= floor && CellSum(m, AwayWins()) >= floor
  }

  lemma ReweightedSums(m: Matrix, floor: real, target: Triple)
    requires floor > 0.0 && NoneBelow(m, floor) && target.Total() == 1.0
    ensures var r := Reweight(m, floor, target); r.Some? && SumsTo(r.value, target.home, target.draw, target.away)
  {
    OutcomeSums(m);
    ReweightHitsTarget(m, floor, target);
    OutcomeSums(Reweight(m, floor, target).value);
    hide Mass;
    hide CellSum;
    hide Reweight;
  }

  /** `project`: cell by cell, and with no outcome below 1e-15 the cells with more home goals sum to the home
      target, those with as many to the draw target, those with fewer to the away target. */
  lemma ProjectedSums(m: Matrix, target: Triple)
    ensures IsReweighted(m, 0.000000000000001, target, Project(m, target))
    ensures NoneBelow(m, 0.000000000000001) && target.home + target.draw + target.away == 1.0 ==>
              Project(m, target).Some? && SumsTo(Project(m, target).value, target.home, target.draw, target.away)
  {
    ReweightIsPlain(m, 0.000000000000001, target);
    if NoneBelow(m, 0.000000000000001) && target.home + target.draw + target.away == 1.0 {
      ReweightedSums(m, 0.000000000000001, target);
    }
    hide Reweight;
    hide NoneBelow;
    hide SumsTo;
    hide IsReweighted;
  }

  ghost predicate Distribution(t: Triple) {
    t.home >= 0.0 && t.draw >= 0.0 && t.away >= 0.0 && t.Total() == 1.0
  }

  /** Some class of a distribution has at least a third of the mass. */
  lemma LargeClass(t: Triple) returns (k: nat)
    requires Distribution(t)
    ensures k < 3 && t.At(k) >= 1.0 / 3.0
  {
    k := if t.home >= 1.0 / 3.0 then 0 else if t.draw >= 1.0 / 3.0 then 1 else 2;
  }

  // ---------- Matrices whose empty classes are empty ----------

  ghost predicate NonNegative(m: Matrix) {
    forall h, a :: 0 <= h < |m| && 0 <= a < |m[h]| ==> m[h][a] >= 0.0
  }

  lemma {:induction false} ZeroRow(row: seq<real>, h: nat, c: nat)
    requires forall a :: 0 <= a < |row| ==> row[a] >= 0.0
    ensures RowMass(row, h, c) >= 0.0
    ensures RowMass(row, h, c) == 0.0 ==> forall a :: 0 <= a < |row| && ClassOf(h, a) == c ==> row[a] == 0.0
  {
    if row != [] {
      ZeroRow(row[..|row| - 1], h, c);
    }
  }

  lemma {:induction false} ZeroClass(m: Matrix, c: nat)
    requires NonNegative(m)
    ensures Mass(m, c) >= 0.0
    ensures Mass(m, c) == 0.0 ==> forall h, a :: 0 <= h < |m| && 0 <= a < |m[h]| && ClassOf(h, a) == c ==>
              m[h][a] == 0.0
  {
    if m != [] {
      var h := |m| - 1;
      ZeroClass(m[..h], c);
      ZeroRow(m[h], h, c);
    }
  }

  ghost predicate EmptyClass(m: Matrix, c: nat) {
    forall h, a :: 0 <= h < |m| && 0 <= a < |m[h]| && ClassOf(h, a) == c ==> m[h][a] == 0.0
  }

  /** Every class has a positive mass or no positive cell. */
  ghost predicate Proper(m: Matrix) {
    forall c: nat :: c < 3 ==> Mass(m, c) > 0.0 || (Mass(m, c) == 0.0 && EmptyClass(m, c))
  }

  lemma NonNegativeProper(m: Matrix)
    requires NonNegative(m)
    ensures Proper(m)
  {
    forall c: nat | c < 3 ensures Mass(m, c) > 0.0 || (Mass(m, c) == 0.0 && EmptyClass(m, c)) {
      ZeroClass(m, c);
    }
  }

  lemma MulPositive(a: real, b: real)
    requires a > 0.0 && b >= 0.0
    ensures Mul(a, b) >= 0.0
    ensures b > 0.0 ==> Mul(a, b) > 0.0
  {
  }

  lemma MulInjective(a: real, b: real, c: real)
    requires a != 0.0
    ensures Mul(a, b) == Mul(a, c) ==> b == c
    ensures Mul(b, a) == Mul(c, a) ==> b == c
  {
    if a * b == a * c {
      CancelEq(a, b, c);
    }
    if b * a == c * a {
      CancelEq(a, b, c);
    }
  }

  /** What is left of a class mass p after division by EPS at least: 1, less below EPS, 0 for an empty class. */
  function Cut(p: real): real {
    Share(EPS, p)
  }

  lemma CutOf(p: real)
    requires p >= 0.0
    ensures 0.0 <= Cut(p) <= 1.0
    ensures p > 0.0 <==> Cut(p) > 0.0
    ensures Cut(p) == 1.0 <==> p >= EPS
  {
    ShareOf(EPS, p);
  }

  /** Total of a target over a prior before normalisation. */
  function CutTotal(prior: Triple, target: Triple): real {
    Shares(prior, EPS, target).Total()
  }

  lemma CutParts(prior: Triple, target: Triple)
    requires prior.home >= 0.0 && prior.draw >= 0.0 && prior.away >= 0.0
    requires target.home >= 0.0 && target.draw >= 0.0 && target.away >= 0.0
    ensures CutTotal(prior, target) == Mul(target.home, Cut(prior.home)) + Mul(target.draw, Cut(prior.draw))
                                       + Mul(target.away, Cut(prior.away))
    ensures forall c: nat :: c < 3 ==>
              0.0 <= Mul(target.At(c), Cut(prior.At(c))) <= CutTotal(prior, target)
              && (Mul(target.At(c), Cut(prior.At(c))) > 0.0 <==> target.At(c) > 0.0 && prior.At(c) > 0.0)
  {
    hide Mul;
    forall c: nat | c < 3
      ensures Mul(target.At(c), Cut(prior.At(c))) >= 0.0
      ensures Mul(target.At(c), Cut(prior.At(c))) > 0.0 <==> target.At(c) > 0.0 && prior.At(c) > 0.0
    {
      CutOf(prior.At(c));
      MulOne(target.At(c));
      MulOne(Cut(prior.At(c)));
      hide Cut;
      if target.At(c) > 0.0 {
        MulPositive(target.At(c), Cut(prior.At(c)));
      }
    }
    assert Mul(target.At(0), Cut(prior.At(0))) >= 0.0 && Mul(target.At(1), Cut(prior.At(1))) >= 0.0
           && Mul(target.At(2), Cut(prior.At(2))) >= 0.0;
  }

  lemma ProperMasses(m: Matrix)
    requires Proper(m)
    ensures Masses(m).home >= 0.0 && Masses(m).draw >= 0.0 && Masses(m).away >= 0.0
  {
    hide EmptyClass;
    assert Mass(m, 0) >= 0.0 && Mass(m, 1) >= 0.0 && Mass(m, 2) >= 0.0;
  }

  /** Masses of a projection: target times cut, over their total. */
  lemma ProjectedMasses(m: Matrix, s: Triple)
    requires Proper(m) && Distribution(s)
    ensures Project(m, s).Some? <==> CutTotal(Masses(m), s) > 0.0
    ensures Project(m, s).Some? ==>
              var e := Masses(Project(m, s).value);
              && (forall c: nat :: c < 3 ==>
                    Mul(e.At(c), CutTotal(Masses(m), s)) == Mul(s.At(c), Cut(Masses(m).At(c))))
              && Distribution(e)
              && forall c: nat :: c < 3 ==> (e.At(c) > 0.0 <==> s.At(c) > 0.0 && Masses(m).At(c) > 0.0)
  {
    hide Mul;
    hide Share;
    hide Mass;
    ProperMasses(m);
    CutParts(Masses(m), s);
    ReweightMasses(m, EPS, s, 0);
    ReweightMasses(m, EPS, s, 1);
    ReweightMasses(m, EPS, s, 2);
    var p, total := Masses(m), CutTotal(Masses(m), s);
    var parts := (c: nat) => Mul(s.At(c), Cut(p.At(c)));
    assert 0.0 <= parts(0) <= total && 0.0 <= parts(1) && 0.0 <= parts(2);
    if Project(m, s).Some? {
      var e := Masses(Project(m, s).value);
      hide Reweight;
      MassFromTotal(e.home, total, Mul(s.home, Cut(p.home)));
      MassFromTotal(e.draw, total, Mul(s.draw, Cut(p.draw)));
      MassFromTotal(e.away, total, Mul(s.away, Cut(p.away)));
      SumFromTotal(e, total);
    }
  }

  lemma MassFromTotal(x: real, total: real, part: real)
    requires total > 0.0 && part >= 0.0 && Mul(x, total) == part
    ensures x >= 0.0 && (x > 0.0 <==> part > 0.0)
  {
    assert x == part / total;
  }

  lemma SumFromTotal(e: Triple, total: real)
    requires total > 0.0 && Mul(e.home, total) + Mul(e.draw, total) + Mul(e.away, total) == total
    ensures e.Total() == 1.0
  {
    Distribute(e.home, e.draw, total);
    Distribute(e.home + e.draw, e.away, total);
    CancelEq(total, e.Total(), 1.0);
  }

  /** The masses that a projection will have, from the prior masses and the target alone. */
  function Expected(prior: Triple, target: Triple): Triple
    requires CutTotal(prior, target) != 0.0
  {
    var total := CutTotal(prior, target);
    Triple(Mul(target.home, Cut(prior.home)) / total, Mul(target.draw, Cut(prior.draw)) / total,
           Mul(target.away, Cut(prior.away)) / total)
  }

  lemma ProjectedIsExpected(m: Matrix, s: Triple)
    requires Proper(m) && Distribution(s)
    ensures Project(m, s).Some? <==> CutTotal(Masses(m), s) > 0.0
    ensures Project(m, s).Some? ==> Masses(Project(m, s).value) == Expected(Masses(m), s)
  {
    hide Mul;
    hide Share;
    hide Mass;
    hide Proper;
    ProjectedMasses(m, s);
    if Project(m, s).Some? {
      var p, e, total := Masses(m), Masses(Project(m, s).value), CutTotal(Masses(m), s);
      hide Reweight;
      assert forall c: nat :: c < 3 ==> Mul(e.At(c), total) == Mul(s.At(c), Cut(p.At(c)));
      QuotientOf(e.At(0), total, Mul(s.home, Cut(p.home)));
      QuotientOf(e.At(1), total, Mul(s.draw, Cut(p.draw)));
      QuotientOf(e.At(2), total, Mul(s.away, Cut(p.away)));
    }
  }

  lemma QuotientOf(x: real, total: real, part: real)
    requires total > 0.0 && Mul(x, total) == part
    ensures x == part / total
  {
  }

  // ---------- A projection is determined by its masses ----------

  /** A cell over its class mass is kept. */
  lemma ProjectedCell(m: Matrix, s: Triple, h: nat, a: nat)
    requires Proper(m) && Distribution(s) && Project(m, s).Some? && h < |m| && a < |m[h]|
    ensures var q := Project(m, s).value; var c := ClassOf(h, a);
            && |q| == |m| && |q[h]| == |m[h]|
            && Mul(q[h][a], Masses(m).At(c)) == Mul(m[h][a], Masses(q).At(c))
            && (m[h][a] == 0.0 ==> q[h][a] == 0.0)
  {
    hide Mul;
    hide Share;
    hide Mass;
    hide Ratio;
    var c := ClassOf(h, a);
    var q, p, total := Project(m, s).value, Masses(m), CutTotal(Masses(m), s);
    ProjectedMasses(m, s);
    ReweightCell(m, EPS, s, h, a);
    RatioIsShare(p.At(c), EPS, s.At(c));
    var r := Ratios(p, EPS, s).At(c);
    hide Reweight;
    hide Proper;
    RelativeCell(m[h][a], p.At(c), r, total, Masses(q).At(c));
    MulOne(r);
    MulOne(1.0 / total);
  }

  lemma RelativeCell(x: real, p: real, r: real, total: real, e: real)
    requires total > 0.0 && Mul(e, total) == Mul(p, r)
    ensures Mul(Mul(Mul(x, r), 1.0 / total), p) == Mul(x, e)
  {
    var k := 1.0 / total;
    assert total * k == 1.0;
    assert e == e * (total * k) == (e * total) * k == p * r * k;
  }

  lemma ProjectedProper(m: Matrix, s: Triple)
    requires Proper(m) && Distribution(s) && Project(m, s).Some?
    ensures Proper(Project(m, s).value)
  {
    hide Mul;
    hide Mass;
    var q := Project(m, s).value;
    ProjectedMasses(m, s);
    forall c: nat | c < 3 && Mass(q, c) == 0.0 ensures EmptyClass(q, c) {
      assert |q| == |m|;
      forall h, a | 0 <= h < |q| && 0 <= a < |q[h]| && ClassOf(h, a) == c ensures q[h][a] == 0.0 {
        ProjectedEmpty(m, s, h, a);
      }
    }
    assert forall c: nat :: c < 3 ==> Mass(q, c) == Masses(q).At(c);
  }

  lemma ProjectedEmpty(m: Matrix, s: Triple, h: nat, a: nat)
    requires Proper(m) && Distribution(s) && Project(m, s).Some? && h < |m|
    requires var q := Project(m, s).value;
             |q| == |m| && a < |q[h]| && Masses(q).At(ClassOf(h, a)) == 0.0
    ensures Project(m, s).value[h][a] == 0.0
  {
    hide Mul;
    hide Mass;
    hide Share;
    var q, c := Project(m, s).value, ClassOf(h, a);
    assert |q[h]| == |m[h]|;
    ProjectedCell(m, s, h, a);
    hide Reweight;
    MulOne(m[h][a]);
    if Masses(m).At(c) > 0.0 {
      NoProduct(q[h][a], Masses(m).At(c));
    } else {
      assert Mass(m, c) == Masses(m).At(c) && EmptyClass(m, c);
    }
  }

  lemma NoProduct(x: real, p: real)
    requires p > 0.0 && Mul(x, p) == 0.0
    ensures x == 0.0
  {
    CancelEq(p, x, 0.0);
  }

  lemma SameCells(q: Matrix, r: Matrix)
    requires |q| == |r|
    requires forall h :: 0 <= h < |q| ==> |q[h]| == |r[h]|
    requires forall h, a :: 0 <= h < |q| && 0 <= a < |q[h]| ==> q[h][a] == r[h][a]
    ensures q == r
  {
    forall h | 0 <= h < |q| ensures q[h] == r[h] {
    }
  }

  /** Two projections in a row give the matrix of one projection as soon as they give its masses. */
  lemma SameMassesSameMatrix(m: Matrix, s: Triple, t: Triple, u: Triple)
    requires Proper(m) && Distribution(s) && Distribution(t) && Distribution(u)
    requires Project(m, s).Some? && Project(m, u).Some? && Project(Project(m, s).value, t).Some?
    requires Masses(Project(Project(m, s).value, t).value) == Masses(Project(m, u).value)
    ensures Project(Project(m, s).value, t) == Project(m, u)
  {
    var q, d := Project(m, s).value, Project(m, u).value;
    var r := Project(q, t).value;
    ProjectedProper(m, s);
    assert |d| == |q| == |r| == |m|;
    assert forall h :: 0 <= h < |m| ==> |d[h]| == |q[h]| == |r[h]| == |m[h]|;
    hide Reweight;
    hide Proper;
    hide Masses;
    forall h, a | 0 <= h < |r| && 0 <= a < |r[h]| ensures r[h][a] == d[h][a] {
      SameCell(m, s, t, u, h, a);
    }
    SameCells(r, d);
  }

  lemma SameCell(m: Matrix, s: Triple, t: Triple, u: Triple, h: nat, a: nat)
    requires Proper(m) && Distribution(s) && Distribution(t) && Distribution(u)
    requires Project(m, s).Some? && Project(m, u).Some? && Project(Project(m, s).value, t).Some?
    requires Masses(Project(Project(m, s).value, t).value) == Masses(Project(m, u).value)
    requires h < |m| && a < |m[h]|
    ensures var r, d := Project(Project(m, s).value, t).value, Project(m, u).value;
            |r| == |d| == |m| && |r[h]| == |d[h]| == |m[h]| && r[h][a] == d[h][a]
  {
    hide Mul;
    hide Share;
    hide Mass;
    var c := ClassOf(h, a);
    ProjectedProper(m, s);
    var q, d := Project(m, s).value, Project(m, u).value;
    ProjectedCell(m, s, h, a);
    ProjectedCell(m, u, h, a);
    ProjectedCell(q, t, h, a);
    ProjectedMasses(q, t);
    ProjectedMasses(m, s);
    var r := Project(q, t).value;
    hide Reweight;
    if Masses(m).At(c) > 0.0 {
      if Masses(q).At(c) > 0.0 {
        CellChain(m[h][a], q[h][a], r[h][a], d[h][a], Masses(m).At(c), Masses(q).At(c), Masses(d).At(c));
      } else {
        assert Masses(d).At(c) == 0.0;
        MulOne(m[h][a]);
        NoProduct(q[h][a], Masses(m).At(c));
        NoProduct(d[h][a], Masses(m).At(c));
      }
    } else {
      assert Mass(m, c) == Masses(m).At(c) && EmptyClass(m, c);
    }
  }

  lemma CellChain(x: real, q: real, r: real, d: real, p: real, e: real, f: real)
    requires p > 0.0 && e > 0.0
    requires Mul(q, p) == Mul(x, e) && Mul(r, e) == Mul(q, f) && Mul(d, p) == Mul(x, f)
    ensures r == d
  {
    assert (r * e) * p == (q * f) * p == (q * p) * f == (x * e) * f == (x * f) * e == (d * p) * e;
    assert (e * p) * r == (e * p) * d;
    CancelEq(e * p, r, d);
  }

  // ---------- When a second projection forgets the first ----------

  /** On the classes of a target, two priors are cut in the same proportion. */
  ghost predicate CutAlike(t: Triple, prior: Triple, other: Triple) {
    forall c: nat, k: nat :: c < 3 && k < 3 && t.At(c) > 0.0 && t.At(k) > 0.0 ==>
      Mul(Cut(other.At(c)), Cut(prior.At(k))) == Mul(Cut(other.At(k)), Cut(prior.At(c)))
  }

  /** The same with the totals of the target. */
  ghost predicate CutByTotals(t: Triple, prior: Triple, other: Triple) {
    forall c: nat :: c < 3 && t.At(c) > 0.0 ==>
      Mul(Cut(other.At(c)), CutTotal(prior, t)) == Mul(Cut(prior.At(c)), CutTotal(other, t))
  }

  lemma AlikeIffTotals(t: Triple, prior: Triple, other: Triple)
    requires t.home >= 0.0 && t.draw >= 0.0 && t.away >= 0.0 && CutTotal(prior, t) > 0.0
    ensures CutAlike(t, prior, other) <==> CutByTotals(t, prior, other)
  {
    hide Share;
    if CutAlike(t, prior, other) {
      forall c: nat | c < 3 && t.At(c) > 0.0
        ensures Mul(Cut(other.At(c)), CutTotal(prior, t)) == Mul(Cut(prior.At(c)), CutTotal(other, t))
      {
        AlikeTerm(t, prior, other, c, 0);
        AlikeTerm(t, prior, other, c, 1);
        AlikeTerm(t, prior, other, c, 2);
        TermsOfTotal(t, prior, Cut(other.At(c)));
        TermsOfTotal(t, other, Cut(prior.At(c)));
        hide Mul;
        hide Cut;
        hide CutTotal;
      }
    }
    if CutByTotals(t, prior, other) {
      forall c: nat, k: nat | c < 3 && k < 3 && t.At(c) > 0.0 && t.At(k) > 0.0
        ensures Mul(Cut(other.At(c)), Cut(prior.At(k))) == Mul(Cut(other.At(k)), Cut(prior.At(c)))
      {
        hide CutAlike;
        hide CutTotal;
        hide Cut;
        CrossTotals(Cut(other.At(c)), Cut(other.At(k)), Cut(prior.At(c)), Cut(prior.At(k)), CutTotal(prior, t),
                    CutTotal(other, t));
      }
    }
  }

  lemma CrossTotals(bc: real, bk: real, ac: real, ak: real, total: real, other: real)
    requires total > 0.0 && Mul(bc, total) == Mul(ac, other) && Mul(bk, total) == Mul(ak, other)
    ensures Mul(bc, ak) == Mul(bk, ac)
  {
    assert total * (bc * ak) == (bc * total) * ak == (ac * other) * ak == (ak * other) * ac == (bk * total) * ac;
    CancelEq(total, bc * ak, bk * ac);
  }

  lemma AlikeTerm(t: Triple, prior: Triple, other: Triple, c: nat, k: nat)
    requires CutAlike(t, prior, other) && c < 3 && k < 3 && t.At(c) > 0.0 && t.At(k) >= 0.0
    ensures Mul(Cut(other.At(c)), Mul(t.At(k), Cut(prior.At(k))))
             == Mul(Cut(prior.At(c)), Mul(t.At(k), Cut(other.At(k))))
  {
    hide Cut;
    if t.At(k) > 0.0 {
      assert Mul(Cut(other.At(c)), Cut(prior.At(k))) == Mul(Cut(other.At(k)), Cut(prior.At(c)));
      hide CutAlike;
      Swap(t.At(k), Cut(other.At(c)), Cut(prior.At(k)), Cut(other.At(k)), Cut(prior.At(c)));
    }
  }

  lemma Swap(t: real, b: real, a: real, b': real, a': real)
    requires Mul(b, a) == Mul(b', a')
    ensures Mul(b, Mul(t, a)) == Mul(a', Mul(t, b'))
  {
    assert b * (t * a) == t * (b * a) == t * (b' * a') == a' * (t * b');
  }

  lemma TermsOfTotal(t: Triple, prior: Triple, x: real)
    ensures Mul(x, CutTotal(prior, t)) == Mul(x, Mul(t.home, Cut(prior.home))) + Mul(x, Mul(t.draw, Cut(prior.draw)))
                                          + Mul(x, Mul(t.away, Cut(prior.away)))
  {
    var a, b, c := Mul(t.home, Cut(prior.home)), Mul(t.draw, Cut(prior.draw)), Mul(t.away, Cut(prior.away));
    assert CutTotal(prior, t) == a + b + c;
    hide CutTotal;
    hide Cut;
    Distribute(a, b, x);
    Distribute(a + b, c, x);
  }

  /** When both exist, projecting a projection equals projecting the matrix exactly when both priors are cut alike
      on the classes of the second target. */
  lemma ReprojectIff(m: Matrix, s: Triple, t: Triple)
    requires Proper(m) && Distribution(s) && Distribution(t)
    requires Project(m, s).Some? && Project(m, t).Some? && Project(Project(m, s).value, t).Some?
    ensures Project(Project(m, s).value, t) == Project(m, t)
            <==> CutAlike(t, Masses(m), Masses(Project(m, s).value))
  {
    var q, d := Project(m, s).value, Project(m, t).value;
    var r := Project(q, t).value;
    ProjectedProper(m, s);
    ProjectedMasses(m, s);
    ProjectedMasses(m, t);
    ProjectedMasses(q, t);
    var p, e := Masses(m), Masses(q);
    AlikeIffTotals(t, p, e);
    if CutByTotals(t, p, e) {
      forall c: nat | c < 3 ensures Masses(r).At(c) == Masses(d).At(c) {
        MassesMeet(t.At(c), Cut(p.At(c)), Cut(e.At(c)), CutTotal(p, t), CutTotal(e, t), Masses(d).At(c),
                   Masses(r).At(c));
      }
      SameTriple(Masses(r), Masses(d));
      SameMassesSameMatrix(m, s, t, t);
    }
    if r == d {
      forall c: nat | c < 3 && t.At(c) > 0.0
        ensures Mul(Cut(e.At(c)), CutTotal(p, t)) == Mul(Cut(p.At(c)), CutTotal(e, t))
      {
        TotalsMeet(t.At(c), Cut(p.At(c)), Cut(e.At(c)), CutTotal(p, t), CutTotal(e, t), Masses(d).At(c));
      }
    }
  }

  lemma SameTriple(a: Triple, b: Triple)
    requires forall c: nat :: c < 3 ==> a.At(c) == b.At(c)
    ensures a == b
  {
    assert a.At(0) == b.At(0) && a.At(1) == b.At(1) && a.At(2) == b.At(2);
  }

  lemma MassesMeet(t: real, a: real, b: real, totalA: real, totalB: real, x: real, y: real)
    requires totalA > 0.0 && totalB > 0.0 && Mul(x, totalA) == Mul(t, a) && Mul(y, totalB) == Mul(t, b)
    requires t > 0.0 ==> Mul(b, totalA) == Mul(a, totalB)
    requires t >= 0.0
    ensures y == x
  {
    if t > 0.0 {
      assert (totalA * totalB) * y == (t * b) * totalA == t * (a * totalB) == (totalA * totalB) * x;
    } else {
      assert (totalA * totalB) * y == 0.0 == (totalA * totalB) * x;
    }
    CancelEq(totalA * totalB, y, x);
  }

  lemma TotalsMeet(t: real, a: real, b: real, totalA: real, totalB: real, x: real)
    requires t > 0.0 && Mul(x, totalA) == Mul(t, a) && Mul(x, totalB) == Mul(t, b)
    ensures Mul(b, totalA) == Mul(a, totalB)
  {
    assert t * (b * totalA) == (x * totalB) * totalA == (x * totalA) * totalB == t * (a * totalB);
    CancelEq(t, b * totalA, a * totalB);
  }

  // ---------- Projecting twice onto the same target ----------

  lemma IdempotentByMasses(m: Matrix, s: Triple)
    requires Proper(m) && Distribution(s) && Project(m, s).Some?
    ensures Project(Project(m, s).value, s) == Project(m, s)
            <==> CutAlike(s, Masses(m), Masses(Project(m, s).value))
  {
    var q := Project(m, s).value;
    ProjectedProper(m, s);
    ProjectedMasses(m, s);
    ProjectedMasses(q, s);
    ProperMasses(q);
    CutParts(Masses(q), s);
    var k := LargeClass(Masses(q));
    hide Mul;
    hide Mass;
    hide Proper;
    hide Reweight;
    ReprojectIff(m, s, s);
  }

  /** For every matrix that can be projected: projecting twice changes nothing exactly when the floor EPS cuts the
      prior masses and the expected ones in the same proportion, on the classes of the target. */
  lemma IdempotentIff(m: Matrix, s: Triple)
    requires Proper(m) && Distribution(s) && CutTotal(Masses(m), s) > 0.0
    ensures Project(m, s).Some?
    ensures Project(Project(m, s).value, s) == Project(m, s)
            <==> CutAlike(s, Masses(m), Expected(Masses(m), s))
  {
    ProjectedIsExpected(m, s);
    hide Reweight;
    hide Proper;
    hide Expected;
    hide CutAlike;
    IdempotentByMasses(m, s);
  }

  /** A class mass that the floor leaves alone. */
  predicate Settled(p: real) {
    p == 0.0 || p >= EPS
  }

  ghost predicate AllSettled(p: Triple) {
    Settled(p.home) && Settled(p.draw) && Settled(p.away)
  }

  lemma SettledCut(p: real)
    requires p >= 0.0
    ensures Settled(p) <==> Cut(p) == 0.0 || Cut(p) == 1.0
    ensures Settled(p) ==> Cut(p) == if p == 0.0 then 0.0 else 1.0
  {
    CutOf(p);
    hide Cut;
  }

  lemma MulOfBits(a: real, b: real)
    requires (a == 0.0 || a == 1.0) && (b == 0.0 || b == 1.0)
    ensures Mul(a, b) == if a == 1.0 && b == 1.0 then 1.0 else 0.0
  {
  }

  /** What the target gives to the classes that have mass. */
  function Reached(prior: Triple, target: Triple): real {
    (if prior.home > 0.0 then target.home else 0.0) + (if prior.draw > 0.0 then target.draw else 0.0)
    + if prior.away > 0.0 then target.away else 0.0
  }

  /** With every class empty or at least EPS nothing is cut: the target is shared among the classes with mass. */
  lemma ReachedTotal(prior: Triple, s: Triple)
    requires prior.home >= 0.0 && prior.draw >= 0.0 && prior.away >= 0.0 && AllSettled(prior)
    ensures CutTotal(prior, s) == Reached(prior, s)
    ensures Reached(prior, s) > 0.0 ==>
              forall c: nat :: c < 3 ==>
                Expected(prior, s).At(c) == if prior.At(c) > 0.0 then s.At(c) / Reached(prior, s) else 0.0
  {
    SettledCut(prior.home);
    SettledCut(prior.draw);
    SettledCut(prior.away);
    MulOne(s.home);
    MulOne(s.draw);
    MulOne(s.away);
    hide Cut;
    hide Mul;
    TotalOfCuts(prior, s);
    hide CutTotal;
    if Reached(prior, s) > 0.0 {
      DivTimes(0.0, Reached(prior, s));
    }
  }

  lemma TotalOfCuts(prior: Triple, s: Triple)
    ensures CutTotal(prior, s) == Mul(s.home, Cut(prior.home)) + Mul(s.draw, Cut(prior.draw))
                                  + Mul(s.away, Cut(prior.away))
  {
  }

  lemma ShareAtLeast(x: real, total: real, floor: real)
    requires total > 0.0
    ensures x / total >= floor <==> x >= Mul(floor, total)
    ensures x / total == 0.0 <==> x == 0.0
  {
    DivTimes(x, total);
    if x / total >= floor {
      ScaleLe(total, floor, x / total);
    } else {
      ScaleLt(total, x / total, floor);
    }
  }

  lemma SettledByMasses(m: Matrix, s: Triple)
    requires Proper(m) && AllSettled(Masses(m)) && Distribution(s) && Project(m, s).Some?
    ensures Project(Project(m, s).value, s) == Project(m, s) <==> AllSettled(Masses(Project(m, s).value))
  {
    IdempotentByMasses(m, s);
    ProjectedMasses(m, s);
    ProperMasses(m);
    var p, e := Masses(m), Masses(Project(m, s).value);
    var k := LargeClass(e);
    hide Mul;
    hide Mass;
    hide Proper;
    hide Reweight;
    hide Cut;
    hide Settled;
    forall c: nat | c < 3
      ensures Settled(p.At(c)) && Cut(p.At(c)) == if p.At(c) == 0.0 then 0.0 else 1.0
      ensures Settled(e.At(c)) <==> Cut(e.At(c)) == 0.0 || Cut(e.At(c)) == 1.0
      ensures Settled(e.At(c)) ==> Cut(e.At(c)) == if e.At(c) == 0.0 then 0.0 else 1.0
    {
      SettledCut(p.At(c));
      SettledCut(e.At(c));
    }
    SettledAt(e);
    if CutAlike(s, p, e) {
      forall c: nat | c < 3 ensures Settled(e.At(c)) {
        CutOf(e.At(k));
        CutOf(e.At(c));
        if s.At(c) > 0.0 {
          assert Mul(Cut(e.At(c)), Cut(p.At(k))) == Mul(Cut(e.At(k)), Cut(p.At(c)));
          MulOne(Cut(e.At(c)));
          MulOne(Cut(p.At(c)));
        }
      }
    }
    if AllSettled(e) {
      forall c: nat, k: nat | c < 3 && k < 3 && s.At(c) > 0.0 && s.At(k) > 0.0
        ensures Mul(Cut(e.At(c)), Cut(p.At(k))) == Mul(Cut(e.At(k)), Cut(p.At(c)))
      {
        MulOfBits(Cut(e.At(c)), Cut(p.At(k)));
        MulOfBits(Cut(e.At(k)), Cut(p.At(c)));
      }
    }
  }

  lemma SettledAt(e: Triple)
    ensures AllSettled(e) <==> forall c: nat :: c < 3 ==> Settled(e.At(c))
  {
    hide Settled;
    assert e.At(0) == e.home && e.At(1) == e.draw && e.At(2) == e.away;
  }

  /** When every class of the matrix is empty or at least EPS: when no class with mass is given a share strictly
      between 0 and EPS of what the classes with mass are given. */
  lemma IdempotentSettled(m: Matrix, s: Triple)
    requires Proper(m) && AllSettled(Masses(m)) && Distribution(s) && Reached(Masses(m), s) > 0.0
    ensures Project(m, s).Some?
    ensures Project(Project(m, s).value, s) == Project(m, s)
            <==> forall c: nat :: c < 3 && Masses(m).At(c) > 0.0 ==>
                   s.At(c) == 0.0 || s.At(c) >= Mul(EPS, Reached(Masses(m), s))
  {
    ProperMasses(m);
    ProjectedIsExpected(m, s);
    ReachedTotal(Masses(m), s);
    var p, total := Masses(m), Reached(Masses(m), s);
    SettledByMasses(m, s);
    var e := Expected(p, s);
    SettledAt(e);
    hide Mul;
    hide Mass;
    hide Proper;
    hide Reweight;
    hide Reached;
    hide Expected;
    hide CutTotal;
    forall c: nat | c < 3
      ensures Settled(e.At(c)) <==> (p.At(c) > 0.0 ==> s.At(c) == 0.0 || s.At(c) >= Mul(EPS, total))
    {
      ShareAtLeast(s.At(c), total, EPS);
    }
  }

  // ---------- Projecting onto one target after another ----------

  function Halves(c: nat, k: nat): Triple {
    Triple(if c == 0 || k == 0 then 0.5 else 0.0,
           if c == 1 || k == 1 then 0.5 else 0.0,
           if c == 2 || k == 2 then 0.5 else 0.0)
  }

  /** On all classes, whatever the target. */
  ghost predicate CutAlikeAll(prior: Triple, other: Triple) {
    forall c: nat, k: nat :: c < 3 && k < 3 ==>
      Mul(Cut(other.At(c)), Cut(prior.At(k))) == Mul(Cut(other.At(k)), Cut(prior.At(c)))
  }

  lemma ComposesByMasses(m: Matrix, s: Triple)
    requires Proper(m) && Distribution(s) && Project(m, s).Some?
    ensures (forall t :: Distribution(t) ==> Project(Project(m, s).value, t) == Project(m, t))
            <==> CutAlikeAll(Masses(m), Masses(Project(m, s).value))
  {
    var q := Project(m, s).value;
    ProjectedProper(m, s);
    if CutAlikeAll(Masses(m), Masses(q)) {
      forall t | Distribution(t) ensures Project(q, t) == Project(m, t) {
        AlikeComposes(m, s, t);
      }
    }
    if forall t :: Distribution(t) ==> Project(q, t) == Project(m, t) {
      forall c: nat, k: nat | c < 3 && k < 3
        ensures Mul(Cut(Masses(q).At(c)), Cut(Masses(m).At(k))) == Mul(Cut(Masses(q).At(k)), Cut(Masses(m).At(c)))
      {
        assert Distribution(Halves(c, if c == k then (c + 1) % 3 else k));
        ComposesAlike(m, s, c, k);
      }
    }
  }

  lemma AlikeComposes(m: Matrix, s: Triple, t: Triple)
    requires Proper(m) && Distribution(s) && Distribution(t) && Project(m, s).Some?
    requires Proper(Project(m, s).value) && CutAlikeAll(Masses(m), Masses(Project(m, s).value))
    ensures Project(Project(m, s).value, t) == Project(m, t)
  {
    var q := Project(m, s).value;
    var p, e := Masses(m), Masses(q);
    ProjectedMasses(m, s);
    ProjectedMasses(m, t);
    ProjectedMasses(q, t);
    ProperMasses(m);
    ProperMasses(q);
    CutParts(p, t);
    CutParts(e, t);
    var k := LargeClass(e);
    hide Mul;
    hide Mass;
    hide Proper;
    hide Reweight;
    hide Cut;
    hide CutTotal;
    forall c: nat | c < 3 ensures e.At(c) > 0.0 <==> p.At(c) > 0.0 {
      CutOf(e.At(c));
      CutOf(p.At(c));
      CutOf(e.At(k));
      assert Mul(Cut(e.At(c)), Cut(p.At(k))) == Mul(Cut(e.At(k)), Cut(p.At(c)));
      MulOne(Cut(p.At(c)));
      if e.At(c) == 0.0 {
        MulOne(Cut(p.At(k)));
      }
    }
    assert CutAlike(t, p, e);
    hide CutAlike;
    hide CutAlikeAll;
    if Project(m, t).Some? {
      var c := PositiveTerm(p, t);
      ReprojectIff(m, s, t);
    } else if Project(q, t).Some? {
      var c := PositiveTerm(e, t);
      assert false;
    }
  }

  /** A positive total has a positive term. */
  lemma PositiveTerm(prior: Triple, t: Triple) returns (c: nat)
    requires prior.home >= 0.0 && prior.draw >= 0.0 && prior.away >= 0.0
    requires t.home >= 0.0 && t.draw >= 0.0 && t.away >= 0.0 && CutTotal(prior, t) > 0.0
    ensures c < 3 && t.At(c) > 0.0 && prior.At(c) > 0.0
  {
    CutParts(prior, t);
    hide Mul;
    hide Cut;
    hide CutTotal;
    c := if Mul(t.At(0), Cut(prior.At(0))) > 0.0 then 0 else if Mul(t.At(1), Cut(prior.At(1))) > 0.0 then 1 else 2;
  }

  lemma ComposesAlike(m: Matrix, s: Triple, c: nat, k: nat)
    requires Proper(m) && Distribution(s) && Project(m, s).Some? && Proper(Project(m, s).value) && c < 3 && k < 3
    requires var t := Halves(c, if c == k then (c + 1) % 3 else k);
             Distribution(t) && Project(Project(m, s).value, t) == Project(m, t)
    ensures var q := Project(m, s).value;
            Mul(Cut(Masses(q).At(c)), Cut(Masses(m).At(k))) == Mul(Cut(Masses(q).At(k)), Cut(Masses(m).At(c)))
  {
    if c != k {
      var q, t := Project(m, s).value, Halves(c, k);
      var p, e := Masses(m), Masses(q);
      assert t.At(c) > 0.0 && t.At(k) > 0.0;
      if Project(m, t).Some? {
        ReprojectIff(m, s, t);
        hide Mul;
        hide Cut;
        hide Reweight;
        assert CutAlike(t, p, e);
      } else {
        ProjectedMasses(m, t);
        ProperMasses(m);
        CutParts(p, t);
        CutOf(p.At(c));
        CutOf(p.At(k));
        hide Mul;
        hide Cut;
        hide Reweight;
        hide CutTotal;
        assert p.At(c) == 0.0 && p.At(k) == 0.0;
        MulOne(Cut(e.At(c)));
        MulOne(Cut(e.At(k)));
      }
    }
  }

  /** For every matrix that can be projected: the first target is forgotten, for every second one, exactly when the
      floor cuts the prior masses and the expected ones in the same proportion. */
  lemma ComposesIff(m: Matrix, s: Triple)
    requires Proper(m) && Distribution(s) && CutTotal(Masses(m), s) > 0.0
    ensures Project(m, s).Some?
    ensures (forall t :: Distribution(t) ==> Project(Project(m, s).value, t) == Project(m, t))
            <==> CutAlikeAll(Masses(m), Expected(Masses(m), s))
  {
    ProjectedIsExpected(m, s);
    hide Project;
    hide Proper;
    hide Expected;
    hide CutAlikeAll;
    ComposesByMasses(m, s);
  }

  lemma KeptByMasses(m: Matrix, s: Triple)
    requires Proper(m) && AllSettled(Masses(m)) && Distribution(s) && Project(m, s).Some?
    ensures (forall t :: Distribution(t) ==> Project(Project(m, s).value, t) == Project(m, t))
            <==> forall c: nat :: c < 3 && Masses(m).At(c) > 0.0 ==> Masses(Project(m, s).value).At(c) >= EPS
  {
    ComposesByMasses(m, s);
    ProjectedMasses(m, s);
    ProperMasses(m);
    var p, e := Masses(m), Masses(Project(m, s).value);
    var k := LargeClass(e);
    hide Mul;
    hide Mass;
    hide Proper;
    hide Reweight;
    hide Project;
    hide Cut;
    hide Settled;
    SettledAt(p);
    forall c: nat | c < 3
      ensures Cut(p.At(c)) == if p.At(c) == 0.0 then 0.0 else 1.0
      ensures 0.0 <= Cut(e.At(c)) <= 1.0 && (Cut(e.At(c)) == 1.0 <==> e.At(c) >= EPS)
      ensures e.At(c) > 0.0 <==> Cut(e.At(c)) > 0.0
    {
      SettledCut(p.At(c));
      CutOf(e.At(c));
    }
    if CutAlikeAll(p, e) {
      forall c: nat | c < 3 && p.At(c) > 0.0 ensures e.At(c) >= EPS {
        assert Mul(Cut(e.At(c)), Cut(p.At(k))) == Mul(Cut(e.At(k)), Cut(p.At(c)));
        MulOne(Cut(e.At(c)));
        MulOne(Cut(p.At(c)));
      }
    }
    if forall c: nat :: c < 3 && p.At(c) > 0.0 ==> e.At(c) >= EPS {
      forall c: nat, k: nat | c < 3 && k < 3
        ensures Mul(Cut(e.At(c)), Cut(p.At(k))) == Mul(Cut(e.At(k)), Cut(p.At(c)))
      {
        MulOfBits(Cut(e.At(c)), Cut(p.At(k)));
        MulOfBits(Cut(e.At(k)), Cut(p.At(c)));
      }
    }
  }

  /** When every class of the matrix is empty or at least EPS: when every class with mass is given at least that
      share. */
  lemma ComposesSettled(m: Matrix, s: Triple)
    requires Proper(m) && AllSettled(Masses(m)) && Distribution(s) && Reached(Masses(m), s) > 0.0
    ensures Project(m, s).Some?
    ensures (forall t :: Distribution(t) ==> Project(Project(m, s).value, t) == Project(m, t))
            <==> forall c: nat :: c < 3 && Masses(m).At(c) > 0.0 ==> s.At(c) >= Mul(EPS, Reached(Masses(m), s))
  {
    ProperMasses(m);
    ProjectedIsExpected(m, s);
    ReachedTotal(Masses(m), s);
    var p, total := Masses(m), Reached(Masses(m), s);
    KeptByMasses(m, s);
    var e := Expected(p, s);
    hide Project;
    hide Mul;
    hide Mass;
    hide Proper;
    hide Reached;
    hide Expected;
    hide CutTotal;
    forall c: nat | c < 3 && p.At(c) > 0.0 ensures e.At(c) >= EPS <==> s.At(c) >= Mul(EPS, total) {
      ShareAtLeast(s.At(c), total, EPS);
    }
  }

  /** With no class below EPS: idempotent exactly when no target class lies strictly between 0 and EPS, and
      forgetting exactly when none lies below EPS. */
  lemma FullPriors(m: Matrix, s: Triple)
    requires AllAtLeast(Masses(m), EPS) && Distribution(s)
    ensures Project(m, s).Some?
    ensures Project(Project(m, s).value, s) == Project(m, s) <==> AllSettled(s)
    ensures (forall t :: Distribution(t) ==> Project(Project(m, s).value, t) == Project(m, t)) <==> AllAtLeast(s, EPS)
  {
    hide *;
    FullFacts(m, s);
    IdempotentSettled(m, s);
    ComposesSettled(m, s);
    FullConditions(Masses(m), s);
  }

  /** Where every class has mass the conditions are on the target alone. */
  lemma FullConditions(p: Triple, s: Triple)
    requires Reached(p, s) == 1.0 && forall c: nat :: c < 3 ==> p.At(c) > 0.0
    ensures (forall c: nat :: c < 3 && p.At(c) > 0.0 ==> s.At(c) == 0.0 || s.At(c) >= Mul(EPS, Reached(p, s)))
       <==> AllSettled(s)
    ensures (forall c: nat :: c < 3 && p.At(c) > 0.0 ==> s.At(c) >= Mul(EPS, Reached(p, s))) <==> AllAtLeast(s, EPS)
  {
    hide Reached;
    MulOne(EPS);
    hide Mul;
    SettledAt(s);
    assert s.At(0) == s.home && s.At(1) == s.draw && s.At(2) == s.away;
  }

  lemma FullFacts(m: Matrix, s: Triple)
    requires AllAtLeast(Masses(m), EPS) && Distribution(s)
    ensures Proper(m) && AllSettled(Masses(m)) && Reached(Masses(m), s) == 1.0
    ensures forall c: nat :: c < 3 ==> Masses(m).At(c) > 0.0
  {
  }

  // ---------- Targets below the floor ----------

  const QUARTERS: Matrix := [[0.25, 0.25], [0.25, 0.25]]

  /** A target with half of EPS for the home side. */
  const TINY: Triple := Triple(EPS / 2.0, 0.5, 0.5 - EPS / 2.0)

  lemma QuartersMasses()
    ensures Masses(QUARTERS) == Triple(0.25, 0.5, 0.25) && Distribution(TINY)
  {
    var a: seq<real> := [0.25, 0.25];
    assert QUARTERS[..1] == [a] && [a][..0] == [] && a[..1] == [0.25] && a[..1][..0] == [];
    assert forall h: nat, c: nat ::
        RowMass(a, h, c) == RowMass(a[..1], h, c) + (if ClassOf(h, 1) == c then 0.25 else 0.0);
    assert forall h: nat, c: nat :: RowMass(a[..1], h, c) == if ClassOf(h, 0) == c then 0.25 else 0.0;
    assert forall c: nat :: Mass([a], c) == RowMass(a, 0, c);
    assert forall c: nat :: Mass(QUARTERS, c) == Mass([a], c) + RowMass(a, 1, c);
  }

  /** On it, a uniform matrix is projected twice with two results, and the first target is not forgotten. */
  lemma TinyTargetFails()
    ensures Project(QUARTERS, TINY).Some?
    ensures Project(Project(QUARTERS, TINY).value, TINY) != Project(QUARTERS, TINY)
    ensures exists t :: Distribution(t) && Project(Project(QUARTERS, TINY).value, t) != Project(QUARTERS, t)
  {
    QuartersMasses();
    hide Project;
    hide Masses;
    FullPriors(QUARTERS, TINY);
  }

  // ---------- The in-place loop and its coarser floor ----------

  predicate ClearOfFloor(p: real) {
    p == 0.0 || p >= LOOP_FLOOR
  }

  lemma SameScaling(m: Matrix, t: Triple)
    requires NonNegative(m)
    requires ClearOfFloor(Mass(m, 0)) && ClearOfFloor(Mass(m, 1)) && ClearOfFloor(Mass(m, 2))
    ensures Scaled(m, Ratios(Masses(m), LOOP_FLOOR, t)) == Scaled(m, Ratios(Masses(m), EPS, t))
  {
    hide Mul;
    var r, r' := Ratios(Masses(m), LOOP_FLOOR, t), Ratios(Masses(m), EPS, t);
    var x, y := Scaled(m, r), Scaled(m, r');
    forall h, a | 0 <= h < |x| && 0 <= a < |x[h]| ensures x[h][a] == y[h][a] {
      var c := ClassOf(h, a);
      if Masses(m).At(c) == 0.0 {
        ZeroClass(m, c);
        MulOne(r.At(c));
        MulOne(r'.At(c));
      }
    }
    SameCells(x, y);
  }

  lemma SharesDiffer(p: real)
    requires 0.0 < p < LOOP_FLOOR
    ensures Share(LOOP_FLOOR, p) != Share(EPS, p)
  {
    ShareOf(LOOP_FLOOR, p);
    ShareOf(EPS, p);
    if p < EPS {
      QuotientsDiffer(p, LOOP_FLOOR, EPS);
    }
  }

  lemma QuotientsDiffer(p: real, a: real, b: real)
    requires p > 0.0 && a > b > 0.0
    ensures p / a != p / b
  {
    DivTimes(p, a);
    DivTimes(p, b);
    if p / a == p / b {
      ScaleLt(p / a, b, a);
      assert false;
    }
  }

  lemma PositiveTotal(m: Matrix, floor: real, t: Triple)
    requires floor > 0.0 && NonNegative(m) && Distribution(Masses(m)) && floor <= 0.25
    requires t.home > 0.0 && t.draw > 0.0 && t.away > 0.0
    ensures Shares(Masses(m), floor, t).Total() > 0.0
  {
    hide Mul;
    hide Share;
    var k := LargeClass(Masses(m));
    forall c: nat | c < 3 ensures Share(floor, Masses(m).At(c)) >= 0.0 {
      ShareOf(floor, Masses(m).At(c));
    }
    ShareOf(floor, Masses(m).At(k));
    MulPositive(t.home, Share(floor, Masses(m).At(0)));
    MulPositive(t.draw, Share(floor, Masses(m).At(1)));
    MulPositive(t.away, Share(floor, Masses(m).At(2)));
  }

  /** The loop with its floor of 1e-12 gives the same matrix as `project` exactly when no prior mass lies
      strictly between 0 and that floor. */
  lemma LoopIsProjectIff(m: Matrix, t: Triple)
    requires NonNegative(m) && GrandTotal(m) == 1.0
    requires t.home > 0.0 && t.draw > 0.0 && t.away > 0.0
    ensures Reweight(m, LOOP_FLOOR, t).Some? && Project(m, t).Some?
    ensures Reweight(m, LOOP_FLOOR, t) == Project(m, t)
       <==> ClearOfFloor(Mass(m, 0)) && ClearOfFloor(Mass(m, 1)) && ClearOfFloor(Mass(m, 2))
  {
    hide Mul;
    hide Share;
    hide Ratios;
    TotalIsMasses(m);
    ZeroClass(m, 0);
    ZeroClass(m, 1);
    ZeroClass(m, 2);
    var p := Masses(m);
    PositiveTotal(m, LOOP_FLOOR, t);
    PositiveTotal(m, EPS, t);
    ReweightMasses(m, LOOP_FLOOR, t, 0);
    ReweightMasses(m, EPS, t, 0);
    if ClearOfFloor(p.home) && ClearOfFloor(p.draw) && ClearOfFloor(p.away) {
      SameScaling(m, t);
    } else {
      var c := if !ClearOfFloor(p.home) then 0 else if !ClearOfFloor(p.draw) then 1 else 2;
      LoopDiffers(m, t, c);
    }
  }

  lemma LoopDiffers(m: Matrix, t: Triple, c: nat)
    requires c < 3 && Distribution(Masses(m)) && 0.0 < Masses(m).At(c) < LOOP_FLOOR
    requires t.home > 0.0 && t.draw > 0.0 && t.away > 0.0
    requires Reweight(m, LOOP_FLOOR, t).Some? && Project(m, t).Some?
    ensures Reweight(m, LOOP_FLOOR, t) != Project(m, t)
  {
    hide Mul;
    hide Share;
    hide Ratios;
    var p := Masses(m);
    var k := LargeClass(p);
    ReweightMasses(m, LOOP_FLOOR, t, k);
    ReweightMasses(m, EPS, t, k);
    ReweightMasses(m, LOOP_FLOOR, t, c);
    ReweightMasses(m, EPS, t, c);
    ShareOf(LOOP_FLOOR, p.At(k));
    ShareOf(EPS, p.At(k));
    SharesDiffer(p.At(c));
    MulOne(t.At(k));
    MulInjective(t.At(c), Share(LOOP_FLOOR, p.At(c)), Share(EPS, p.At(c)));
    if Reweight(m, LOOP_FLOOR, t) == Project(m, t) {
      var x := Mass(Project(m, t).value, k);
      if x == 0.0 {
        MulOne(Shares(p, EPS, t).Total());
        assert false;
      }
      MulInjective(x, Shares(p, LOOP_FLOOR, t).Total(), Shares(p, EPS, t).Total());
      assert false;
    }
  }

  /** `normalize`: None stands for the invalid_joint_matrix error. */
  function Normalize(m: Matrix): Option<Matrix> {
    if (exists h, a :: 0 <= h < |m| && 0 <= a < |m[h]| && m[h][a] < 0.0) || GrandTotal(m) <= 0.0 then None
    else Some(Scaled(m, Uniform(1.0 / GrandTotal(m))))
  }

  /** The probability-correction branch: copy the baseline, multiply every cell in place, normalise. */
  method CorrectMatrix(baseline: Matrix, corrected: Triple) returns (r: Option<Matrix>)
    requires Square(baseline)
    ensures r == Normalize(Scaled(baseline, Ratios(Masses(baseline), LOOP_FLOOR, corrected)))
    ensures Probabilities(baseline) && corrected.home > 0.0 && corrected.draw > 0.0 && corrected.away > 0.0 ==>
              r.Some? && IsReweighted(baseline, 0.000000000001, corrected, r)
    ensures Probabilities(baseline) && corrected.home > 0.0 && corrected.draw > 0.0 && corrected.away > 0.0
            && corrected.home + corrected.draw + corrected.away == 1.0 && NoneBelow(baseline, 0.000000000001) ==>
              r.Some? && SumsTo(r.value, corrected.home, corrected.draw, corrected.away)
  {
    var n := |baseline|;
    var prior := Masses(baseline);
    var matrix := new real[n, n]((h, a) requires 0 <= h < n && 0 <= a < n => baseline[h][a]);
    ghost var ratios := Ratios(prior, LOOP_FLOOR, corrected);
    ghost var scaled := Scaled(baseline, ratios);
    for h := 0 to n
      invariant forall i, j :: 0 <= i < h && 0 <= j < n ==> matrix[i, j] == scaled[i][j]
      invariant forall i, j :: h <= i < n && 0 <= j < n ==> matrix[i, j] == baseline[i][j]
    {
      for a := 0 to n
        invariant forall i, j :: 0 <= i < h && 0 <= j < n ==> matrix[i, j] == scaled[i][j]
        invariant forall j :: 0 <= j < a ==> matrix[h, j] == scaled[h][j]
        invariant forall j :: a <= j < n ==> matrix[h, j] == baseline[h][j]
        invariant forall i, j :: h < i < n && 0 <= j < n ==> matrix[i, j] == baseline[i][j]
      {
        var index := ClassOf(h, a);
        matrix[h, a] := Mul(matrix[h, a], Ratio(prior.At(index), LOOP_FLOOR, corrected.At(index)));
      }
    }
    var rows: Matrix := [];
    for h := 0 to n
      invariant |rows| == h && forall i :: 0 <= i < h ==> rows[i] == scaled[i]
    {
      var row := [];
      for a := 0 to n
        invariant |row| == a && forall j :: 0 <= j < a ==> row[j] == scaled[h][j]
      {
        row := row + [matrix[h, a]];
      }
      rows := rows + [row];
    }
    assert rows == scaled;
    r := Normalize(rows);
    CorrectedSums(baseline, corrected);
  }

  /** A matrix of non-negative cells that sum to one. */
  ghost predicate Probabilities(m: Matrix) {
    && (forall h, a :: 0 <= h < |m| && 0 <= a < |m[h]| ==> m[h][a] >= 0.0)
    && CellSum(m, HomeWins()) + CellSum(m, Draws()) + CellSum(m, AwayWins()) == 1.0
  }

  lemma CorrectedSums(m: Matrix, t: Triple)
    ensures var r := Normalize(Scaled(m, Ratios(Masses(m), LOOP_FLOOR, t)));
            Probabilities(m) && t.home > 0.0 && t.draw > 0.0 && t.away > 0.0 ==>
              && r.Some? && IsReweighted(m, 0.000000000001, t, r)
              && (t.home + t.draw + t.away == 1.0 && NoneBelow(m, 0.000000000001) ==>
                    SumsTo(r.value, t.home, t.draw, t.away))
  {
    if Probabilities(m) && t.home > 0.0 && t.draw > 0.0 && t.away > 0.0 {
      OutcomeSums(m);
      TotalIsMasses(m);
      LoopIsReweight(m, t);
      ReweightIsPlain(m, 0.000000000001, t);
      if t.home + t.draw + t.away == 1.0 && NoneBelow(m, 0.000000000001) {
        ReweightedSums(m, 0.000000000001, t);
      }
    }
    hide Reweight;
    hide Normalize;
    hide Scaled;
    hide Ratios;
    hide Mass;
    hide CellSum;
    hide IsReweighted;
  }

  lemma ScaledNonNegative(m: Matrix, r: Triple)
    requires NonNegative(m) && r.home >= 0.0 && r.draw >= 0.0 && r.away >= 0.0
    ensures NonNegative(Scaled(m, r))
  {
    hide Mul;
    var x := Scaled(m, r);
    forall h, a | 0 <= h < |x| && 0 <= a < |x[h]| ensures x[h][a] >= 0.0 {
      MulNonNegative(m[h][a], r.At(ClassOf(h, a)));
    }
  }

  lemma MulNonNegative(a: real, b: real)
    requires a >= 0.0 && b >= 0.0
    ensures Mul(a, b) >= 0.0
  {
  }

  lemma RatioNonNegative(p: real, floor: real, t: real)
    requires floor > 0.0 && t >= 0.0
    ensures Ratio(p, floor, t) >= 0.0
  {
    DivTimes(t, Max(floor, p));
    PositiveFactor(Max(floor, p), Ratio(p, floor, t));
  }

  /** On a probability matrix and a positive corrected triple the loop never fails, and it is a reweighting. */
  lemma LoopIsReweight(m: Matrix, t: Triple)
    requires NonNegative(m) && GrandTotal(m) == 1.0
    requires t.home > 0.0 && t.draw > 0.0 && t.away > 0.0
    ensures Normalize(Scaled(m, Ratios(Masses(m), LOOP_FLOOR, t))) == Reweight(m, LOOP_FLOOR, t)
    ensures Reweight(m, LOOP_FLOOR, t).Some?
  {
    hide Mul;
    hide Share;
    hide Ratio;
    var p := Masses(m);
    TotalIsMasses(m);
    ZeroClass(m, 0);
    ZeroClass(m, 1);
    ZeroClass(m, 2);
    PositiveTotal(m, LOOP_FLOOR, t);
    AdjustedMasses(m, LOOP_FLOOR, t);
    RatioNonNegative(p.home, LOOP_FLOOR, t.home);
    RatioNonNegative(p.draw, LOOP_FLOOR, t.draw);
    RatioNonNegative(p.away, LOOP_FLOOR, t.away);
    ScaledNonNegative(m, Ratios(p, LOOP_FLOOR, t));
  }
}
