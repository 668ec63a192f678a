/** Frozen split plans: the plan checker and the fixed-window generator. */
module FrozenSplits {
  import opened Wrappers
  import opened Sequences
  import opened TemporalSplits

  /** One declared window. None: absent, of the wrong type, or not a timestamp. */
  datatype PlanInterval = PlanInterval(n: Option<int>, hashValid: bool, from: Option<int>, to: Option<int>,
                                       availableThrough: Option<int>)

  datatype PlanSplit = PlanSplit(protocolValid: bool, train: PlanInterval, selection: PlanInterval,
                                 calibration: PlanInterval, test: PlanInterval) {
    function Part(p: nat): PlanInterval {
      if p == 0 then train else if p == 1 then selection else if p == 2 then calibration else test
    }
  }

  datatype PlanFold = PlanFold(fold: Option<int>, split: Option<PlanSplit>)
  datatype PlanDoc = PlanDoc(folds: Option<seq<PlanFold>>)

  // ---------- The plan checker ----------

  predicate ValidInterval(w: PlanInterval) {
    && w.n.Some? && w.n.value > 0 && w.hashValid
    && w.from.Some? && w.to.Some? && w.availableThrough.Some?
    && w.from.value <= w.to.value && w.from.value <= w.availableThrough.value
  }

  predicate Separated(earlier: PlanInterval, later: PlanInterval)
    requires ValidInterval(earlier) && ValidInterval(later)
  {
    earlier.to.value < later.from.value && earlier.availableThrough.value < later.from.value
  }

  predicate WellFormed(f: PlanFold) {
    && f.fold.Some? && f.split.Some? && f.split.value.protocolValid
    && ValidInterval(f.split.value.train) && ValidInterval(f.split.value.selection)
    && ValidInterval(f.split.value.calibration) && ValidInterval(f.split.value.test)
    && Separated(f.split.value.train, f.split.value.selection)
    && Separated(f.split.value.selection, f.split.value.calibration)
    && Separated(f.split.value.calibration, f.split.value.test)
  }

  /** Well-formed folds with increasing numbers and increasing test windows. */
  ghost predicate Sound(folds: seq<PlanFold>) {
    && (forall q :: 0 <= q < |folds| ==> WellFormed(folds[q]) && folds[q].fold.value >= 0)
    && forall p, q :: 0 <= p < q < |folds| ==>
         && folds[p].fold.value < folds[q].fold.value
         && folds[p].split.value.test.to.value < folds[q].split.value.test.from.value
  }

  ghost predicate Accepted(folds: seq<PlanFold>) {
    1 <= |folds| <= 8 && Sound(folds)
  }

  /** The first check that a fold fails after the folds before it. */
  function FoldProblem(f: PlanFold, previousFold: int, previousTestEnd: Option<int>): Option<SplitError> {
    if f.fold == None || f.fold.value <= previousFold || f.split == None || !f.split.value.protocolValid then
      Some(InvalidPlan)
    else
      var s := f.split.value;
      if !ValidInterval(s.train) || !ValidInterval(s.selection)
         || !ValidInterval(s.calibration) || !ValidInterval(s.test)
      then Some(InvalidInterval)
      else if !Separated(s.train, s.selection) || !Separated(s.selection, s.calibration)
              || !Separated(s.calibration, s.test)
      then Some(OverlappingOrLeaky)
      else if previousTestEnd.Some? && s.test.from.value <= previousTestEnd.value then Some(OverlappingTests)
      else None
  }

  function LastFold(folds: seq<PlanFold>): int
    requires folds != [] ==> folds[|folds| - 1].fold.Some?
  {
    if folds == [] then -1 else folds[|folds| - 1].fold.value
  }

  function LastEnd(folds: seq<PlanFold>): Option<int>
    requires folds != [] ==> folds[|folds| - 1].split.Some?
  {
    if folds == [] then None else folds[|folds| - 1].split.value.test.to
  }

  lemma SoundStep(folds: seq<PlanFold>, f: PlanFold)
    requires Sound(folds)
    ensures Sound(folds + [f]) <==> FoldProblem(f, LastFold(folds), LastEnd(folds)) == None
  {
    var all := folds + [f];
    var n := |folds|;
    if n > 0 {
      assert all[n - 1] == folds[n - 1] && WellFormed(folds[n - 1]);
    }
    if FoldProblem(f, LastFold(folds), LastEnd(folds)) == None {
      forall p, q | 0 <= p < q < |all|
        ensures all[p].fold.value < all[q].fold.value
                && all[p].split.value.test.to.value < all[q].split.value.test.from.value
      {
        if q == n && p < n - 1 {
          assert folds[p].fold.value < folds[n - 1].fold.value;
          assert folds[p].split.value.test.to.value < folds[n - 1].split.value.test.from.value;
        }
      }
    }
    if Sound(all) {
      assert all[n] == f;
    }
  }

  /** The first fold that fails, and the check that it fails. */
  ghost predicate FailsAt(folds: seq<PlanFold>, q: nat, error: SplitError) {
    && q < |folds| && Sound(folds[..q])
    && FoldProblem(folds[q], LastFold(folds[..q]), LastEnd(folds[..q])) == Some(error)
  }

  ghost predicate PlanFails(document: PlanDoc, error: SplitError) {
    if document.folds == None || !(1 <= |document.folds.value| <= 8) then error == InvalidPlan
    else exists q: nat :: FailsAt(document.folds.value, q, error)
  }

  /** The checker, with the running fold number and test end. */
  method CheckedSplitPlan(document: PlanDoc) returns (r: Result<seq<PlanFold>, SplitError>)
    ensures r.Ok? <==> document.folds.Some? && Accepted(document.folds.value)
    ensures r.Ok? ==> r.value == document.folds.value
    ensures r.Err? ==> PlanFails(document, r.error)
  {
    if document.folds == None || !(1 <= |document.folds.value| <= 8) {
      return Err(InvalidPlan);
    }
    var folds := document.folds.value;
    var previousFold, previousTestEnd := -1, None;
    for q := 0 to |folds|
      invariant Sound(folds[..q])
      invariant previousFold == LastFold(folds[..q]) && previousTestEnd == LastEnd(folds[..q])
    {
      var problem := FoldProblem(folds[q], previousFold, previousTestEnd);
      assert folds[..q + 1] == folds[..q] + [folds[q]];
      SoundStep(folds[..q], folds[q]);
      if problem.Some? {
        PrefixSound(folds, q + 1);
        assert FailsAt(folds, q, problem.value);
        return Err(problem.value);
      }
      previousFold, previousTestEnd := folds[q].fold.value, folds[q].split.value.test.to;
    }
    assert folds[..|folds|] == folds;
    return Ok(folds);
  }

  lemma PrefixSound(folds: seq<PlanFold>, q: nat)
    requires q <= |folds|
    ensures Accepted(folds) ==> Sound(folds[..q])
  {
  }

  // ---------- The fixed-window generator ----------

  /** Rows in an inclusive forecast window whose label is known before the next window opens. */
  function InWindow(from: int, to: int, boundary: Option<int>): Row -> bool {
    (r: Row) => from <= r.Forecast() <= to && (boundary.Some? ==> r.available < boundary.value)
  }

  function ByForecast(): (Row, Row) -> bool {
    (a: Row, b: Row) => KeyLe(a.Forecast(), a.id, b.Forecast(), b.id)
  }

  lemma ForecastPreorder()
    ensures TotalPreorder(ByForecast())
  {
    var le := ByForecast();
    forall a, b ensures le(a, b) || le(b, a) {
      KeyOrder(a.Forecast(), a.id, b.Forecast(), b.id, 0, "");
    }
    forall a, b, c | le(a, b) && le(b, c) ensures le(a, c) {
      KeyOrder(a.Forecast(), a.id, b.Forecast(), b.id, c.Forecast(), c.id);
    }
  }

  function WindowGroup(rows: seq<Row>, s: PlanSplit, p: nat): seq<Row>
    requires p < 4 && ValidInterval(s.Part(p)) && (p < 3 ==> ValidInterval(s.Part(p + 1)))
  {
    var boundary := if p < 3 then s.Part(p + 1).from else None;
    SortBy(ByForecast(), Filter(rows, InWindow(s.Part(p).from.value, s.Part(p).to.value, boundary)))
  }

  function WindowFold(rows: seq<Row>, f: PlanFold): Fold
    requires WellFormed(f) && f.fold.value >= 0
  {
    var s := f.split.value;
    Fold(f.fold.value, WindowGroup(rows, s, 0), WindowGroup(rows, s, 1), WindowGroup(rows, s, 2),
         WindowGroup(rows, s, 3))
  }

  ghost predicate NoEmptyPart(f: Fold) {
    f.train != [] && f.selection != [] && f.calibration != [] && f.test != []
  }

  /** The first empty group of a fold. */
  ghost predicate FirstEmpty(rows: seq<Row>, f: PlanFold, p: nat)
    requires WellFormed(f)
  {
    && p < 4 && WindowGroup(rows, f.split.value, p) == []
    && forall i: nat :: i < p ==> WindowGroup(rows, f.split.value, i) != []
  }

  /** The generator: the folds that it yields, and the error that ends it. */
  method FixedWindowFolds(rows: seq<Row>, document: PlanDoc) returns (yielded: seq<Fold>, error: Option<SplitError>)
    ensures error == None <==>
              && document.folds.Some? && Accepted(document.folds.value)
              && forall q :: 0 <= q < |document.folds.value| ==> NoEmptyPart(WindowFold(rows, document.folds.value[q]))
    ensures !(document.folds.Some? && Accepted(document.folds.value)) ==>
              yielded == [] && error.Some? && PlanFails(document, error.value)
    ensures document.folds.Some? && Accepted(document.folds.value) ==>
              var folds := document.folds.value;
              && |yielded| <= |folds| && (error == None ==> |yielded| == |folds|)
              && (forall q :: 0 <= q < |yielded| ==>
                    yielded[q] == WindowFold(rows, folds[q]) && NoEmptyPart(yielded[q]))
              && (error.Some? ==>
                    && |yielded| < |folds|
                    && exists p: nat :: FirstEmpty(rows, folds[|yielded|], p)
                         && error.value == EmptyInterval(folds[|yielded|].fold.value, p))
  {
    hide WindowGroup;
    hide FoldProblem;
    yielded, error := [], None;
    var checked := CheckedSplitPlan(document);
    if checked.Err? {
      return [], Some(checked.error);
    }
    var folds := checked.value;
    for q := 0 to |folds|
      invariant |yielded| == q
      invariant forall i :: 0 <= i < q ==> yielded[i] == WindowFold(rows, folds[i]) && NoEmptyPart(yielded[i])
    {
      var split := folds[q].split.value;
      var groups: seq<seq<Row>> := [];
      for p := 0 to 4
        invariant |groups| == p
        invariant forall i: nat :: i < p ==> groups[i] == WindowGroup(rows, split, i) && groups[i] != []
      {
        var selected := WindowGroup(rows, split, p);
        if selected == [] {
          assert FirstEmpty(rows, folds[q], p);
          EmptyPart(rows, folds[q], p);
          return yielded, Some(EmptyInterval(folds[q].fold.value, p));
        }
        groups := groups + [selected];
      }
      yielded := yielded + [Fold(folds[q].fold.value, groups[0], groups[1], groups[2], groups[3])];
    }
  }

  lemma EmptyPart(rows: seq<Row>, f: PlanFold, p: nat)
    requires WellFormed(f) && f.fold.value >= 0 && p < 4 && WindowGroup(rows, f.split.value, p) == []
    ensures !NoEmptyPart(WindowFold(rows, f))
  {
    hide WindowGroup;
  }

  lemma GroupMembers(rows: seq<Row>, s: PlanSplit, p: nat)
    requires p < 4 && ValidInterval(s.Part(p)) && (p < 3 ==> ValidInterval(s.Part(p + 1)))
    ensures forall r :: r in WindowGroup(rows, s, p) <==>
              r in rows && s.Part(p).from.value <= r.Forecast() <= s.Part(p).to.value
              && (p < 3 ==> r.available < s.Part(p + 1).from.value)
  {
    var boundary := if p < 3 then s.Part(p + 1).from else None;
    var keep := InWindow(s.Part(p).from.value, s.Part(p).to.value, boundary);
    FilterMembers(rows, keep);
    ForecastPreorder();
    SortBySorted(ByForecast(), Filter(rows, keep));
  }

  /** On any rows, the groups of an accepted plan are disjoint and purged: the manifest check never fires. */
  lemma FrozenLeakFree(rows: seq<Row>, f: PlanFold)
    requires WellFormed(f) && f.fold.value >= 0 && NoEmptyPart(WindowFold(rows, f))
    ensures LeakFree(WindowFold(rows, f)) && SplitManifest(WindowFold(rows, f)).Ok?
  {
    var s := f.split.value;
    GroupMembers(rows, s, 0);
    GroupMembers(rows, s, 1);
    GroupMembers(rows, s, 2);
    GroupMembers(rows, s, 3);
    var g := WindowFold(rows, f);
    hide WindowGroup;
    assert EndsBefore(g.train, g.selection) && EndsBefore(g.selection, g.calibration);
    assert EndsBefore(g.calibration, g.test);
    EndsBeforeChain(g.train, g.selection, g.calibration);
    EndsBeforeChain(g.selection, g.calibration, g.test);
    EndsBeforeChain(g.train, g.calibration, g.test);
    ManifestOkIff(g);
  }

  /** Test windows of an accepted plan never meet, whatever the rows. */
  lemma FrozenTestsAdvance(rows: seq<Row>, folds: seq<PlanFold>, p: nat, q: nat)
    requires Accepted(folds) && p < q < |folds|
    ensures forall x, y :: x in WindowFold(rows, folds[p]).test && y in WindowFold(rows, folds[q]).test ==>
              x.Forecast() < y.Forecast()
  {
    GroupMembers(rows, folds[p].split.value, 3);
    GroupMembers(rows, folds[q].split.value, 3);
  }
}
