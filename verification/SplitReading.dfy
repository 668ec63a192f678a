/** The arithmetic of the chronological cuts, the sizes that a fold needs, and what a frozen plan must declare. */
module SplitReading {
  import opened Wrappers
  import opened Integers
  import opened Sequences
  import opened TemporalSplits
  import opened FrozenSplits

  // ---------- What a manifest records ----------

  /** First and last forecast time, the last time of a label, and every match id in order. */
  ghost predicate Measures(w: Interval, rows: seq<Row>) {
    && w.n == |rows| == |w.ids|
    && (exists r :: r in rows && r.forecastAt.at == w.from) && (exists r :: r in rows && r.forecastAt.at == w.to)
    && (exists r :: r in rows && r.available == w.availableThrough)
    && (forall r :: r in rows ==> w.from <= r.forecastAt.at <= w.to && r.available <= w.availableThrough)
    && SortedBy(TextLe, w.ids) && forall id :: id in w.ids <==> exists r :: r in rows && r.id == id
  }

  lemma ManifestReads(f: Fold)
    requires f.train != [] && f.selection != [] && f.calibration != [] && f.test != []
    ensures SplitManifest(f) == Err(NonDisjointOrUnpurged) || SplitManifest(f).Ok?
    ensures SplitManifest(f).Ok? ==>
              var m := SplitManifest(f).value;
              && Measures(m.train, f.train) && Measures(m.selection, f.selection)
              && Measures(m.calibration, f.calibration) && Measures(m.test, f.test)
  {
    IntervalReads(f.train);
    IntervalReads(f.selection);
    IntervalReads(f.calibration);
    IntervalReads(f.test);
    hide Measures;
    hide IntervalOf;
  }

  lemma IntervalReads(rows: seq<Row>)
    requires rows != []
    ensures Measures(IntervalOf(rows), rows)
  {
    IdsRead(rows);
    hide SortedIds;
    hide SortedBy;
    hide TextLe;
    var from, to := MinForecast(rows), MaxForecast(rows);
    assert exists r :: r in rows && r.Forecast() == from;
    assert exists r :: r in rows && r.Forecast() == to;
  }

  lemma IdsRead(rows: seq<Row>)
    ensures var ids := SortedIds(rows);
            |ids| == |rows| && SortedBy(TextLe, ids) && forall id :: id in ids <==> exists r :: r in rows && r.id == id
  {
    var ids := seq(|rows|, i requires 0 <= i < |rows| => rows[i].id);
    TextPreorder();
    SortBySorted(TextLe, ids);
    IdsOf(rows);
    hide *;
  }

  lemma IdsOf(rows: seq<Row>)
    ensures var ids := seq(|rows|, i requires 0 <= i < |rows| => rows[i].id);
            forall id :: id in ids <==> exists r :: r in rows && r.id == id
  {
    var ids := seq(|rows|, i requires 0 <= i < |rows| => rows[i].id);
    forall r | r in rows ensures r.id in ids {
      var i :| 0 <= i < |rows| && rows[i] == r;
      assert ids[i] == r.id;
    }
  }

  // ---------- The chronological cuts ----------

  /** At least one fold, as many as requested, and no more than one for every twelve times. */
  lemma FoldCountReads(requested: int, n: nat)
    requires n >= 12
    ensures var k := FoldCount(requested, n);
            && (requested <= 1 ==> k == 1)
            && (1 <= requested && 12 * requested <= n ==> k == requested)
            && (12 * requested > n ==> 12 * k <= n < 12 * (k + 1))
  {
  }

  /** The tests cover the times from seven tenths on, in k parts of which no two differ by more than one. */
  lemma BoundariesRead(n: nat, k: nat, i: nat)
    requires n >= 12 && k >= 1 && i <= k
    ensures 10 * TestBoundary(n, k, 0) <= 7 * n < 10 * (TestBoundary(n, k, 0) + 1)
    ensures TestBoundary(n, k, k) == n
    ensures var first := TestBoundary(n, k, 0); var done := TestBoundary(n, k, i) - first;
            k * done <= i * (n - first) < k * (done + 1)
  {
    var a := n - FirstTest(n);
    assert 0 * a == 0;
    QuotientUnique(0, k, 0);
    QuotientUnique(k * a, k, a);
    QuotientBounds(i * a, k);
  }

  lemma QuotientBounds(p: int, k: nat)
    requires k >= 1
    ensures k * (p / k) <= p < k * (p / k + 1)
  {
    assert p == k * (p / k) + p % k;
    assert k * (p / k + 1) == k * (p / k) + k;
  }

  /** Fifteen hundredths of the times, two at least. */
  predicate Width(n: nat, width: nat) {
    if n < 14 then width == 2 else 100 * width <= 15 * n < 100 * (width + 1)
  }

  lemma WidthReads(n: nat)
    requires n >= 12
    ensures Width(n, TemporalSplits.Max(2, n * 15 / 100)) && TemporalSplits.Max(2, n * 15 / 100) < FirstTest(n)
  {
  }

  /** The window before the test is that wide; the test ends where the next one begins. */
  lemma CutsRead(times: seq<int>, k: nat, i: nat)
    requires |times| >= 12 && k >= 1 && 12 * k <= |times| && i < k
    ensures var n, c := |times|, CutsAt(times, k, i);
            var start, end := TestBoundary(n, k, i), TestBoundary(n, k, i + 1);
            && 2 <= start < end <= n && c.test == times[start]
            && c.end == (if end < n then Some(times[end]) else None)
            && exists width: nat :: Width(n, width) && width < start && c.validation == times[start - width]
  {
    var n := |times|;
    BoundariesIncrease(n, k, i, i + 1);
    WidthReads(n);
    hide TestBoundary;
    hide FirstTest;
    var start, width := TestBoundary(n, k, i), TemporalSplits.Max(2, n * 15 / 100);
    assert CutsAt(times, k, i).validation == times[start - width];
    hide Width;
  }

  /** The calibration takes the last third of the times of the validation rows. */
  lemma CalibrationReads(validation: seq<Row>)
    requires |ForecastTimes(validation)| >= 3
    ensures var times := ForecastTimes(validation);
            exists c :: 0 < c < |times| && CalibrationStart(validation) == times[c]
              && 3 * c <= 2 * |times| < 3 * (c + 1)
  {
    hide ForecastTimes;
    var c := |ForecastTimes(validation)| * 2 / 3;
    assert CalibrationStart(validation) == ForecastTimes(validation)[c];
  }

  /** From an instant on, before another one, with a label available before a third; None is never. */
  function Inside(from: int, end: Option<int>, known: Option<int>): Row -> bool {
    (r: Row) =>
      r.Forecast() >= from && (end == None || end.value > r.Forecast()) && (known == None || known.value > r.available)
  }

  function Slice(rows: seq<Row>, from: int, end: Option<int>, known: Option<int>): seq<Row> {
    Filter(rows, Inside(from, end, known))
  }

  function Before(cut: int): Row -> bool {
    (r: Row) => r.Forecast() < cut && r.available < cut
  }

  /** Rows before an instant, with labels available before it. */
  function Past(rows: seq<Row>, cut: int): seq<Row> {
    Filter(rows, Before(cut))
  }

  lemma WindowsRead(rows: seq<Row>, c: Cuts, cs: int)
    ensures TrainRows(rows, c) == Past(rows, c.validation)
    ensures ValidationRows(rows, c) == Slice(rows, c.validation, Some(c.test), Some(c.test))
    ensures TestRows(rows, c) == Slice(rows, c.test, c.end, None)
    ensures SelectionRows(rows, cs) == Past(rows, cs)
    ensures CalibrationRows(rows, cs) == Slice(rows, cs, None, None)
  {
    FilterCong(rows, Window(None, Some(c.validation), Some(c.validation)), Before(c.validation));
    FilterCong(rows, Window(Some(c.validation), Some(c.test), Some(c.test)),
               Inside(c.validation, Some(c.test), Some(c.test)));
    FilterCong(rows, Window(Some(c.test), c.end, None), Inside(c.test, c.end, None));
    FilterCong(rows, Window(None, Some(cs), Some(cs)), Before(cs));
    FilterCong(rows, Window(Some(cs), None, None), Inside(cs, None, None));
    hide Filter;
  }

  /** A fold takes at least five rows for training, validation and test, three times of validation, and two rows for
      selection and calibration; otherwise it is skipped. */
  lemma FoldReads(rows: seq<Row>, times: seq<int>, k: nat, i: nat)
    requires |times| >= 12 && k >= 1 && 12 * k <= |times| && i < k
    ensures var c := CutsAt(times, k, i); var f := FoldAt(rows, times, k, i);
            var validation := Slice(rows, c.validation, Some(c.test), Some(c.test));
            && (f == None <==>
                || |Past(rows, c.validation)| < 5 || |validation| < 5 || |Slice(rows, c.test, c.end, None)| < 5
                || |ForecastTimes(validation)| < 3
                || |Past(validation, CalibrationStart(validation))| < 2
                || |Slice(validation, CalibrationStart(validation), None, None)| < 2)
            && (f.Some? ==>
                  f.value == Fold(i, Past(rows, c.validation), Past(validation, CalibrationStart(validation)),
                                  Slice(validation, CalibrationStart(validation), None, None),
                                  Slice(rows, c.test, c.end, None)))
  {
    var c := CutsAt(times, k, i);
    var validation := ValidationRows(rows, c);
    WindowsRead(rows, c, 0);
    if |ForecastTimes(validation)| >= 3 {
      WindowsRead(validation, c, CalibrationStart(validation));
    }
    hide CutsAt;
    hide TrainRows;
    hide ValidationRows;
    hide TestRows;
    hide SelectionRows;
    hide CalibrationRows;
    hide CalibrationStart;
    hide ForecastTimes;
    hide Past;
    hide Slice;
  }

  // ---------- Frozen plans ----------

  /** A declared part: a positive number of rows with their hash, and times in order. */
  predicate Declared(w: PlanInterval) {
    && w.hashValid && w.n.Some? && w.n.value >= 1 && w.from.Some? && w.to.Some? && w.availableThrough.Some?
    && w.to.value >= w.from.value && w.availableThrough.value >= w.from.value
  }

  /** The second part opens after the first one has closed and its labels are available. */
  predicate Opens(later: PlanInterval, earlier: PlanInterval) {
    Declared(later) && Declared(earlier)
    && later.from.value > earlier.to.value && later.from.value > earlier.availableThrough.value
  }

  predicate Consecutive(s: PlanSplit) {
    Opens(s.selection, s.train) && Opens(s.calibration, s.selection) && Opens(s.test, s.calibration)
  }

  /** A plan is accepted with one to eight folds, numbered upwards from zero or more, each of four declared parts that
      follow one another, and with tests that follow one another. */
  lemma AcceptedReads(folds: seq<PlanFold>)
    ensures Accepted(folds) <==>
              && 1 <= |folds| && |folds| <= 8
              && (forall q :: 0 <= q < |folds| ==>
                    && folds[q].fold.Some? && folds[q].fold.value >= 0 && folds[q].split.Some?
                    && folds[q].split.value.protocolValid && Consecutive(folds[q].split.value))
              && forall p, q :: 0 <= p < q < |folds| ==>
                   && folds[p].fold.value < folds[q].fold.value
                   && folds[p].split.value.test.to.value < folds[q].split.value.test.from.value
  {
  }

  /** What is wrong with the next fold of a plan: its number or split, a part, the order of the parts, or a test that
      opens before the last one closed. */
  lemma ProblemReads(f: PlanFold, previous: int, closed: Option<int>)
    ensures var problem := FoldProblem(f, previous, closed);
            var numbered := f.fold.Some? && f.fold.value > previous && f.split.Some? && f.split.value.protocolValid;
            && (problem == Some(InvalidPlan) <==> !numbered)
            && (numbered ==>
                  var s := f.split.value;
                  var declared := Declared(s.train) && Declared(s.selection) && Declared(s.calibration)
                                  && Declared(s.test);
                  && (problem == Some(InvalidInterval) <==> !declared)
                  && (problem == Some(OverlappingOrLeaky) <==> declared && !Consecutive(s))
                  && (problem == Some(OverlappingTests) <==>
                      declared && Consecutive(s) && closed.Some? && closed.value >= s.test.from.value)
                  && (problem == None <==>
                      declared && Consecutive(s) && !(closed.Some? && closed.value >= s.test.from.value)))
  {
  }

  /** The document fixes the error: there is one first fold that fails, and one first check that it fails. */
  lemma PlanFailsOnce(document: PlanDoc, a: SplitError, b: SplitError)
    requires PlanFails(document, a) && PlanFails(document, b)
    ensures a == b
  {
    if document.folds.Some? && 1 <= |document.folds.value| <= 8 {
      var folds := document.folds.value;
      var p: nat :| FailsAt(folds, p, a);
      var q: nat :| FailsAt(folds, q, b);
      FailsOnce(folds, p, a, q, b);
      FailsOnce(folds, q, b, p, a);
      hide FoldProblem;
    }
  }

  lemma FailsOnce(folds: seq<PlanFold>, p: nat, a: SplitError, q: nat, b: SplitError)
    requires FailsAt(folds, p, a) && FailsAt(folds, q, b)
    ensures q <= p
  {
    SoundStep(folds[..p], folds[p]);
    hide FoldProblem;
    hide WellFormed;
    if p < q {
      assert folds[..q][..p + 1] == folds[..p] + [folds[p]];
      SoundPrefix(folds[..q], p + 1);
    }
  }

  lemma SoundPrefix(folds: seq<PlanFold>, n: nat)
    requires Sound(folds) && n <= |folds|
    ensures Sound(folds[..n])
  {
    hide WellFormed;
  }

  /** So does the plan with the rows: one part is the first that is empty. */
  lemma EmptyOnce(rows: seq<Row>, f: PlanFold, p: nat, q: nat)
    requires WellFormed(f) && FirstEmpty(rows, f, p) && FirstEmpty(rows, f, q)
    ensures p == q && WindowGroup(rows, f.split.value, p) == []
  {
    hide WindowGroup;
    hide WellFormed;
  }
}
