/** Purged temporal splits: the chronological generator, leaks between groups, and split manifests. */
module TemporalSplits {
  import opened Wrappers
  import opened Sequences
  import opened Integers

  /** A forecast time as written in the dataset: different spellings may name one instant. */
  datatype Stamp = Stamp(spelling: string, at: int)

  datatype Row = Row(id: string, forecastAt: Stamp, available: int) {
    function Forecast(): int {
      forecastAt.at
    }
  }

  datatype Fold = Fold(index: nat, train: seq<Row>, selection: seq<Row>, calibration: seq<Row>, test: seq<Row>) {
    function Part(p: nat): seq<Row> {
      if p == 0 then train else if p == 1 then selection else if p == 2 then calibration else test
    }
  }

  datatype SplitError =
    | TooFewTimes | NonDisjointOrUnpurged
    | InvalidPlan | InvalidInterval | OverlappingOrLeaky | OverlappingTests | EmptyInterval(fold: int, part: nat)

  // ---------- Distinct forecast times ----------

  function Stamps(rows: seq<Row>): seq<Stamp> {
    seq(|rows|, i requires 0 <= i < |rows| => rows[i].forecastAt)
  }

  function ByInstant(): (Stamp, Stamp) -> bool {
    (a: Stamp, b: Stamp) => a.at <= b.at
  }

  function Instants(stamps: seq<Stamp>): seq<int> {
    seq(|stamps|, i requires 0 <= i < |stamps| => stamps[i].at)
  }

  /** The sorted set of written forecast times, as instants. */
  function ForecastTimes(rows: seq<Row>): seq<int> {
    Instants(SortBy(ByInstant(), Distinct(Stamps(rows))))
  }

  ghost predicate HasForecast(rows: seq<Row>, t: int) {
    exists r :: r in rows && r.Forecast() == t
  }

  lemma ForecastTimesFacts(rows: seq<Row>)
    ensures forall i, j :: 0 <= i <= j < |ForecastTimes(rows)| ==> ForecastTimes(rows)[i] <= ForecastTimes(rows)[j]
    ensures forall i :: 0 <= i < |ForecastTimes(rows)| ==> HasForecast(rows, ForecastTimes(rows)[i])
  {
    hide *;
    forall i, j | 0 <= i <= j < |ForecastTimes(rows)| ensures ForecastTimes(rows)[i] <= ForecastTimes(rows)[j] {
      TimesAscend(rows, i, j);
    }
    forall i | 0 <= i < |ForecastTimes(rows)| ensures HasForecast(rows, ForecastTimes(rows)[i]) {
      TimeOfRow(rows, i);
    }
  }

  lemma TimesAscend(rows: seq<Row>, i: nat, j: nat)
    requires i <= j < |ForecastTimes(rows)|
    ensures ForecastTimes(rows)[i] <= ForecastTimes(rows)[j]
  {
    var le, stamps := ByInstant(), Distinct(Stamps(rows));
    SortBySorted(le, stamps);
    var sorted := SortBy(le, stamps);
    hide SortBy;
    hide Distinct;
    assert i == j || le(sorted[i], sorted[j]);
  }

  lemma TimeOfRow(rows: seq<Row>, i: nat)
    requires i < |ForecastTimes(rows)|
    ensures HasForecast(rows, ForecastTimes(rows)[i])
  {
    hide SortBy;
    hide Distinct;
    var stamps := Distinct(Stamps(rows));
    var sorted := SortBy(ByInstant(), stamps);
    DistinctMembers(Stamps(rows));
    SortBySorted(ByInstant(), stamps);
    assert sorted[i] in sorted && sorted[i] in Stamps(rows);
    var k :| 0 <= k < |rows| && Stamps(rows)[k] == sorted[i];
    assert rows[k] in rows && rows[k].Forecast() == ForecastTimes(rows)[i];
  }

  // ---------- Extremes of a group ----------

  function Forecasts(rows: seq<Row>): seq<int> {
    seq(|rows|, i requires 0 <= i < |rows| => rows[i].Forecast())
  }

  function Availables(rows: seq<Row>): seq<int> {
    seq(|rows|, i requires 0 <= i < |rows| => rows[i].available)
  }

  lemma ForecastMembers(rows: seq<Row>)
    ensures forall t :: t in Forecasts(rows) ==> exists r :: r in rows && r.Forecast() == t
    ensures forall r :: r in rows ==> r.Forecast() in Forecasts(rows)
  {
    forall r | r in rows ensures r.Forecast() in Forecasts(rows) {
      var i :| 0 <= i < |rows| && rows[i] == r;
      assert Forecasts(rows)[i] == r.Forecast();
    }
    forall t | t in Forecasts(rows) ensures exists r :: r in rows && r.Forecast() == t {
      var i :| 0 <= i < |rows| && Forecasts(rows)[i] == t;
      assert rows[i] in rows;
    }
  }

  lemma AvailableMembers(rows: seq<Row>)
    ensures forall t :: t in Availables(rows) ==> exists r :: r in rows && r.available == t
    ensures forall r :: r in rows ==> r.available in Availables(rows)
  {
    forall r | r in rows ensures r.available in Availables(rows) {
      var i :| 0 <= i < |rows| && rows[i] == r;
      assert Availables(rows)[i] == r.available;
    }
    forall t | t in Availables(rows) ensures exists r :: r in rows && r.available == t {
      var i :| 0 <= i < |rows| && Availables(rows)[i] == t;
      assert rows[i] in rows;
    }
  }

  function MinForecast(rows: seq<Row>): (m: int)
    requires rows != []
    ensures exists r :: r in rows && r.Forecast() == m
    ensures forall r :: r in rows ==> m <= r.Forecast()
  {
    ForecastMembers(rows);
    assert Forecasts(rows) != [];
    MinOf(Forecasts(rows))
  }

  function MaxForecast(rows: seq<Row>): (m: int)
    requires rows != []
    ensures exists r :: r in rows && r.Forecast() == m
    ensures forall r :: r in rows ==> r.Forecast() <= m
  {
    ForecastMembers(rows);
    assert Forecasts(rows) != [];
    MaxOf(Forecasts(rows))
  }

  function MaxAvailable(rows: seq<Row>): (m: int)
    requires rows != []
    ensures exists r :: r in rows && r.available == m
    ensures forall r :: r in rows ==> r.available <= m
  {
    AvailableMembers(rows);
    assert Availables(rows) != [];
    MaxOf(Availables(rows))
  }

  // ---------- Leaks and manifests ----------

  /** Forecasts and labels of one group end strictly before the other group begins. */
  ghost predicate EndsBefore(a: seq<Row>, b: seq<Row>) {
    forall x, y :: x in a && y in b ==> x.Forecast() < y.Forecast() && x.available < y.Forecast()
  }

  ghost predicate LeakFree(f: Fold) {
    && f.train != [] && f.selection != [] && f.calibration != [] && f.test != []
    && EndsBefore(f.train, f.selection) && EndsBefore(f.train, f.calibration) && EndsBefore(f.train, f.test)
    && EndsBefore(f.selection, f.calibration) && EndsBefore(f.selection, f.test)
    && EndsBefore(f.calibration, f.test)
  }

  /** `ids` stands for the hash of the sorted match ids; the hash is taken to be injective. */
  datatype Interval = Interval(n: nat, from: int, to: int, availableThrough: int, ids: seq<string>)

  datatype Manifest = Manifest(train: Interval, selection: Interval, calibration: Interval, test: Interval)

  function SortedIds(rows: seq<Row>): seq<string> {
    SortBy(TextLe, seq(|rows|, i requires 0 <= i < |rows| => rows[i].id))
  }

  function IntervalOf(rows: seq<Row>): Interval
    requires rows != []
  {
    Interval(|rows|, MinForecast(rows), MaxForecast(rows), MaxAvailable(rows), SortedIds(rows))
  }

  predicate Leaks(earlier: Interval, later: Interval) {
    earlier.to >= later.from || earlier.availableThrough >= later.from
  }

  function SplitManifest(f: Fold): Result<Manifest, SplitError>
    requires f.train != [] && f.selection != [] && f.calibration != [] && f.test != []
  {
    var m := Manifest(IntervalOf(f.train), IntervalOf(f.selection), IntervalOf(f.calibration), IntervalOf(f.test));
    if Leaks(m.train, m.selection) || Leaks(m.selection, m.calibration) || Leaks(m.calibration, m.test)
    then Err(NonDisjointOrUnpurged) else Ok(m)
  }

  lemma NoLeak(a: seq<Row>, b: seq<Row>)
    requires a != [] && b != []
    ensures !Leaks(IntervalOf(a), IntervalOf(b)) <==> EndsBefore(a, b)
  {
    var first, last, through := MinForecast(b), MaxForecast(a), MaxAvailable(a);
    var y :| y in b && y.Forecast() == first;
    var x :| x in a && x.Forecast() == last;
    var u :| u in a && u.available == through;
  }

  lemma EndsBeforeChain(a: seq<Row>, b: seq<Row>, c: seq<Row>)
    requires EndsBefore(a, b) && EndsBefore(b, c) && b != []
    ensures EndsBefore(a, c)
  {
    assert b[0] in b;
    forall x, y | x in a && y in c ensures x.Forecast() < y.Forecast() && x.available < y.Forecast() {
      assert x.available < b[0].Forecast() && b[0].Forecast() < y.Forecast();
    }
  }

  /** The runtime leak check between neighbouring parts is the absence of leaks between all parts. */
  lemma ManifestOkIff(f: Fold)
    requires f.train != [] && f.selection != [] && f.calibration != [] && f.test != []
    ensures SplitManifest(f).Ok? <==> LeakFree(f)
  {
    NoLeak(f.train, f.selection);
    NoLeak(f.selection, f.calibration);
    NoLeak(f.calibration, f.test);
    if SplitManifest(f).Ok? {
      EndsBeforeChain(f.train, f.selection, f.calibration);
      EndsBeforeChain(f.selection, f.calibration, f.test);
      EndsBeforeChain(f.train, f.calibration, f.test);
    }
  }

  // ---------- The chronological generator ----------

  function Max(a: int, b: int): int {
    if a < b then b else a
  }

  function Min(a: int, b: int): int {
    if a < b then a else b
  }

  function FoldCount(requested: int, n: nat): (k: nat)
    ensures k >= 1 && (n >= 12 ==> 12 * k <= n)
  {
    Max(1, Min(requested, Max(1, n / 12)))
  }

  function FirstTest(n: nat): nat {
    Max(2, n * 7 / 10)
  }

  /** The i-th of k + 1 evenly spaced integer boundaries from the first test index to n. */
  function TestBoundary(n: nat, k: nat, i: nat): int
    requires k >= 1 && i <= k && n >= 12
  {
    FirstTest(n) + i * (n - FirstTest(n)) / k
  }

  lemma BoundariesIncrease(n: nat, k: nat, i: nat, j: nat)
    requires n >= 12 && k >= 1 && 12 * k <= n && i < j <= k
    ensures 2 <= FirstTest(n) <= TestBoundary(n, k, i) < TestBoundary(n, k, j) <= n
  {
    var a := n - FirstTest(n);
    assert a >= k;
    MulGap(i, j, a);
    MulLe(0, i, a);
    MulLe(j, k, a);
    QuotientGap(i * a, j * a, k);
    QuotientMonotone(0, i * a, k);
    QuotientUnique(0, k, 0);
    assert k * a == a * k;
    QuotientUnique(k * a, k, a);
    QuotientMonotone(j * a, k * a, k);
  }

  /** Forecast in [from, end) and label available before `known`; None stands for infinity. */
  function Window(from: Option<int>, end: Option<int>, known: Option<int>): Row -> bool {
    (r: Row) =>
      && (from.Some? ==> from.value <= r.Forecast())
      && (end.Some? ==> r.Forecast() < end.value)
      && (known.Some? ==> r.available < known.value)
  }

  datatype Cuts = Cuts(validation: int, test: int, end: Option<int>)

  function CutsAt(times: seq<int>, k: nat, i: nat): Cuts
    requires |times| >= 12 && k >= 1 && 12 * k <= |times| && i < k
  {
    var n := |times|;
    BoundariesIncrease(n, k, i, i + 1);
    var start, end := TestBoundary(n, k, i), TestBoundary(n, k, i + 1);
    var validation := Max(1, start - Max(2, n * 15 / 100));
    Cuts(times[validation], times[start], if end < n then Some(times[end]) else None)
  }

  function TrainRows(rows: seq<Row>, c: Cuts): seq<Row> {
    Filter(rows, Window(None, Some(c.validation), Some(c.validation)))
  }

  function ValidationRows(rows: seq<Row>, c: Cuts): seq<Row> {
    Filter(rows, Window(Some(c.validation), Some(c.test), Some(c.test)))
  }

  function TestRows(rows: seq<Row>, c: Cuts): seq<Row> {
    Filter(rows, Window(Some(c.test), c.end, None))
  }

  function SelectionRows(validation: seq<Row>, start: int): seq<Row> {
    Filter(validation, Window(None, Some(start), Some(start)))
  }

  function CalibrationRows(validation: seq<Row>, start: int): seq<Row> {
    Filter(validation, Window(Some(start), None, None))
  }

  function CalibrationStart(validation: seq<Row>): int
    requires |ForecastTimes(validation)| >= 3
  {
    var times := ForecastTimes(validation);
    times[Max(1, |times| * 2 / 3)]
  }

  /** The fold at index i, unless one of the size checks skips it. */
  function FoldAt(rows: seq<Row>, times: seq<int>, k: nat, i: nat): Option<Fold>
    requires |times| >= 12 && k >= 1 && 12 * k <= |times| && i < k
  {
    var c := CutsAt(times, k, i);
    var train, validation, test := TrainRows(rows, c), ValidationRows(rows, c), TestRows(rows, c);
    if |train| < 5 || |validation| < 5 || |test| < 5 then None
    else if |ForecastTimes(validation)| < 3 then None
    else
      var start := CalibrationStart(validation);
      var selection, calibration := SelectionRows(validation, start), CalibrationRows(validation, start);
      if |selection| < 2 || |calibration| < 2 then None
      else Some(Fold(i, train, selection, calibration, test))
  }

  function FoldsUpTo(rows: seq<Row>, times: seq<int>, k: nat, i: nat): seq<Fold>
    requires |times| >= 12 && k >= 1 && 12 * k <= |times| && i <= k
  {
    if i == 0 then []
    else
      var before := FoldsUpTo(rows, times, k, i - 1);
      match FoldAt(rows, times, k, i - 1)
      case None => before
      case Some(f) => before + [f]
  }

  lemma FoldIndex(rows: seq<Row>, times: seq<int>, k: nat, i: nat)
    requires |times| >= 12 && k >= 1 && 12 * k <= |times| && i < k
    ensures FoldAt(rows, times, k, i).Some? ==> FoldAt(rows, times, k, i).value.index == i
  {
  }

  method ChronologicalFolds(rows: seq<Row>, requested: int) returns (r: Result<seq<Fold>, SplitError>)
    ensures var times := ForecastTimes(rows);
            if |times| < 12 then r == Err(TooFewTimes)
            else r == Ok(FoldsUpTo(rows, times, FoldCount(requested, |times|), FoldCount(requested, |times|)))
  {
    var times := ForecastTimes(rows);
    if |times| < 12 {
      return Err(TooFewTimes);
    }
    var k := FoldCount(requested, |times|);
    var folds: seq<Fold> := [];
    for i := 0 to k
      invariant folds == FoldsUpTo(rows, times, k, i)
    {
      var c := CutsAt(times, k, i);
      var train, validation, test := TrainRows(rows, c), ValidationRows(rows, c), TestRows(rows, c);
      if |train| < 5 || |validation| < 5 || |test| < 5 {
        continue;
      }
      if |ForecastTimes(validation)| < 3 {
        continue;
      }
      var start := CalibrationStart(validation);
      var selection, calibration := SelectionRows(validation, start), CalibrationRows(validation, start);
      if |selection| < 2 || |calibration| < 2 {
        continue;
      }
      folds := folds + [Fold(i, train, selection, calibration, test)];
    }
    return Ok(folds);
  }

  // ---------- Every generated fold is free of leaks ----------

  /** A run of the generator on these rows, and the index of one of its folds. */
  ghost predicate Generated(rows: seq<Row>, k: nat, i: nat) {
    var times := ForecastTimes(rows);
    |times| >= 12 && k >= 1 && 12 * k <= |times| && i < k && FoldAt(rows, times, k, i).Some?
  }

  ghost function TheFold(rows: seq<Row>, k: nat, i: nat): Fold
    requires Generated(rows, k, i)
  {
    FoldAt(rows, ForecastTimes(rows), k, i).value
  }

  ghost function TheCuts(rows: seq<Row>, k: nat, i: nat): Cuts
    requires Generated(rows, k, i)
  {
    CutsAt(ForecastTimes(rows), k, i)
  }

  ghost function CalibrationCut(rows: seq<Row>, k: nat, i: nat): int
    requires Generated(rows, k, i)
  {
    CalibrationStart(ValidationRows(rows, TheCuts(rows, k, i)))
  }

  /** Membership of the four groups, as conditions on one row. */
  lemma FoldMembers(rows: seq<Row>, k: nat, i: nat)
    requires Generated(rows, k, i)
    ensures var f := TheFold(rows, k, i); var c := TheCuts(rows, k, i); var cs := CalibrationCut(rows, k, i);
            && c.validation <= cs < c.test
            && (forall r :: r in f.train <==> r in rows && r.Forecast() < c.validation && r.available < c.validation)
            && (forall r :: r in f.selection <==> r in rows && c.validation <= r.Forecast() < cs && r.available < cs)
            && (forall r :: r in f.calibration <==> r in rows && cs <= r.Forecast() < c.test && r.available < c.test)
            && (forall r :: r in f.test <==>
                  r in rows && c.test <= r.Forecast() && (c.end.Some? ==> r.Forecast() < c.end.value))
            && |f.train| >= 5 && |f.selection| >= 2 && |f.calibration| >= 2 && |f.test| >= 5
  {
    var c := TheCuts(rows, k, i);
    var validation := ValidationRows(rows, c);
    var cs := CalibrationCut(rows, k, i);
    ForecastTimesFacts(validation);
    FilterMembers(rows, Window(None, Some(c.validation), Some(c.validation)));
    FilterMembers(rows, Window(Some(c.validation), Some(c.test), Some(c.test)));
    FilterMembers(rows, Window(Some(c.test), c.end, None));
    FilterMembers(validation, Window(None, Some(cs), Some(cs)));
    FilterMembers(validation, Window(Some(cs), None, None));
    var times := ForecastTimes(validation);
    var at := Max(1, |times| * 2 / 3);
    assert HasForecast(validation, times[at]);
  }

  lemma LeakFreeByCuts(f: Fold, v: int, cs: int, t: int)
    requires v <= cs < t && f.train != [] && f.selection != [] && f.calibration != [] && f.test != []
    requires forall r :: r in f.train ==> r.Forecast() < v && r.available < v
    requires forall r :: r in f.selection ==> v <= r.Forecast() < cs && r.available < cs
    requires forall r :: r in f.calibration ==> cs <= r.Forecast() < t && r.available < t
    requires forall r :: r in f.test ==> t <= r.Forecast()
    ensures LeakFree(f)
  {
  }

  /** Leak freedom, and so the leak error of the manifest cannot occur on a generated fold. */
  lemma GeneratedLeakFree(rows: seq<Row>, k: nat, i: nat)
    requires Generated(rows, k, i)
    ensures LeakFree(TheFold(rows, k, i))
    ensures SplitManifest(TheFold(rows, k, i)).Ok?
  {
    FoldMembers(rows, k, i);
    hide *;
    var f, c := TheFold(rows, k, i), TheCuts(rows, k, i);
    assert |f.train| >= 5 && |f.selection| >= 2 && |f.calibration| >= 2 && |f.test| >= 5;
    LeakFreeByCuts(f, c.validation, CalibrationCut(rows, k, i), c.test);
    ManifestOkIff(f);
  }

  /** Leak-free parts share no row. */
  lemma LeakFreeDisjoint(f: Fold, p: nat, q: nat, r: Row)
    requires LeakFree(f) && p < q < 4
    ensures !(r in f.Part(p) && r in f.Part(q))
  {
    assert EndsBefore(f.Part(p), f.Part(q));
  }

  lemma CutsAdvance(times: seq<int>, k: nat, i: nat, j: nat)
    requires |times| >= 12 && k >= 1 && 12 * k <= |times| && i < j < k
    requires forall p, q :: 0 <= p <= q < |times| ==> times[p] <= times[q]
    ensures CutsAt(times, k, i).validation <= CutsAt(times, k, j).validation
    ensures CutsAt(times, k, i).end.Some? && CutsAt(times, k, i).end.value <= CutsAt(times, k, j).test
  {
    var n := |times|;
    BoundariesIncrease(n, k, i, i + 1);
    BoundariesIncrease(n, k, i, j);
    BoundariesIncrease(n, k, j, j + 1);
    if i + 1 < j {
      BoundariesIncrease(n, k, i + 1, j);
    }
    hide TestBoundary;
    hide FirstTest;
  }

  /** Later folds test later rows, and train on everything earlier folds trained on. */
  lemma FoldsAdvance(rows: seq<Row>, k: nat, i: nat, j: nat)
    requires Generated(rows, k, i) && Generated(rows, k, j) && i < j
    ensures forall x, y :: x in TheFold(rows, k, i).test && y in TheFold(rows, k, j).test ==>
              x.Forecast() < y.Forecast()
    ensures forall x :: x in TheFold(rows, k, i).train ==> x in TheFold(rows, k, j).train
  {
    ForecastTimesFacts(rows);
    CutsAdvance(ForecastTimes(rows), k, i, j);
    FoldMembers(rows, k, i);
    FoldMembers(rows, k, j);
    hide FoldAt;
    hide TheFold;
    hide CutsAt;
    hide ForecastTimes;
    hide CalibrationCut;
  }

  /** Generated folds in increasing order of their index. */
  ghost predicate FoldList(rows: seq<Row>, k: nat, i: nat, folds: seq<Fold>) {
    && (forall q :: 0 <= q < |folds| ==>
          folds[q].index < i && Generated(rows, k, folds[q].index) && folds[q] == TheFold(rows, k, folds[q].index))
    && forall p, q :: 0 <= p < q < |folds| ==> folds[p].index < folds[q].index
  }

  lemma FoldListStep(rows: seq<Row>, k: nat, i: nat, before: seq<Fold>)
    requires FoldList(rows, k, i, before) && Generated(rows, k, i)
    ensures FoldList(rows, k, i + 1, before + [TheFold(rows, k, i)])
  {
    FoldIndex(rows, ForecastTimes(rows), k, i);
    hide FoldAt;
  }

  lemma FoldListWider(rows: seq<Row>, k: nat, i: nat, folds: seq<Fold>)
    requires FoldList(rows, k, i, folds)
    ensures FoldList(rows, k, i + 1, folds)
  {
    hide Generated;
    hide TheFold;
  }

  /** What the generator yields: its folds that pass the size checks, in order. */
  lemma {:induction false} GeneratorYields(rows: seq<Row>, k: nat, i: nat)
    requires var n := |ForecastTimes(rows)|; n >= 12 && k >= 1 && 12 * k <= n && i <= k
    ensures FoldList(rows, k, i, FoldsUpTo(rows, ForecastTimes(rows), k, i))
  {
    hide FoldAt;
    if i > 0 {
      var times := ForecastTimes(rows);
      GeneratorYields(rows, k, i - 1);
      var before := FoldsUpTo(rows, times, k, i - 1);
      if FoldAt(rows, times, k, i - 1).Some? {
        FoldListStep(rows, k, i - 1, before);
      } else {
        FoldListWider(rows, k, i - 1, before);
      }
    }
  }
}
