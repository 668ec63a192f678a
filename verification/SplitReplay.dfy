/** Replaying the recorded manifests of the chronological generator as a frozen plan on the same rows. */
module SplitReplay {
  import opened Wrappers
  import opened Sequences
  import opened TemporalSplits
  import opened FrozenSplits

  function Declared(i: Interval): PlanInterval {
    PlanInterval(Some(i.n), true, Some(i.from), Some(i.to), Some(i.availableThrough))
  }

  /** The report entry of a fold, read back as a plan. */
  function Recorded(f: Fold): PlanFold
    requires NoEmptyPart(f)
  {
    PlanFold(Some(f.index),
             Some(PlanSplit(true, Declared(IntervalOf(f.train)), Declared(IntervalOf(f.selection)),
                            Declared(IntervalOf(f.calibration)), Declared(IntervalOf(f.test)))))
  }

  /** No label is available before its forecast; the dataset check demands more. */
  ghost predicate LabelsFollow(rows: seq<Row>) {
    forall r :: r in rows ==> r.Forecast() <= r.available
  }

  lemma DeclaredValid(rows: seq<Row>)
    requires rows != [] && LabelsFollow(rows)
    ensures ValidInterval(Declared(IntervalOf(rows)))
  {
    var first := MinForecast(rows);
    var r :| r in rows && r.Forecast() == first;
    assert MinForecast(rows) <= MaxForecast(rows) && r.available <= MaxAvailable(rows);
  }

  lemma DeclaredSeparated(a: seq<Row>, b: seq<Row>)
    requires a != [] && b != [] && EndsBefore(a, b) && LabelsFollow(a) && LabelsFollow(b)
    ensures ValidInterval(Declared(IntervalOf(a))) && ValidInterval(Declared(IntervalOf(b)))
    ensures Separated(Declared(IntervalOf(a)), Declared(IntervalOf(b)))
  {
    DeclaredValid(a);
    DeclaredValid(b);
    NoLeak(a, b);
  }

  lemma RecordedWellFormed(f: Fold)
    requires LeakFree(f) && LabelsFollow(f.train) && LabelsFollow(f.selection) && LabelsFollow(f.calibration)
    requires LabelsFollow(f.test)
    ensures WellFormed(Recorded(f))
  {
    DeclaredSeparated(f.train, f.selection);
    DeclaredSeparated(f.selection, f.calibration);
    DeclaredSeparated(f.calibration, f.test);
  }

  lemma GeneratedRecorded(rows: seq<Row>, k: nat, i: nat)
    requires Generated(rows, k, i) && LabelsFollow(rows)
    ensures LeakFree(TheFold(rows, k, i)) && WellFormed(Recorded(TheFold(rows, k, i)))
  {
    GeneratedLeakFree(rows, k, i);
    FoldMembers(rows, k, i);
    hide TheFold;
    hide TheCuts;
    hide CalibrationCut;
    RecordedWellFormed(TheFold(rows, k, i));
  }

  function RecordedAll(folds: seq<Fold>): seq<PlanFold>
    requires forall q :: 0 <= q < |folds| ==> NoEmptyPart(folds[q])
  {
    seq(|folds|, q requires 0 <= q < |folds| => Recorded(folds[q]))
  }

  lemma RecordedTestsAdvance(rows: seq<Row>, k: nat, i: nat, j: nat)
    requires Generated(rows, k, i) && Generated(rows, k, j) && i < j
    requires LeakFree(TheFold(rows, k, i)) && LeakFree(TheFold(rows, k, j))
    ensures MaxForecast(TheFold(rows, k, i).test) < MinForecast(TheFold(rows, k, j).test)
  {
    FoldsAdvance(rows, k, i, j);
    var a, b := TheFold(rows, k, i).test, TheFold(rows, k, j).test;
    hide TheFold;
    var last, first := MaxForecast(a), MinForecast(b);
    var x :| x in a && x.Forecast() == last;
    var y :| y in b && y.Forecast() == first;
  }

  lemma FoldListRecorded(rows: seq<Row>, k: nat, n: nat, folds: seq<Fold>)
    requires FoldList(rows, k, n, folds) && LabelsFollow(rows)
    ensures forall q :: 0 <= q < |folds| ==>
              NoEmptyPart(folds[q]) && LeakFree(folds[q]) && WellFormed(Recorded(folds[q]))
    ensures forall p, q :: 0 <= p < q < |folds| ==>
              folds[p].test != [] && folds[q].test != [] && MaxForecast(folds[p].test) < MinForecast(folds[q].test)
  {
    hide Generated;
    hide TheFold;
    hide EndsBefore;
    hide WellFormed;
    forall q | 0 <= q < |folds| ensures NoEmptyPart(folds[q]) && LeakFree(folds[q]) && WellFormed(Recorded(folds[q])) {
      GeneratedRecorded(rows, k, folds[q].index);
    }
    forall p, q | 0 <= p < q < |folds|
      ensures folds[p].test != [] && folds[q].test != [] && MaxForecast(folds[p].test) < MinForecast(folds[q].test)
    {
      RecordedTestsAdvance(rows, k, folds[p].index, folds[q].index);
    }
  }

  /** The recorded folds form an accepted plan exactly when their number is between one and eight. */
  lemma RecordedAcceptedIff(rows: seq<Row>, k: nat, n: nat, folds: seq<Fold>)
    requires FoldList(rows, k, n, folds) && LabelsFollow(rows)
    ensures forall q :: 0 <= q < |folds| ==> NoEmptyPart(folds[q])
    ensures Accepted(RecordedAll(folds)) <==> 1 <= |folds| <= 8
  {
    FoldListRecorded(rows, k, n, folds);
    assert Increasing(folds);
    hide *;
    RecordedSound(folds);
    AcceptedBySize(RecordedAll(folds));
    assert |RecordedAll(folds)| == |folds| by {
      RecordedSize(folds);
    }
  }

  ghost predicate Increasing(folds: seq<Fold>) {
    forall p, q :: 0 <= p < q < |folds| ==> folds[p].index < folds[q].index
  }

  lemma RecordedSize(folds: seq<Fold>)
    requires forall q :: 0 <= q < |folds| ==> NoEmptyPart(folds[q])
    ensures |RecordedAll(folds)| == |folds|
  {
  }

  lemma AcceptedBySize(plan: seq<PlanFold>)
    requires Sound(plan)
    ensures Accepted(plan) <==> 1 <= |plan| <= 8
  {
  }

  lemma RecordedSound(folds: seq<Fold>)
    requires forall q :: 0 <= q < |folds| ==> NoEmptyPart(folds[q]) && WellFormed(Recorded(folds[q]))
    requires Increasing(folds)
    requires forall p, q :: 0 <= p < q < |folds| ==>
              folds[p].test != [] && folds[q].test != [] && MaxForecast(folds[p].test) < MinForecast(folds[q].test)
    ensures Sound(RecordedAll(folds))
  {
    hide WellFormed;
    hide MinForecast;
    hide MaxForecast;
    hide MaxAvailable;
    hide SortedIds;
    var plan := RecordedAll(folds);
    forall p, q | 0 <= p < q < |plan|
      ensures plan[p].fold.value < plan[q].fold.value
      ensures plan[p].split.value.test.to.value < plan[q].split.value.test.from.value
    {
    }
  }

  // ---------- Which rows the replay selects ----------

  /** The two inner groups, written as conditions on the original rows. */
  lemma InnerGroups(rows: seq<Row>, k: nat, i: nat)
    requires Generated(rows, k, i)
    ensures var f := TheFold(rows, k, i); var c := TheCuts(rows, k, i); var cs := CalibrationCut(rows, k, i);
            && f.train == Filter(rows, Window(None, Some(c.validation), Some(c.validation)))
            && f.selection == Filter(rows, Window(Some(c.validation), Some(cs), Some(cs)))
            && f.calibration == Filter(rows, Window(Some(cs), Some(c.test), Some(c.test)))
            && f.test == Filter(rows, Window(Some(c.test), c.end, None))
  {
    FoldMembers(rows, k, i);
    var c, cs := TheCuts(rows, k, i), CalibrationCut(rows, k, i);
    var validation := Window(Some(c.validation), Some(c.test), Some(c.test));
    FilterTwice(rows, validation, Window(None, Some(cs), Some(cs)), Window(Some(c.validation), Some(cs), Some(cs)));
    FilterTwice(rows, validation, Window(Some(cs), None, None), Window(Some(cs), Some(c.test), Some(c.test)));
  }

  /** The calibration group begins exactly at its cut and the test group exactly at the test boundary. */
  lemma GroupsStartAtCuts(rows: seq<Row>, k: nat, i: nat)
    requires Generated(rows, k, i)
    ensures var f := TheFold(rows, k, i);
            && f.calibration != [] && f.test != []
            && MinForecast(f.calibration) == CalibrationCut(rows, k, i)
            && MinForecast(f.test) == TheCuts(rows, k, i).test
  {
    var f, c, cs := TheFold(rows, k, i), TheCuts(rows, k, i), CalibrationCut(rows, k, i);
    FoldMembers(rows, k, i);
    assert |f.calibration| >= 2 && |f.test| >= 5;
    CutsAreTimes(rows, k, i);
    var x :| x in rows && c.validation <= x.Forecast() < c.test && x.available < c.test && x.Forecast() == cs;
    var y :| y in rows && y.Forecast() == c.test;
    hide TheFold;
    hide TheCuts;
    hide CalibrationCut;
    assert x in f.calibration;
    assert f.test[0] in f.test;
    assert y in f.test;
  }

  lemma CutsAreTimes(rows: seq<Row>, k: nat, i: nat)
    requires Generated(rows, k, i)
    ensures var c := TheCuts(rows, k, i);
            && (exists x :: x in rows && c.validation <= x.Forecast() < c.test && x.available < c.test
                            && x.Forecast() == CalibrationCut(rows, k, i))
            && exists y :: y in rows && y.Forecast() == c.test
  {
    var times := ForecastTimes(rows);
    var c := TheCuts(rows, k, i);
    var validation := ValidationRows(rows, c);
    FoldMembers(rows, k, i);
    ForecastTimesFacts(rows);
    ForecastTimesFacts(validation);
    FilterMembers(rows, Window(Some(c.validation), Some(c.test), Some(c.test)));
    BoundariesIncrease(|times|, k, i, i + 1);
    var inner := ForecastTimes(validation);
    var at := Max(1, |inner| * 2 / 3);
    var x :| x in validation && x.Forecast() == inner[at];
    var start := TestBoundary(|times|, k, i);
    var y :| y in rows && y.Forecast() == times[start];
  }

  lemma MinMax(rows: seq<Row>, r: Row)
    requires r in rows
    ensures MinForecast(rows) <= r.Forecast() <= MaxForecast(rows)
  {
  }

  /** A group cut out by a window is cut out again by its own first and last forecast. */
  lemma WindowReplay(rows: seq<Row>, group: seq<Row>, from: Option<int>, end: Option<int>, known: Option<int>)
    requires group != [] && group == Filter(rows, Window(from, end, known))
    ensures Filter(rows, InWindow(MinForecast(group), MaxForecast(group), known)) == group
  {
    var keep := Window(from, end, known);
    FilterMembers(rows, keep);
    var first, last := MinForecast(group), MaxForecast(group);
    var x :| x in group && x.Forecast() == first;
    var y :| y in group && y.Forecast() == last;
    var again := InWindow(first, last, known);
    forall r | r in rows ensures again(r) == keep(r) {
      if keep(r) {
        assert r in group;
        MinMax(group, r);
      }
    }
    FilterCong(rows, again, keep);
  }

  /** What the replay of a recorded fold filters. */
  lemma RecordedGroups(rows: seq<Row>, f: Fold)
    requires LeakFree(f) && WellFormed(Recorded(f))
    ensures var w := WindowFold(rows, Recorded(f));
            && w.train == SortBy(ByForecast(), Filter(rows,
                 InWindow(MinForecast(f.train), MaxForecast(f.train), Some(MinForecast(f.selection)))))
            && w.selection == SortBy(ByForecast(), Filter(rows,
                 InWindow(MinForecast(f.selection), MaxForecast(f.selection), Some(MinForecast(f.calibration)))))
            && w.calibration == SortBy(ByForecast(), Filter(rows,
                 InWindow(MinForecast(f.calibration), MaxForecast(f.calibration), Some(MinForecast(f.test)))))
            && w.test == SortBy(ByForecast(), Filter(rows,
                 InWindow(MinForecast(f.test), MaxForecast(f.test), None)))
  {
  }

  /** The recorded plan of a generated fold, applied to the same rows. */
  ghost function Replayed(rows: seq<Row>, k: nat, i: nat): Fold
    requires Generated(rows, k, i) && LabelsFollow(rows)
  {
    GeneratedRecorded(rows, k, i);
    WindowFold(rows, Recorded(TheFold(rows, k, i)))
  }

  /** The replayed selection, calibration and test groups are the original ones, sorted. */
  lemma ReplayKeepsGroups(rows: seq<Row>, k: nat, i: nat)
    requires Generated(rows, k, i) && LabelsFollow(rows)
    ensures var f := TheFold(rows, k, i); var w := Replayed(rows, k, i);
            && w.selection == SortBy(ByForecast(), f.selection)
            && w.calibration == SortBy(ByForecast(), f.calibration)
            && w.test == SortBy(ByForecast(), f.test)
  {
    GeneratedRecorded(rows, k, i);
    InnerGroups(rows, k, i);
    GroupsStartAtCuts(rows, k, i);
    var f, c, cs := TheFold(rows, k, i), TheCuts(rows, k, i), CalibrationCut(rows, k, i);
    assert Replayed(rows, k, i) == WindowFold(rows, Recorded(f));
    assert f.selection != [] && f.calibration != [] && f.test != [];
    hide *;
    RecordedGroups(rows, f);
    WindowReplay(rows, f.selection, Some(c.validation), Some(cs), Some(cs));
    WindowReplay(rows, f.calibration, Some(cs), Some(c.test), Some(c.test));
    WindowReplay(rows, f.test, Some(c.test), c.end, None);
  }

  /** A row inside the train window whose label came at or after the validation cut and before the first selection
      forecast. */
  ghost predicate GapRow(f: Fold, cut: int, r: Row)
    requires f.train != [] && f.selection != []
  {
    MinForecast(f.train) <= r.Forecast() <= MaxForecast(f.train) && cut <= r.available < MinForecast(f.selection)
  }

  /** The replayed train group holds the original rows and exactly these rows besides; it is still leak-free. */
  lemma ReplayTrain(rows: seq<Row>, k: nat, i: nat)
    requires Generated(rows, k, i) && LabelsFollow(rows)
    ensures var f := TheFold(rows, k, i); var w := Replayed(rows, k, i); var cut := TheCuts(rows, k, i).validation;
            && LeakFree(f) && LeakFree(w)
            && (forall r :: r in w.train <==> r in f.train || (r in rows && GapRow(f, cut, r)))
            && (forall r :: r in f.train ==> !GapRow(f, cut, r))
  {
    hide *;
    ReplayedIs(rows, k, i);
    FoldMembers(rows, k, i);
    ReplayKeepsGroups(rows, k, i);
    var f, w, c := TheFold(rows, k, i), Replayed(rows, k, i), TheCuts(rows, k, i);
    RecordedGroups(rows, f);
    TrainMembers(rows, f, w, c.validation);
    SortedNonEmpty(f.selection);
    SortedNonEmpty(f.calibration);
    SortedNonEmpty(f.test);
    ReplayLeakFree(rows, f, w);
  }

  lemma ReplayedIs(rows: seq<Row>, k: nat, i: nat)
    requires Generated(rows, k, i) && LabelsFollow(rows)
    ensures LeakFree(TheFold(rows, k, i)) && WellFormed(Recorded(TheFold(rows, k, i)))
    ensures Replayed(rows, k, i) == WindowFold(rows, Recorded(TheFold(rows, k, i)))
  {
    GeneratedRecorded(rows, k, i);
  }

  lemma SortedNonEmpty(rows: seq<Row>)
    ensures rows != [] ==> SortBy(ByForecast(), rows) != []
    ensures forall r :: r in SortBy(ByForecast(), rows) <==> r in rows
  {
    ForecastPreorder();
    SortBySorted(ByForecast(), rows);
  }

  lemma ReplayLeakFree(rows: seq<Row>, f: Fold, w: Fold)
    requires LeakFree(f) && WellFormed(Recorded(f)) && w == WindowFold(rows, Recorded(f))
    requires w.selection != [] && w.calibration != [] && w.test != [] && (forall r :: r in f.train ==> r in w.train)
    ensures LeakFree(w)
  {
    assert f.train[0] in w.train;
    FrozenLeakFree(rows, Recorded(f));
  }

  lemma TrainMembers(rows: seq<Row>, f: Fold, w: Fold, cut: int)
    requires LeakFree(f)
    requires w.train == SortBy(ByForecast(), Filter(rows,
               InWindow(MinForecast(f.train), MaxForecast(f.train), Some(MinForecast(f.selection)))))
    requires forall r :: r in f.train <==> r in rows && r.Forecast() < cut && r.available < cut
    requires forall r :: r in f.selection ==> cut <= r.Forecast()
    ensures forall r :: r in w.train <==> r in f.train || (r in rows && GapRow(f, cut, r))
    ensures forall r :: r in f.train ==> !GapRow(f, cut, r)
  {
    var keep := InWindow(MinForecast(f.train), MaxForecast(f.train), Some(MinForecast(f.selection)));
    FilterMembers(rows, keep);
    SortedNonEmpty(Filter(rows, keep));
    var first, last := MinForecast(f.selection), MaxForecast(f.train);
    var y :| y in f.selection && y.Forecast() == first;
    var x :| x in f.train && x.Forecast() == last;
    forall r ensures r in w.train <==> r in f.train || (r in rows && GapRow(f, cut, r)) {
      if r in f.train {
        MinMax(f.train, r);
      }
    }
  }
}
