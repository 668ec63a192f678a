/** From the season planner through the plan checker to the fixed-window generator. */
module SeasonRoundTrip {
  import opened Wrappers
  import opened Sequences
  import opened Calendar
  import opened TemporalSplits
  import opened FrozenSplits
  import opened SeasonWindows
  import opened SeasonPlan

  // ---------- Every plan is accepted ----------

  lemma CheckedLabel(r: SeasonRow, asOf: int)
    requires RowProblem(r, asOf) == None
    ensures r.row.Forecast() < r.row.available
  {
    hide InSeason;
  }

  lemma PlannedIntervalValid(rows: seq<SeasonRow>, asOf: int, j: nat, p: nat)
    requires Checked(rows, asOf) && p < 4 && PartRows(rows, j, p) != []
    ensures ValidInterval(PlannedPart(rows, j, p))
  {
    hide PartStart;
    hide RowProblem;
    PartsFollow(j);
    var used := PartRows(rows, j, p);
    UsedAreKept(rows, PartStart(j, p), PartStart(j, p + 1), PartBoundary(j, p));
    hide UsedRows;
    var r := used[0];
    assert r in used;
    CheckedLabel(r, asOf);
    PlainMembers(used);
    assert r.row in Plain(used);
  }

  lemma PlannedWellFormed(rows: seq<SeasonRow>, asOf: int, j: nat)
    requires Checked(rows, asOf) && NoEmptyWindow(rows, j)
    ensures WellFormed(PlannedFold(rows, j))
  {
    hide PartRows;
    hide PlannedPart;
    hide RowProblem;
    PlannedIntervalValid(rows, asOf, j, 0);
    PlannedIntervalValid(rows, asOf, j, 1);
    PlannedIntervalValid(rows, asOf, j, 2);
    PlannedIntervalValid(rows, asOf, j, 3);
    PlannedFoldValid(rows, j);
  }

  ghost predicate TestBounds(f: PlanFold, j: nat) {
    && f.split.Some?
    && f.split.value.test.from == Some(PartStart(j, 3))
    && f.split.value.test.to == Some(PartStart(j, 4) - MILLISECOND)
  }

  lemma PlannedFacts(rows: seq<SeasonRow>, asOf: int, j: nat, f: PlanFold)
    requires Checked(rows, asOf) && NoEmptyWindow(rows, j) && f == PlannedFold(rows, j)
    ensures WellFormed(f) && f.fold == Some(j) && TestBounds(f, j)
  {
    hide PartStart;
    hide RowProblem;
    hide WellFormed;
    hide PartRows;
    hide MaxAvailable;
    PlannedWellFormed(rows, asOf, j);
  }

  /** The trainer's checker accepts whatever the planner returns. */
  lemma PlanAccepted(rows: seq<SeasonRow>, asOf: int, folds: seq<PlanFold>)
    requires Checked(rows, asOf) && |folds| == FOLDS && Planned(rows, folds)
    ensures Accepted(folds)
  {
    hide PartStart;
    hide NoEmptyWindow;
    hide PlannedFold;
    hide WellFormed;
    hide Checked;
    forall q: nat | q < |folds|
      ensures WellFormed(folds[q]) && folds[q].fold == Some(q) && TestBounds(folds[q], q)
    {
      PlannedFacts(rows, asOf, q, folds[q]);
    }
    forall p: nat, q: nat | p < q < |folds|
      ensures folds[p].split.value.test.to.value < folds[q].split.value.test.from.value
    {
      TestStartsIncrease(p, q);
    }
  }

  // ---------- The generator selects the planned rows ----------

  lemma {:induction false} FilterPlain(rows: seq<SeasonRow>, p: SeasonRow -> bool, q: Row -> bool)
    requires forall r :: r in rows ==> p(r) == q(r.row)
    ensures Plain(Filter(rows, p)) == Filter(Plain(rows), q)
  {
    if rows != [] {
      var n := |rows| - 1;
      FilterPlain(rows[..n], p, q);
      assert rows[n] in rows;
      assert Plain(rows)[..n] == Plain(rows[..n]);
    }
  }

  lemma PlainSorted(rows: seq<SeasonRow>)
    requires SortedBy(ByTime(), rows)
    ensures SortedBy(ByForecast(), Plain(rows))
  {
    forall i, j | 0 <= i < j < |rows| ensures ByForecast()(Plain(rows)[i], Plain(rows)[j]) {
      assert ByTime()(rows[i], rows[j]);
    }
  }

  /** A forecast in the last millisecond of the part, which the declared inclusive end does not cover. */
  ghost predicate InLastMillisecond(r: SeasonRow, j: nat, p: nat) {
    && PartStart(j, p + 1) - MILLISECOND < r.row.Forecast() < PartStart(j, p + 1)
    && (p < 3 ==> r.row.available < PartStart(j, p + 1))
  }

  /** The generator's window predicate for a planned part. */
  function Replayed(j: nat, p: nat): Row -> bool {
    InWindow(PartStart(j, p), PartStart(j, p + 1) - MILLISECOND, PartBoundary(j, p))
  }

  lemma ReplayedGroup(rows: seq<SeasonRow>, asOf: int, j: nat, p: nat)
    requires Checked(rows, asOf) && SortedBy(ByTime(), rows) && NoEmptyWindow(rows, j) && p < 4
    ensures WellFormed(PlannedFold(rows, j))
    ensures WindowGroup(Plain(rows), PlannedFold(rows, j).split.value, p) == Filter(Plain(rows), Replayed(j, p))
  {
    hide PartStart;
    hide PartRows;
    hide MaxAvailable;
    hide Filter;
    hide SortBy;
    hide RowProblem;
    PlannedWellFormed(rows, asOf, j);
    PlainSorted(rows);
    FilterSorted(Plain(rows), Replayed(j, p), ByForecast());
    SortBySame(ByForecast(), Filter(Plain(rows), Replayed(j, p)));
  }

  /** On the checked rows, the generator selects in a part exactly the rows that the planner counted there,
      unless a usable row is forecast in the last millisecond of the part. */
  lemma RoundTripIff(rows: seq<SeasonRow>, asOf: int, j: nat, p: nat)
    requires Checked(rows, asOf) && SortedBy(ByTime(), rows) && NoEmptyWindow(rows, j) && p < 4
    ensures WellFormed(PlannedFold(rows, j))
    ensures WindowGroup(Plain(rows), PlannedFold(rows, j).split.value, p) == Plain(PartRows(rows, j, p))
            <==> forall r :: r in rows ==> !InLastMillisecond(r, j, p)
  {
    hide PartStart;
    hide Filter;
    hide RowProblem;
    hide WindowGroup;
    hide PlannedFold;
    hide WellFormed;
    hide NoEmptyWindow;
    ReplayedGroup(rows, asOf, j, p);
    var start, end, next := PartStart(j, p), PartStart(j, p + 1), PartBoundary(j, p);
    UsedAreKept(rows, start, end, next);
    hide UsedRows;
    PartsFollow(j);
    var kept := (r: Row) => start <= r.Forecast() < end && (next.Some? ==> r.available < next.value);
    FilterPlain(rows, Kept(start, end, next), kept);
    FilterSameIff(Plain(rows), kept, Replayed(j, p));
    PlainMembers(rows);
  }

  /** In every part before the test part the selected rows are always the planned ones: labels follow by two hours. */
  lemma EarlierPartsExact(rows: seq<SeasonRow>, asOf: int, j: nat, p: nat)
    requires Checked(rows, asOf) && SortedBy(ByTime(), rows) && NoEmptyWindow(rows, j) && p < 3
    ensures WellFormed(PlannedFold(rows, j))
    ensures WindowGroup(Plain(rows), PlannedFold(rows, j).split.value, p) == Plain(PartRows(rows, j, p))
  {
    forall r | r in rows ensures !InLastMillisecond(r, j, p) {
      LabelLag(r, asOf);
      hide PartStart;
    }
    hide *;
    RoundTripIff(rows, asOf, j, p);
  }

  lemma LabelLag(r: SeasonRow, asOf: int)
    requires RowProblem(r, asOf) == None
    ensures r.row.Forecast() + RESULT_DELAY < r.row.available
  {
    hide InSeason;
  }

  // ---------- Datasets with millisecond timestamps ----------

  /** The times written by the dataset builder have three decimals of a second. */
  ghost predicate Milliseconds(rows: seq<SeasonRow>) {
    forall r :: r in rows ==> r.row.Forecast() % MILLISECOND == 0
  }

  lemma NoLastMillisecond(r: SeasonRow, j: nat, p: nat)
    requires r.row.Forecast() % MILLISECOND == 0
    ensures !InLastMillisecond(r, j, p)
  {
    hide MonthStart;
    WholeMilliseconds(2022 * 12 + 6);
    WholeMilliseconds(TestMonth(j) - 4);
    WholeMilliseconds(TestMonth(j) - 2);
    WholeMilliseconds(TestMonth(j));
    WholeMilliseconds(TestMonth(j) + 6);
    WholeGap(r.row.Forecast(), PartStart(j, p + 1));
  }

  lemma WholeGap(t: int, end: int)
    requires t % MILLISECOND == 0 && end % MILLISECOND == 0
    ensures !(end - MILLISECOND < t < end)
  {
  }

  lemma GroupRoundTrip(rows: seq<SeasonRow>, asOf: int, j: nat, p: nat, f: PlanFold)
    requires Checked(rows, asOf) && SortedBy(ByTime(), rows) && Milliseconds(rows)
    requires NoEmptyWindow(rows, j) && f == PlannedFold(rows, j) && p < 4 && WellFormed(f)
    ensures WindowGroup(Plain(rows), f.split.value, p) == Plain(PartRows(rows, j, p))
    ensures PartRows(rows, j, p) != [] && Plain(PartRows(rows, j, p)) != []
  {
    hide PlannedFold;
    hide InLastMillisecond;
    hide PartRows;
    hide WindowGroup;
    hide RowProblem;
    forall r | r in rows ensures !InLastMillisecond(r, j, p) {
      NoLastMillisecond(r, j, p);
    }
    RoundTripIff(rows, asOf, j, p);
    PlainMembers(PartRows(rows, j, p));
  }

  lemma FoldRoundTrip(rows: seq<SeasonRow>, asOf: int, j: nat, f: PlanFold)
    requires Checked(rows, asOf) && SortedBy(ByTime(), rows) && Milliseconds(rows)
    requires NoEmptyWindow(rows, j) && f == PlannedFold(rows, j)
    ensures WellFormed(f) && f.fold == Some(j)
    ensures forall p: nat :: p < 4 ==> WindowFold(Plain(rows), f).Part(p) == Plain(PartRows(rows, j, p))
    ensures NoEmptyPart(WindowFold(Plain(rows), f))
  {
    hide PlannedFold;
    hide PartRows;
    hide WindowGroup;
    hide RowProblem;
    hide ByTime;
    PlannedFacts(rows, asOf, j, f);
    GroupRoundTrip(rows, asOf, j, 0, f);
    GroupRoundTrip(rows, asOf, j, 1, f);
    GroupRoundTrip(rows, asOf, j, 2, f);
    GroupRoundTrip(rows, asOf, j, 3, f);
  }

  /** Planner, checker and generator agree: the frozen generator yields, on the checked rows, six folds whose
      groups are the rows that the planner used, and no check of it fails. */
  method PlanAndReplay(header: Header, quality: Policy, dataset: seq<SeasonRow>, asOf: int)
    returns (yielded: seq<Fold>, error: Option<SplitError>)
    requires HeaderProblem(header, quality) == None && Plannable(dataset, asOf) && Milliseconds(dataset)
    ensures error == None && |yielded| == FOLDS
    ensures forall j: nat, p: nat :: j < FOLDS && p < 4 ==> yielded[j].Part(p) == Plain(PartRows(Sorted(dataset), j, p))
  {
    var plan := BuildPlan(header, quality, dataset, asOf);
    var folds, rows := plan.value, Sorted(dataset);
    SortedChecked(dataset, asOf);
    hide Checked;
    hide SortBy;
    hide NoEmptyWindow;
    hide PlannedFold;
    hide PartRows;
    hide NoEmptyPart;
    hide WindowFold;
    hide SameTargetSeason;
    PlanAccepted(rows, asOf, folds);
    forall j: nat | j < FOLDS
      ensures NoEmptyPart(WindowFold(Plain(rows), folds[j]))
      ensures forall p: nat :: p < 4 ==> WindowFold(Plain(rows), folds[j]).Part(p) == Plain(PartRows(rows, j, p))
    {
      FoldRoundTrip(rows, asOf, j, folds[j]);
    }
    yielded, error := FixedWindowFolds(Plain(rows), PlanDoc(Some(folds)));
  }
}
