/** Building the season plan of six development windows: when it succeeds, and what its test windows cover. */
module SeasonPlan {
  import opened Wrappers
  import opened Sequences
  import opened Calendar
  import opened TemporalSplits
  import opened FrozenSplits
  import opened SeasonWindows

  const FOLDS := 6

  // ---------- Test coverage ----------

  function Ids(rows: seq<SeasonRow>): seq<string> {
    seq(|rows|, i requires 0 <= i < |rows| => rows[i].row.id)
  }

  /** The ids of the first j test windows, window after window. */
  function TestIds(rows: seq<SeasonRow>, j: nat): seq<string> {
    if j == 0 then [] else TestIds(rows, j - 1) + Ids(PartRows(rows, j - 1, 3))
  }

  function Target(r: SeasonRow): bool {
    r.season.Some? && TargetYear(r.season.value)
  }

  function EligibleIds(rows: seq<SeasonRow>): set<string> {
    set r | r in rows && Target(r) :: r.row.id
  }

  /** Every row used in a test window belongs to the season of the window. */
  ghost predicate OwnSeason(rows: seq<SeasonRow>, j: nat) {
    forall r :: r in PartRows(rows, j, 3) ==> r.season == Some(SeasonOfFold(j))
  }

  /** Every target row is forecast inside some test window. */
  ghost predicate Covered(rows: seq<SeasonRow>) {
    forall r :: r in rows && Target(r) ==> exists j: nat :: j < FOLDS && InTest(r.row.Forecast(), j)
  }

  /** Forecast and kickoff of every row lie in the same one of the three seasons, or both in none. */
  ghost predicate SameTargetSeason(rows: seq<SeasonRow>) {
    forall r, year :: r in rows && TargetYear(year) ==>
      (InSeason(r.row.Forecast(), year) <==> InSeason(r.kickoff, year))
  }

  lemma TestRowsOf(rows: seq<SeasonRow>, j: nat)
    requires DistinctKeys(rows, IdOf())
    ensures forall r :: r in PartRows(rows, j, 3) <==> r in rows && InTest(r.row.Forecast(), j)
    ensures AllDistinct(Ids(PartRows(rows, j, 3)))
  {
    hide PartStart;
    UsedAreKept(rows, PartStart(j, 3), PartStart(j, 4), None);
    DistinctFilter(rows, Kept(PartStart(j, 3), PartStart(j, 4), None), IdOf());
    var used := PartRows(rows, j, 3);
    hide PartRows;
    forall a, b | 0 <= a < b < |used| ensures used[a].row.id != used[b].row.id {
      assert IdOf()(used[a]) != IdOf()(used[b]);
    }
  }

  lemma {:induction false} TestIdsOf(rows: seq<SeasonRow>, j: nat)
    requires DistinctKeys(rows, IdOf())
    ensures forall id :: id in TestIds(rows, j) <==>
              exists r, i: nat :: r in rows && i < j && InTest(r.row.Forecast(), i) && r.row.id == id
    ensures AllDistinct(TestIds(rows, j))
  {
    hide PartRows;
    hide InTest;
    if j > 0 {
      TestIdsOf(rows, j - 1);
      TestRowsOf(rows, j - 1);
      var before, last, used := TestIds(rows, j - 1), Ids(PartRows(rows, j - 1, 3)), PartRows(rows, j - 1, 3);
      forall id | id in last ensures exists r :: r in rows && InTest(r.row.Forecast(), j - 1) && r.row.id == id {
        var k :| 0 <= k < |last| && last[k] == id;
        assert used[k] in used;
      }
      forall r | r in rows && InTest(r.row.Forecast(), j - 1) ensures r.row.id in last {
        var k :| 0 <= k < |used| && used[k] == r;
        assert last[k] == r.row.id;
      }
      forall id | id in before && id in last ensures false {
        var r, i: nat :| r in rows && i < j - 1 && InTest(r.row.Forecast(), i) && r.row.id == id;
        var s :| s in rows && InTest(s.row.Forecast(), j - 1) && s.row.id == id;
        SameRow(rows, r, s);
        TestWindowsTile(r.row.Forecast());
      }
    }
  }

  /** The coverage check succeeds exactly when every target row is forecast inside some test window,
      provided no test window holds a row of another season. */
  lemma CoverageIff(rows: seq<SeasonRow>)
    requires DistinctKeys(rows, IdOf()) && forall j: nat :: j < FOLDS ==> OwnSeason(rows, j)
    ensures AllDistinct(TestIds(rows, FOLDS))
    ensures (set id | id in TestIds(rows, FOLDS)) == EligibleIds(rows) <==> Covered(rows)
  {
    hide PartRows;
    hide InTest;
    hide TestIds;
    hide AllDistinct;
    TestIdsOf(rows, FOLDS);
    var covered := set id | id in TestIds(rows, FOLDS);
    forall id | id in covered ensures id in EligibleIds(rows) {
      var r, i: nat :| r in rows && i < FOLDS && InTest(r.row.Forecast(), i) && r.row.id == id;
      TestRowsOf(rows, i);
      assert OwnSeason(rows, i) && r in PartRows(rows, i, 3);
    }
    if covered == EligibleIds(rows) {
      forall r | r in rows && Target(r) ensures exists j: nat :: j < FOLDS && InTest(r.row.Forecast(), j) {
        assert r.row.id in covered;
        var s, i: nat :| s in rows && i < FOLDS && InTest(s.row.Forecast(), i) && s.row.id == r.row.id;
        SameRow(rows, r, s);
      }
    }
    if Covered(rows) {
      forall id | id in EligibleIds(rows) ensures id in covered {
        var r :| r in rows && Target(r) && r.row.id == id;
      }
    }
  }

  lemma SeasonUnique(t: int, a: int, b: int)
    requires InSeason(t, a) && InSeason(t, b)
    ensures a == b
  {
    hide MonthStart;
    if a < b {
      MonthsIncrease((a + 1) * 12 + 5, b * 12 + 6);
      MonthsIncrease((a + 1) * 12 + 5, (a + 1) * 12 + 6);
      if a + 1 < b {
        MonthsIncrease((a + 1) * 12 + 6, b * 12 + 6);
      }
    } else if b < a {
      if b + 1 < a {
        MonthsIncrease((b + 1) * 12 + 6, a * 12 + 6);
      }
    }
  }

  lemma CheckedSeason(r: SeasonRow, asOf: int)
    requires RowProblem(r, asOf) == None
    ensures r.season.Some? && InSeason(r.kickoff, r.season.value)
  {
    hide InSeason;
  }

  lemma TestInSeason(t: int, j: nat)
    requires j < FOLDS && InTest(t, j)
    ensures TargetYear(SeasonOfFold(j)) && InSeason(t, SeasonOfFold(j))
  {
    hide InSeason;
    hide InTest;
    SeasonTiled(t, SeasonOfFold(j));
  }

  ghost predicate RowAgrees(r: SeasonRow) {
    forall year :: TargetYear(year) ==> (InSeason(r.row.Forecast(), year) <==> InSeason(r.kickoff, year))
  }

  ghost predicate RowCovered(r: SeasonRow) {
    && (forall j: nat :: j < FOLDS && InTest(r.row.Forecast(), j) ==> r.season == Some(SeasonOfFold(j)))
    && (Target(r) ==> exists j: nat :: j < FOLDS && InTest(r.row.Forecast(), j))
  }

  lemma RowAgreesIff(r: SeasonRow, asOf: int)
    requires RowProblem(r, asOf) == None
    ensures RowCovered(r) <==> RowAgrees(r)
  {
    hide InSeason;
    hide InTest;
    hide RowProblem;
    var t := r.row.Forecast();
    CheckedSeason(r, asOf);
    if RowCovered(r) {
      forall year | TargetYear(year) ensures InSeason(t, year) <==> InSeason(r.kickoff, year) {
        SeasonTiled(t, year);
        if InSeason(r.kickoff, year) {
          SeasonUnique(r.kickoff, year, r.season.value);
        }
        if Target(r) {
          var j: nat :| j < FOLDS && InTest(t, j);
          TestInSeason(t, j);
        }
      }
    }
    if RowAgrees(r) {
      forall j: nat | j < FOLDS && InTest(t, j) ensures r.season == Some(SeasonOfFold(j)) {
        TestInSeason(t, j);
        SeasonUnique(r.kickoff, SeasonOfFold(j), r.season.value);
      }
      if Target(r) {
        SeasonTiled(t, r.season.value);
      }
    }
  }

  /** The season test on the windows and the coverage test together are a condition on single rows. */
  lemma SeasonsAgreeIff(rows: seq<SeasonRow>, asOf: int)
    requires Checked(rows, asOf)
    ensures ((forall j: nat :: j < FOLDS ==> OwnSeason(rows, j)) && Covered(rows)) <==> SameTargetSeason(rows)
  {
    hide InSeason;
    hide InTest;
    hide RowProblem;
    hide PartRows;
    forall r | r in rows ensures RowCovered(r) <==> RowAgrees(r) {
      RowAgreesIff(r, asOf);
    }
    forall j: nat | j < FOLDS
      ensures forall r :: r in PartRows(rows, j, 3) <==> r in rows && InTest(r.row.Forecast(), j)
    {
      TestRowsOf(rows, j);
    }
    assert SameTargetSeason(rows) <==> forall r :: r in rows ==> RowAgrees(r);
    if forall r :: r in rows ==> RowCovered(r) {
      forall j: nat | j < FOLDS ensures OwnSeason(rows, j) {
        forall r | r in PartRows(rows, j, 3) ensures r.season == Some(SeasonOfFold(j)) {
          assert RowCovered(r);
        }
      }
    }
    if (forall j: nat :: j < FOLDS ==> OwnSeason(rows, j)) && Covered(rows) {
      forall r | r in rows ensures RowCovered(r) {
        forall j: nat | j < FOLDS && InTest(r.row.Forecast(), j) ensures r.season == Some(SeasonOfFold(j)) {
          assert OwnSeason(rows, j) && r in PartRows(rows, j, 3);
        }
      }
    }
  }

  // ---------- Building the plan ----------

  /** What a plan needs: sound rows, no empty window, and forecasts in the season of their match. */
  ghost predicate Plannable(rows: seq<SeasonRow>, asOf: int) {
    && Checked(rows, asOf)
    && (forall j: nat :: j < FOLDS ==> NoEmptyWindow(Sorted(rows), j))
    && SameTargetSeason(rows)
  }

  ghost predicate Planned(rows: seq<SeasonRow>, folds: seq<PlanFold>) {
    forall j: nat :: j < |folds| ==> NoEmptyWindow(rows, j) && folds[j] == PlannedFold(rows, j)
  }

  ghost predicate FirstEmptyWindow(rows: seq<SeasonRow>, j: nat, p: nat) {
    p < 4 && PartRows(rows, j, p) == [] && forall i: nat :: i < p ==> PartRows(rows, j, i) != []
  }

  /** The first check that a fold fails: an empty window, or a test row of another season. */
  ghost predicate WindowFails(rows: seq<SeasonRow>, j: nat, error: PlanError) {
    || (exists p: nat :: FirstEmptyWindow(rows, j, p) && error == EmptyWindow(j, p))
    || (NoEmptyWindow(rows, j) && !OwnSeason(rows, j) && error == OtherSeasonInTest(j))
  }

  ghost predicate FoldsFine(rows: seq<SeasonRow>, j: nat) {
    forall i: nat :: i < j ==> NoEmptyWindow(rows, i) && OwnSeason(rows, i)
  }

  ghost predicate FirstFoldFails(rows: seq<SeasonRow>, j: nat, error: PlanError) {
    j < FOLDS && FoldsFine(rows, j) && WindowFails(rows, j, error)
  }

  /** The first check that fails: header and rows, the folds in order, the test coverage. The check of the finished
      windows is none of them. */
  ghost predicate BuildFails(header: Header, quality: Policy, rows: seq<SeasonRow>, asOf: int, error: PlanError) {
    if HeaderProblem(header, quality).Some? || !Checked(rows, asOf) then CheckFails(header, quality, rows, asOf, error)
    else if FoldsFine(Sorted(rows), FOLDS) then !Covered(Sorted(rows)) && error == CoverageNotExact
    else exists j: nat :: FirstFoldFails(Sorted(rows), j, error)
  }

  /** The four windows of the fold whose test block starts in the given month. */
  method PlanWindows(rows: seq<SeasonRow>, fold: nat, year: int, month: int)
    returns (r: Result<PlanFold, PlanError>, testIds: seq<string>)
    requires month == TestMonth(fold) && year == SeasonOfFold(fold)
    ensures r.Ok? <==> NoEmptyWindow(rows, fold) && OwnSeason(rows, fold)
    ensures r.Ok? ==> r.value == PlannedFold(rows, fold) && testIds == Ids(PartRows(rows, fold, 3))
    ensures r.Err? ==> WindowFails(rows, fold, r.error)
  {
    hide MonthStart;
    hide UsedRows;
    var selectionStart, calibrationStart, start, end :=
      MonthStart(month - 4), MonthStart(month - 2), MonthStart(month), MonthStart(month + 6);
    var lower := [MonthStart(2022 * 12 + 6), selectionStart, calibrationStart, start];
    var upper := [selectionStart, calibrationStart, start, end];
    var windows: seq<PlanInterval> := [];
    testIds := [];
    for p := 0 to 4
      invariant |windows| == p
      invariant forall i: nat :: i < p ==> PartRows(rows, fold, i) != [] && windows[i] == PlannedPart(rows, fold, i)
      invariant p == 4 ==> OwnSeason(rows, fold) && testIds == Ids(PartRows(rows, fold, 3))
    {
      var boundary := if p < 3 then Some(upper[p]) else None;
      var used := UsedRows(rows, lower[p], upper[p], boundary);
      assert used == PartRows(rows, fold, p);
      if used == [] {
        assert FirstEmptyWindow(rows, fold, p);
        return Err(EmptyWindow(fold, p)), [];
      }
      windows := windows + [PlannedInterval(used, lower[p], upper[p])];
      if p == 3 {
        if exists row :: row in used && row.season != Some(year) {
          return Err(OtherSeasonInTest(fold)), [];
        }
        testIds := Ids(used);
      }
    }
    return Ok(PlanFold(Some(fold), Some(PlanSplit(true, windows[0], windows[1], windows[2], windows[3])))), testIds;
  }

  lemma CheckFailure(header: Header, quality: Policy, rows: seq<SeasonRow>, asOf: int, error: PlanError)
    requires HeaderProblem(header, quality).Some? || !Checked(rows, asOf)
    requires CheckFails(header, quality, rows, asOf, error)
    ensures BuildFails(header, quality, rows, asOf, error)
  {
  }

  lemma FoldFailure(header: Header, quality: Policy, rows: seq<SeasonRow>, asOf: int, j: nat, error: PlanError)
    requires HeaderProblem(header, quality) == None && Checked(rows, asOf)
    requires FirstFoldFails(Sorted(rows), j, error)
    ensures BuildFails(header, quality, rows, asOf, error)
  {
    NotFine(Sorted(rows), j, error);
    hide Checked;
    hide PartRows;
    hide SortBy;
    hide NoEmptyWindow;
    hide OwnSeason;
    hide WindowFails;
  }

  lemma NotFine(rows: seq<SeasonRow>, j: nat, error: PlanError)
    requires FirstFoldFails(rows, j, error)
    ensures !(NoEmptyWindow(rows, j) && OwnSeason(rows, j))
  {
    hide PartRows;
  }

  lemma CoverageFailure(header: Header, quality: Policy, rows: seq<SeasonRow>, asOf: int)
    requires HeaderProblem(header, quality) == None && Checked(rows, asOf)
    requires FoldsFine(Sorted(rows), FOLDS) && !Covered(Sorted(rows))
    ensures BuildFails(header, quality, rows, asOf, CoverageNotExact)
  {
  }

  /** A dataset that cannot be planned has one error. */
  lemma BuildFailsOnce(header: Header, quality: Policy, rows: seq<SeasonRow>, asOf: int, a: PlanError, b: PlanError)
    requires BuildFails(header, quality, rows, asOf, a) && BuildFails(header, quality, rows, asOf, b)
    ensures a == b
  {
    if HeaderProblem(header, quality).Some? || !Checked(rows, asOf) {
      if rows != [] && HeaderProblem(header, quality) == None {
        var i: nat :| FirstProblem(rows, i, asOf, a);
        var j: nat :| FirstProblem(rows, j, asOf, b);
        ProblemsMeet(rows, i, asOf, a, j, b);
        ProblemsMeet(rows, j, asOf, b, i, a);
        hide RowProblem;
      }
    } else if !FoldsFine(Sorted(rows), FOLDS) {
      var i: nat :| FirstFoldFails(Sorted(rows), i, a);
      var j: nat :| FirstFoldFails(Sorted(rows), j, b);
      NotFine(Sorted(rows), i, a);
      NotFine(Sorted(rows), j, b);
      assert i == j;
      WindowFailsOnce(Sorted(rows), i, a, b);
    }
    hide *;
  }

  lemma ProblemsMeet(rows: seq<SeasonRow>, i: nat, asOf: int, a: PlanError, j: nat, b: PlanError)
    requires FirstProblem(rows, i, asOf, a) && FirstProblem(rows, j, asOf, b)
    ensures j <= i && (i == j ==> a == b)
  {
    hide RowProblem;
    assert i < j ==> NoProblemAt(rows, i, asOf);
  }

  lemma WindowFailsOnce(rows: seq<SeasonRow>, j: nat, a: PlanError, b: PlanError)
    requires WindowFails(rows, j, a) && WindowFails(rows, j, b)
    ensures a == b
  {
    hide PartRows;
    hide OwnSeason;
  }

  method BuildPlan(header: Header, quality: Policy, dataset: seq<SeasonRow>, asOf: int)
    returns (r: Result<seq<PlanFold>, PlanError>)
    ensures r.Ok? <==> HeaderProblem(header, quality) == None && Plannable(dataset, asOf)
    ensures r.Ok? ==> |r.value| == FOLDS && Planned(Sorted(dataset), r.value)
    ensures r.Err? ==> BuildFails(header, quality, dataset, asOf, r.error)
  {
    hide NoEmptyWindow;
    hide OwnSeason;
    hide PlannedFold;
    hide SortBy;
    hide RowProblem;
    hide PartRows;
    hide InSeason;
    hide HeaderProblem;
    hide BuildFails;
    hide WindowFails;
    var checked := CheckedRows(header, quality, dataset, asOf);
    if checked.Err? {
      CheckFailure(header, quality, dataset, asOf, checked.error);
      return Err(checked.error);
    }
    var rows := checked.value;
    SortedChecked(dataset, asOf);
    SeasonsAgreeIff(rows, asOf);
    assert SameTargetSeason(rows) <==> SameTargetSeason(dataset);
    var folds: seq<PlanFold> := [];
    var testIds: seq<string> := [];
    for year := FIRST_YEAR to LAST_YEAR + 1
      invariant |folds| == 2 * (year - FIRST_YEAR) && Planned(rows, folds)
      invariant testIds == TestIds(rows, |folds|)
      invariant forall j: nat :: j < |folds| ==> OwnSeason(rows, j)
    {
      for half := 0 to 2
        invariant |folds| == 2 * (year - FIRST_YEAR) + half && Planned(rows, folds)
        invariant testIds == TestIds(rows, |folds|)
        invariant forall j: nat :: j < |folds| ==> OwnSeason(rows, j)
      {
        var fold, ids := PlanWindows(rows, |folds|, year, year * 12 + 6 + 6 * half);
        if fold.Err? {
          FoldFailure(header, quality, dataset, asOf, |folds|, fold.error);
          return Err(fold.error);
        }
        folds := folds + [fold.value];
        testIds := testIds + ids;
      }
    }
    PlannedWindowsValid(rows, folds);
    var valid := ValidateWindows(folds);
    if !valid {
      return Err(InvalidWindows);
    }
    CoverageIff(rows);
    if !AllDistinct(testIds) || (set id | id in testIds) != EligibleIds(rows) {
      CoverageFailure(header, quality, dataset, asOf);
      return Err(CoverageNotExact);
    }
    return Ok(folds);
  }
}
