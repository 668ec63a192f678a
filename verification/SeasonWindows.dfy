/** The calendar planner of six development windows: the row checks, the windows, and their own checks.
    Instants are microseconds. */
module SeasonWindows {
  import opened Wrappers
  import opened Sequences
  import opened Calendar
  import opened TemporalSplits
  import opened FrozenSplits

  /** A dataset row. `season` is the first year of the declared season, None when it cannot be read;
      `historyThrough` is the latest of the feature-metadata times; `barred` says that the match is protected
      or quarantined. */
  datatype SeasonRow = SeasonRow(row: Row, kickoff: int, season: Option<int>, clean: bool, barred: bool,
                                 historyThrough: int)

  /** The quality policy of the repository. */
  datatype Policy = Policy(version: string, action: string, entries: seq<string>)

  /** A hash stands for the policy that was hashed. */
  datatype QualityEvidence = QualityEvidence(policyHash: Policy, version: string, action: string)

  /** A field of a JSON object: absent, an explicit null, or a value. */
  datatype Field<T> = Absent | Null | Present(value: T)

  /** The parts of a dataset beside its rows. `nightly` says that the timing policy mentions the nightly. */
  datatype Header = Header(policy: Option<Policy>, policyHash: Option<Policy>, baselineClean: bool,
                           evidence: Option<QualityEvidence>, nightly: bool, beforeKickoff: bool,
                           resultDelay: Option<int>, hour: Field<int>, minute: Field<int>, timezone: Field<string>)

  datatype PlanError =
    | EmptyDataset | UnauthenticPolicy | NotNightly | NotRomeSchedule
    | DuplicateMatch | BarredTarget | UncleanRow | InvalidAvailability | FutureMetadata
    | InvalidSeason | SeasonDateMismatch
    | EmptyWindow(fold: nat, part: nat) | OtherSeasonInTest(fold: nat) | InvalidWindows | CoverageNotExact

  const RESULT_DELAY: int := 7_200_000_000
  const FIRST_YEAR := 2023
  const LAST_YEAR := 2025

  function July(year: int): int {
    MonthStart(year * 12 + 6)
  }

  /** From July to June. */
  predicate InSeason(t: int, year: int) {
    July(year) <= t < July(year + 1)
  }

  predicate TargetYear(year: int) {
    FIRST_YEAR <= year <= LAST_YEAR
  }

  // ---------- The checked header and rows ----------

  predicate Authentic(h: Header, quality: Policy) {
    && h.policy == Some(quality) && h.policyHash == Some(quality) && h.baselineClean
    && h.evidence == Some(QualityEvidence(quality, quality.version, quality.action))
  }

  /** An absent schedule field has its default; an explicit null has not. */
  predicate DefaultsTo<T(==)>(given: Field<T>, value: T) {
    given == Absent || given == Present(value)
  }

  /** The header checks, in order. */
  function HeaderProblem(h: Header, quality: Policy): Option<PlanError> {
    if !Authentic(h, quality) then Some(UnauthenticPolicy)
    else if !h.nightly || !h.beforeKickoff || h.resultDelay != Some(RESULT_DELAY / 1000) then Some(NotNightly)
    else if !DefaultsTo(h.hour, 3) || !DefaultsTo(h.minute, 7) || !DefaultsTo(h.timezone, "Europe/Rome") then
      Some(NotRomeSchedule)
    else None
  }

  /** The row checks, in order, except for uniqueness. */
  function RowProblem(r: SeasonRow, asOf: int): Option<PlanError> {
    if r.row.id == "" then Some(DuplicateMatch)
    else if r.barred then Some(BarredTarget)
    else if !r.clean then Some(UncleanRow)
    else if r.row.Forecast() >= r.kickoff || r.row.available < r.kickoff + RESULT_DELAY || r.row.available > asOf then
      Some(InvalidAvailability)
    else if r.historyThrough > r.row.Forecast() then Some(FutureMetadata)
    else if r.season == None then Some(InvalidSeason)
    else if !InSeason(r.kickoff, r.season.value) then Some(SeasonDateMismatch)
    else None
  }

  function IdOf(): SeasonRow -> string {
    (r: SeasonRow) => r.row.id
  }

  function ByTime(): (SeasonRow, SeasonRow) -> bool {
    (a: SeasonRow, b: SeasonRow) => KeyLe(a.row.Forecast(), a.row.id, b.row.Forecast(), b.row.id)
  }

  function Sorted(rows: seq<SeasonRow>): seq<SeasonRow> {
    SortBy(ByTime(), rows)
  }

  lemma TimePreorder()
    ensures TotalPreorder(ByTime())
  {
    var le := ByTime();
    forall a, b ensures le(a, b) || le(b, a) {
      KeyOrder(a.row.Forecast(), a.row.id, b.row.Forecast(), b.row.id, 0, "");
    }
    forall a, b, c | le(a, b) && le(b, c) ensures le(a, c) {
      KeyOrder(a.row.Forecast(), a.row.id, b.row.Forecast(), b.row.id, c.row.Forecast(), c.row.id);
    }
  }

  /** What a successful check guarantees. */
  ghost predicate Checked(rows: seq<SeasonRow>, asOf: int) {
    && rows != [] && DistinctKeys(rows, IdOf())
    && forall r :: r in rows ==> RowProblem(r, asOf) == None
  }

  lemma SortedChecked(rows: seq<SeasonRow>, asOf: int)
    requires Checked(rows, asOf)
    ensures Checked(Sorted(rows), asOf) && SortedBy(ByTime(), Sorted(rows))
    ensures forall r :: r in Sorted(rows) <==> r in rows
  {
    hide RowProblem;
    TimePreorder();
    SortBySorted(ByTime(), rows);
    hide SortBy;
    DistinctPermutation(rows, Sorted(rows), IdOf());
    assert rows[0] in Sorted(rows);
  }

  lemma RepeatedId(rows: seq<SeasonRow>, i: nat, j: nat)
    requires i < j < |rows| && rows[i].row.id == rows[j].row.id
    ensures !DistinctKeys(rows, IdOf())
  {
    assert IdOf()(rows[i]) == IdOf()(rows[j]);
  }

  /** What the loop finds at a row after the rows before it. */
  predicate ProblemAt(rows: seq<SeasonRow>, i: nat, asOf: int, error: PlanError)
    requires i < |rows|
  {
    if exists a :: 0 <= a < i && rows[a].row.id == rows[i].row.id then error == DuplicateMatch
    else RowProblem(rows[i], asOf) == Some(error)
  }

  predicate NoProblemAt(rows: seq<SeasonRow>, i: nat, asOf: int)
    requires i < |rows|
  {
    (forall a :: 0 <= a < i ==> rows[a].row.id != rows[i].row.id) && RowProblem(rows[i], asOf) == None
  }

  /** The first row with a problem, and its problem. */
  ghost predicate FirstProblem(rows: seq<SeasonRow>, i: nat, asOf: int, error: PlanError) {
    && i < |rows| && ProblemAt(rows, i, asOf, error)
    && forall j: nat :: j < i ==> NoProblemAt(rows, j, asOf)
  }

  /** The first check that fails: rows at all, the header, the rows in order. */
  ghost predicate CheckFails(header: Header, quality: Policy, rows: seq<SeasonRow>, asOf: int, error: PlanError) {
    if rows == [] then error == EmptyDataset
    else if HeaderProblem(header, quality).Some? then error == HeaderProblem(header, quality).value
    else exists i: nat :: FirstProblem(rows, i, asOf, error)
  }

  method CheckedRows(header: Header, quality: Policy, rows: seq<SeasonRow>, asOf: int)
    returns (r: Result<seq<SeasonRow>, PlanError>)
    ensures r.Ok? <==> HeaderProblem(header, quality) == None && Checked(rows, asOf)
    ensures r.Ok? ==> r.value == Sorted(rows)
    ensures r.Err? ==> CheckFails(header, quality, rows, asOf, r.error)
  {
    hide RowProblem;
    hide HeaderProblem;
    hide SortBy;
    if rows == [] {
      return Err(EmptyDataset);
    }
    var unsound := HeaderProblem(header, quality);
    if unsound.Some? {
      return Err(unsound.value);
    }
    var seen: set<string> := {};
    for i := 0 to |rows|
      invariant forall a :: 0 <= a < i ==> rows[a].row.id in seen
      invariant forall id :: id in seen ==> exists a :: 0 <= a < i && rows[a].row.id == id
      invariant forall a: nat :: a < i ==> NoProblemAt(rows, a, asOf)
    {
      var row := rows[i];
      assert row in rows;
      if row.row.id == "" || row.row.id in seen {
        if row.row.id in seen {
          var a :| 0 <= a < i && rows[a].row.id == row.row.id;
          RepeatedId(rows, a, i);
        } else {
          NamelessRow(row, asOf);
        }
        assert FirstProblem(rows, i, asOf, DuplicateMatch);
        return Err(DuplicateMatch);
      }
      seen := seen + {row.row.id};
      var problem := RowProblem(row, asOf);
      if problem.Some? {
        assert FirstProblem(rows, i, asOf, problem.value);
        return Err(problem.value);
      }
    }
    NoProblemChecked(rows, asOf);
    return Ok(Sorted(rows));
  }

  lemma NamelessRow(r: SeasonRow, asOf: int)
    requires r.row.id == ""
    ensures RowProblem(r, asOf) == Some(DuplicateMatch)
  {
  }

  lemma NoProblemChecked(rows: seq<SeasonRow>, asOf: int)
    requires rows != [] && forall i: nat :: i < |rows| ==> NoProblemAt(rows, i, asOf)
    ensures Checked(rows, asOf)
  {
    hide RowProblem;
    forall i, j | 0 <= i < j < |rows| ensures IdOf()(rows[i]) != IdOf()(rows[j]) {
      assert NoProblemAt(rows, j, asOf);
    }
    forall r | r in rows ensures RowProblem(r, asOf) == None {
      var i :| 0 <= i < |rows| && rows[i] == r;
      assert NoProblemAt(rows, i, asOf);
    }
  }

  // ---------- One window ----------

  function Inside(start: int, end: int): SeasonRow -> bool {
    (r: SeasonRow) => start <= r.row.Forecast() < end
  }

  function Unavailable(nextStart: Option<int>): SeasonRow -> bool {
    (r: SeasonRow) => nextStart.Some? && r.row.available >= nextStart.value
  }

  function PurgedIds(inside: seq<SeasonRow>, nextStart: Option<int>): set<string> {
    set r | r in Filter(inside, Unavailable(nextStart)) :: r.row.id
  }

  function NotPurged(ids: set<string>): SeasonRow -> bool {
    (r: SeasonRow) => r.row.id !in ids
  }

  /** The rows of a window whose id is not among the purged ones. */
  function UsedRows(rows: seq<SeasonRow>, start: int, end: int, nextStart: Option<int>): seq<SeasonRow> {
    var inside := Filter(rows, Inside(start, end));
    Filter(inside, NotPurged(PurgedIds(inside, nextStart)))
  }

  /** The plain reading of a window: forecast inside it, label known before the next one opens. */
  function Kept(start: int, end: int, nextStart: Option<int>): SeasonRow -> bool {
    (r: SeasonRow) => start <= r.row.Forecast() < end && (nextStart.Some? ==> r.row.available < nextStart.value)
  }

  lemma SameRow(rows: seq<SeasonRow>, a: SeasonRow, b: SeasonRow)
    requires DistinctKeys(rows, IdOf()) && a in rows && b in rows && a.row.id == b.row.id
    ensures a == b
  {
    var i :| 0 <= i < |rows| && rows[i] == a;
    var j :| 0 <= j < |rows| && rows[j] == b;
    assert i < j ==> IdOf()(rows[i]) != IdOf()(rows[j]);
    assert j < i ==> IdOf()(rows[j]) != IdOf()(rows[i]);
  }

  /** With distinct ids, purging by id purges exactly the rows with late labels. */
  lemma UsedAreKept(rows: seq<SeasonRow>, start: int, end: int, nextStart: Option<int>)
    requires DistinctKeys(rows, IdOf())
    ensures UsedRows(rows, start, end, nextStart) == Filter(rows, Kept(start, end, nextStart))
    ensures forall r :: r in UsedRows(rows, start, end, nextStart) <==> r in rows && Kept(start, end, nextStart)(r)
  {
    var inside := Filter(rows, Inside(start, end));
    var late := Filter(inside, Unavailable(nextStart));
    var ids := PurgedIds(inside, nextStart);
    FilterMembers(rows, Inside(start, end));
    FilterMembers(inside, Unavailable(nextStart));
    forall r | r in rows ensures Kept(start, end, nextStart)(r) == (Inside(start, end)(r) && NotPurged(ids)(r)) {
      if Inside(start, end)(r) {
        assert r.row.id in ids <==> r in late by {
          if r.row.id in ids {
            var l :| l in late && l.row.id == r.row.id;
            SameRow(rows, l, r);
          }
        }
      }
    }
    FilterTwice(rows, Inside(start, end), NotPurged(ids), Kept(start, end, nextStart));
    FilterMembers(rows, Kept(start, end, nextStart));
  }

  function Plain(rows: seq<SeasonRow>): seq<Row> {
    seq(|rows|, i requires 0 <= i < |rows| => rows[i].row)
  }

  lemma PlainMembers(rows: seq<SeasonRow>)
    ensures forall r :: r in Plain(rows) <==> exists s :: s in rows && s.row == r
    ensures rows != [] ==> Plain(rows) != []
  {
    forall r | r in Plain(rows) ensures exists s :: s in rows && s.row == r {
      var i :| 0 <= i < |rows| && Plain(rows)[i] == r;
      assert rows[i] in rows;
    }
    forall s | s in rows ensures s.row in Plain(rows) {
      var i :| 0 <= i < |rows| && rows[i] == s;
      assert Plain(rows)[i] == s.row;
    }
  }

  /** The declared bounds are inclusive and end one millisecond before the next calendar bound. */
  function PlannedInterval(used: seq<SeasonRow>, start: int, end: int): PlanInterval
    requires used != []
  {
    PlanInterval(Some(|used|), true, Some(start), Some(end - MILLISECOND), Some(MaxAvailable(Plain(used))))
  }

  // ---------- The calendar of a fold ----------

  /** First month of the test block of fold j: July 2023, January 2024, and so on. */
  function TestMonth(j: nat): int {
    FIRST_YEAR * 12 + 6 + 6 * j
  }

  function PartStart(j: nat, p: nat): int {
    if p == 0 then MonthStart(2022 * 12 + 6)
    else if p == 1 then MonthStart(TestMonth(j) - 4)
    else if p == 2 then MonthStart(TestMonth(j) - 2)
    else if p == 3 then MonthStart(TestMonth(j))
    else MonthStart(TestMonth(j) + 6)
  }

  function PartBoundary(j: nat, p: nat): Option<int> {
    if p < 3 then Some(PartStart(j, p + 1)) else None
  }

  function PartRows(rows: seq<SeasonRow>, j: nat, p: nat): seq<SeasonRow> {
    UsedRows(rows, PartStart(j, p), PartStart(j, p + 1), PartBoundary(j, p))
  }

  function PlannedPart(rows: seq<SeasonRow>, j: nat, p: nat): PlanInterval
    requires PartRows(rows, j, p) != []
  {
    PlannedInterval(PartRows(rows, j, p), PartStart(j, p), PartStart(j, p + 1))
  }

  ghost predicate NoEmptyWindow(rows: seq<SeasonRow>, j: nat) {
    PartRows(rows, j, 0) != [] && PartRows(rows, j, 1) != [] && PartRows(rows, j, 2) != [] && PartRows(rows, j, 3) != []
  }

  ghost function PlannedFold(rows: seq<SeasonRow>, j: nat): PlanFold
    requires NoEmptyWindow(rows, j)
  {
    PlanFold(Some(j), Some(PlanSplit(true, PlannedPart(rows, j, 0), PlannedPart(rows, j, 1),
                                     PlannedPart(rows, j, 2), PlannedPart(rows, j, 3))))
  }

  /** Every window is longer than a day, and the test windows follow one another without a gap. */
  lemma PartsFollow(j: nat)
    ensures forall p: nat :: p < 4 ==> PartStart(j, p) + DAY <= PartStart(j, p + 1)
    ensures PartStart(j, 4) == PartStart(j + 1, 3)
  {
    hide MonthStart;
    MonthsIncrease(2022 * 12 + 6, TestMonth(j) - 4);
    MonthsIncrease(TestMonth(j) - 4, TestMonth(j) - 2);
    MonthsIncrease(TestMonth(j) - 2, TestMonth(j));
    MonthsIncrease(TestMonth(j), TestMonth(j) + 6);
    assert TestMonth(j) + 6 == TestMonth(j + 1);
  }

  // ---------- The planner's own check of its windows ----------

  predicate TypedInterval(w: PlanInterval) {
    w.n.Some? && w.from.Some? && w.to.Some? && w.availableThrough.Some?
  }

  predicate WellTyped(f: PlanFold) {
    && f.fold.Some? && f.split.Some?
    && TypedInterval(f.split.value.train) && TypedInterval(f.split.value.selection)
    && TypedInterval(f.split.value.calibration) && TypedInterval(f.split.value.test)
  }

  predicate Follows(earlier: PlanInterval, later: PlanInterval)
    requires TypedInterval(earlier) && TypedInterval(later)
  {
    earlier.to.value < later.from.value && earlier.availableThrough.value < later.from.value
  }

  predicate Positive(w: PlanInterval)
    requires TypedInterval(w)
  {
    w.n.value > 0 && w.from.value <= w.to.value
  }

  predicate FoldValid(f: PlanFold, q: nat)
    requires WellTyped(f)
  {
    var s := f.split.value;
    && f.fold.value == q && s.protocolValid
    && Positive(s.train) && Positive(s.selection) && Positive(s.calibration) && Positive(s.test)
    && Follows(s.train, s.selection) && Follows(s.selection, s.calibration) && Follows(s.calibration, s.test)
  }

  predicate Advances(earlier: PlanFold, later: PlanFold)
    requires WellTyped(earlier) && WellTyped(later)
  {
    earlier.split.value.test.to.value < later.split.value.test.from.value
  }

  ghost predicate WindowsValid(folds: seq<PlanFold>)
    requires forall q :: 0 <= q < |folds| ==> WellTyped(folds[q])
  {
    && (forall q :: 0 <= q < |folds| ==> FoldValid(folds[q], q))
    && forall p, q :: 0 <= p < |folds| && q == p + 1 && q < |folds| ==> Advances(folds[p], folds[q])
  }

  /** The window check, with its running test end. */
  method ValidateWindows(folds: seq<PlanFold>) returns (ok: bool)
    requires forall q :: 0 <= q < |folds| ==> WellTyped(folds[q])
    ensures ok <==> WindowsValid(folds)
  {
    var previousTestEnd: Option<int> := None;
    for q := 0 to |folds|
      invariant forall i :: 0 <= i < q ==> FoldValid(folds[i], i)
      invariant forall p, i :: 0 <= p < q && i == p + 1 && i < q ==> Advances(folds[p], folds[i])
      invariant previousTestEnd == if q == 0 then None else folds[q - 1].split.value.test.to
    {
      if !FoldValid(folds[q], q) {
        return false;
      }
      if previousTestEnd.Some? && folds[q].split.value.test.from.value <= previousTestEnd.value {
        return false;
      }
      previousTestEnd := folds[q].split.value.test.to;
    }
    return true;
  }

  /** Labels of the rows used in a part are known before the next part starts. */
  lemma ThroughBeforeNext(rows: seq<SeasonRow>, j: nat, p: nat)
    requires DistinctKeys(rows, IdOf()) && p < 3 && PartRows(rows, j, p) != []
    ensures MaxAvailable(Plain(PartRows(rows, j, p))) < PartStart(j, p + 1)
  {
    hide PartStart;
    var used := PartRows(rows, j, p);
    UsedAreKept(rows, PartStart(j, p), PartStart(j, p + 1), PartBoundary(j, p));
    hide UsedRows;
    PlainMembers(used);
    var through := MaxAvailable(Plain(used));
    var r :| r in Plain(used) && r.available == through;
  }

  lemma PlannedFoldValid(rows: seq<SeasonRow>, j: nat)
    requires DistinctKeys(rows, IdOf()) && NoEmptyWindow(rows, j)
    ensures WellTyped(PlannedFold(rows, j)) && FoldValid(PlannedFold(rows, j), j)
  {
    hide PartStart;
    hide PartRows;
    hide MaxAvailable;
    PartsFollow(j);
    ThroughBeforeNext(rows, j, 0);
    ThroughBeforeNext(rows, j, 1);
    ThroughBeforeNext(rows, j, 2);
  }

  lemma PlannedTest(rows: seq<SeasonRow>, j: nat)
    requires NoEmptyWindow(rows, j)
    ensures PlannedFold(rows, j).split.value.test.from == Some(PartStart(j, 3))
    ensures PlannedFold(rows, j).split.value.test.to == Some(PartStart(j, 4) - MILLISECOND)
  {
    hide PartStart;
    hide PartRows;
    hide MaxAvailable;
  }

  /** The window check cannot fail on planned windows, whatever rows they were planned on. */
  lemma PlannedWindowsValid(rows: seq<SeasonRow>, folds: seq<PlanFold>)
    requires DistinctKeys(rows, IdOf())
    requires forall j :: 0 <= j < |folds| ==> NoEmptyWindow(rows, j) && folds[j] == PlannedFold(rows, j)
    ensures forall q :: 0 <= q < |folds| ==> WellTyped(folds[q])
    ensures WindowsValid(folds)
  {
    hide WellTyped;
    hide FoldValid;
    hide PartStart;
    hide NoEmptyWindow;
    hide PlannedFold;
    forall q | 0 <= q < |folds| ensures WellTyped(folds[q]) && FoldValid(folds[q], q) {
      PlannedFoldValid(rows, q);
    }
    forall p, q | 0 <= p < |folds| && q == p + 1 && q < |folds| ensures Advances(folds[p], folds[q]) {
      PlannedTest(rows, p);
      PlannedTest(rows, q);
      PartsFollow(p);
    }
  }

  // ---------- The test windows and the seasons ----------

  predicate InTest(t: int, j: nat) {
    PartStart(j, 3) <= t < PartStart(j, 4)
  }

  function SeasonOfFold(j: nat): int {
    FIRST_YEAR + j / 2
  }

  /** The two test windows of a season tile it. */
  lemma SeasonTiled(t: int, year: int)
    requires TargetYear(year)
    ensures InSeason(t, year) <==> InTest(t, 2 * (year - FIRST_YEAR)) || InTest(t, 2 * (year - FIRST_YEAR) + 1)
  {
    hide MonthStart;
    var j: nat := 2 * (year - FIRST_YEAR);
    PartsFollow(j);
    PartsFollow(j + 1);
    assert TestMonth(j) == year * 12 + 6 && TestMonth(j + 1) + 6 == (year + 1) * 12 + 6;
  }

  lemma {:induction false} TestStartsIncrease(i: nat, j: nat)
    requires i < j
    ensures PartStart(i, 4) <= PartStart(j, 3)
    decreases j
  {
    hide PartStart;
    PartsFollow(j - 1);
    if i < j - 1 {
      TestStartsIncrease(i, j - 1);
    }
  }

  /** The six test windows tile the three seasons: every instant of them lies in exactly one. */
  lemma TestWindowsTile(t: int)
    ensures July(FIRST_YEAR) <= t < July(LAST_YEAR + 1) <==> exists j: nat :: j < 6 && InTest(t, j)
    ensures forall i: nat, j: nat :: InTest(t, i) && InTest(t, j) ==> i == j
  {
    hide PartStart;
    hide MonthStart;
    forall i: nat, j: nat | InTest(t, i) && InTest(t, j) ensures i == j {
      if i < j {
        TestStartsIncrease(i, j);
      } else if j < i {
        TestStartsIncrease(j, i);
      }
    }
    SeasonTiled(t, 2023);
    SeasonTiled(t, 2024);
    SeasonTiled(t, 2025);
    hide InTest;
    JulysIncrease();
  }

  lemma JulysIncrease()
    ensures July(2023) < July(2024) < July(2025) < July(2026)
  {
    hide MonthStart;
    MonthsIncrease(2023 * 12 + 6, 2024 * 12 + 6);
    MonthsIncrease(2024 * 12 + 6, 2025 * 12 + 6);
    MonthsIncrease(2025 * 12 + 6, 2026 * 12 + 6);
  }
}
