/** The plan in dates and figures: its calendar, the checks of header and rows, and what each window declares. */
module SeasonReading {
  import opened Wrappers
  import opened Sequences
  import opened Calendar
  import opened TemporalSplits
  import opened FrozenSplits
  import opened SeasonWindows

  // ---------- Dates ----------

  /** The first bounds of fold j, and the end of its test, in days since the start of 1970. Training starts on
      2022-07-01; tests start on the first of July and of January, selection four and calibration two months before. */
  const DAYS: seq<seq<int>> := [
    [19174, 19417, 19478, 19539, 19723],
    [19174, 19601, 19662, 19723, 19905],
    [19174, 19783, 19844, 19905, 20089],
    [19174, 19967, 20028, 20089, 20270],
    [19174, 20148, 20209, 20270, 20454],
    [19174, 20332, 20393, 20454, 20635]]

  lemma MonthIs(index: int, year: int, month: int, days: int)
    requires index == year * 12 + month && 0 <= month < 12
    requires days == 365 * (year - 1970) + (year - 1969) / 4 + DaysBeforeMonth(month, Leap(year))
    requires 2000 < year < 2100
    ensures MonthStart(index) == 86_400_000_000 * days
  {
    hide DaysBeforeMonth;
    hide Leap;
    assert index / 12 == year && index % 12 == month;
    var p := year - 1;
    assert p / 100 == 20 && p / 400 == 5;
    assert p / 4 - 1969 / 4 == (year - 1969) / 4;
    assert DaysBeforeYear(year) - DaysBeforeYear(1970) == 365 * (year - 1970) + (year - 1969) / 4;
  }

  lemma Months2022()
    ensures MonthStart(24270) == 86_400_000_000 * 19174
  {
    MonthIs(24270, 2022, 6, 19174);
    hide MonthStart;
  }

  lemma Months2023()
    ensures MonthStart(24278) == 86_400_000_000 * 19417
    ensures MonthStart(24280) == 86_400_000_000 * 19478
    ensures MonthStart(24282) == 86_400_000_000 * 19539
    ensures MonthStart(24284) == 86_400_000_000 * 19601
    ensures MonthStart(24286) == 86_400_000_000 * 19662
  {
    MonthIs(24278, 2023, 2, 19417);
    MonthIs(24280, 2023, 4, 19478);
    MonthIs(24282, 2023, 6, 19539);
    MonthIs(24284, 2023, 8, 19601);
    MonthIs(24286, 2023, 10, 19662);
    hide MonthStart;
  }

  lemma Months2024()
    ensures MonthStart(24288) == 86_400_000_000 * 19723
    ensures MonthStart(24290) == 86_400_000_000 * 19783
    ensures MonthStart(24292) == 86_400_000_000 * 19844
    ensures MonthStart(24294) == 86_400_000_000 * 19905
    ensures MonthStart(24296) == 86_400_000_000 * 19967
    ensures MonthStart(24298) == 86_400_000_000 * 20028
  {
    MonthIs(24288, 2024, 0, 19723);
    MonthIs(24290, 2024, 2, 19783);
    MonthIs(24292, 2024, 4, 19844);
    MonthIs(24294, 2024, 6, 19905);
    MonthIs(24296, 2024, 8, 19967);
    MonthIs(24298, 2024, 10, 20028);
    hide MonthStart;
  }

  lemma Months2025()
    ensures MonthStart(24300) == 86_400_000_000 * 20089
    ensures MonthStart(24302) == 86_400_000_000 * 20148
    ensures MonthStart(24304) == 86_400_000_000 * 20209
    ensures MonthStart(24306) == 86_400_000_000 * 20270
    ensures MonthStart(24308) == 86_400_000_000 * 20332
    ensures MonthStart(24310) == 86_400_000_000 * 20393
  {
    MonthIs(24300, 2025, 0, 20089);
    MonthIs(24302, 2025, 2, 20148);
    MonthIs(24304, 2025, 4, 20209);
    MonthIs(24306, 2025, 6, 20270);
    MonthIs(24308, 2025, 8, 20332);
    MonthIs(24310, 2025, 10, 20393);
    hide MonthStart;
  }

  lemma Months2026()
    ensures MonthStart(24312) == 86_400_000_000 * 20454
    ensures MonthStart(24318) == 86_400_000_000 * 20635
  {
    MonthIs(24312, 2026, 0, 20454);
    MonthIs(24318, 2026, 6, 20635);
    hide MonthStart;
  }

  lemma FoldDates(j: nat, p: nat)
    requires j < 6 && p < 5
    ensures PartStart(j, p) == 86_400_000_000 * DAYS[j][p]
  {
    Months2022();
    Months2023();
    Months2024();
    Months2025();
    Months2026();
    hide MonthStart;
    assert DAYS[0] == [19174, 19417, 19478, 19539, 19723] && DAYS[1] == [19174, 19601, 19662, 19723, 19905];
    assert DAYS[2] == [19174, 19783, 19844, 19905, 20089] && DAYS[3] == [19174, 19967, 20028, 20089, 20270];
    assert DAYS[4] == [19174, 20148, 20209, 20270, 20454] && DAYS[5] == [19174, 20332, 20393, 20454, 20635];
  }

  /** A season runs from the first of July to the next. */
  lemma SeasonBounds(t: int, year: int)
    ensures InSeason(t, year) <==> MonthStart(12 * year + 6) <= t < MonthStart(12 * year + 18)
  {
    assert year * 12 + 6 == 12 * year + 6 && (year + 1) * 12 + 6 == 12 * year + 18;
    hide MonthStart;
  }

  /** The seasons 2023, 2024 and 2025 begin on the first of July, and have two folds each. */
  lemma SeasonDates(t: int, year: int)
    ensures InSeason(t, 2023) <==> 86_400_000_000 * 19539 <= t < 86_400_000_000 * 19905
    ensures InSeason(t, 2024) <==> 86_400_000_000 * 19905 <= t < 86_400_000_000 * 20270
    ensures InSeason(t, 2025) <==> 86_400_000_000 * 20270 <= t < 86_400_000_000 * 20635
    ensures TargetYear(year) <==> year == 2023 || year == 2024 || year == 2025
    ensures SeasonOfFold(0) == SeasonOfFold(1) == 2023 && SeasonOfFold(2) == SeasonOfFold(3) == 2024
    ensures SeasonOfFold(4) == SeasonOfFold(5) == 2025
  {
    Months2023();
    Months2024();
    Months2025();
    Months2026();
    hide MonthStart;
  }

  // ---------- The checks ----------

  /** A field left out of an object, or given with this value; an explicit null is neither. */
  predicate IsOrOmitted<T(==)>(given: Field<T>, value: T) {
    given.Absent? || (given.Present? && given.value == value)
  }

  /** The header carries the policy of the repository, proof that it was applied, the nightly with results two hours
      after kickoff, and 03:07 in Rome. */
  lemma HeaderReads(h: Header, quality: Policy)
    ensures var authentic := h.policy == Some(quality) && h.policyHash == Some(quality) && h.baselineClean
                             && h.evidence.Some? && h.evidence.value.policyHash == quality
                             && h.evidence.value.version == quality.version
                             && h.evidence.value.action == quality.action;
            var nightly := h.nightly && h.beforeKickoff && h.resultDelay == Some(7_200_000);
            var rome := IsOrOmitted(h.hour, 3) && IsOrOmitted(h.minute, 7) && IsOrOmitted(h.timezone, "Europe/Rome");
            && (HeaderProblem(h, quality) == Some(UnauthenticPolicy) <==> !authentic)
            && (HeaderProblem(h, quality) == Some(NotNightly) <==> authentic && !nightly)
            && (HeaderProblem(h, quality) == Some(NotRomeSchedule) <==> authentic && nightly && !rome)
            && (HeaderProblem(h, quality) == None <==> authentic && nightly && rome)
  {
  }

  /** Forecast before kickoff; the label at least two hours after it, and by the time of the dataset. */
  predicate Timely(r: SeasonRow, asOf: int) {
    r.kickoff > r.row.forecastAt.at && r.kickoff + 7_200_000_000 <= r.row.available && r.row.available <= asOf
  }

  predicate OfItsSeason(r: SeasonRow) {
    r.season.Some? && July(r.season.value) <= r.kickoff && r.kickoff < July(r.season.value + 1)
  }

  /** The first thing that is wrong with a row. */
  lemma RowReads(r: SeasonRow, asOf: int)
    ensures RowProblem(r, asOf)
         == if |r.row.id| == 0 then Some(DuplicateMatch)
            else if r.barred then Some(BarredTarget)
            else if !r.clean then Some(UncleanRow)
            else if !Timely(r, asOf) then Some(InvalidAvailability)
            else if r.row.forecastAt.at < r.historyThrough then Some(FutureMetadata)
            else if r.season.None? then Some(InvalidSeason)
            else if !OfItsSeason(r) then Some(SeasonDateMismatch)
            else None
  {
    hide July;
  }

  /** A row with an id, neither barred nor unclean, timely, with history from before its forecast, in its season. */
  predicate Sound(r: SeasonRow, asOf: int) {
    && |r.row.id| > 0 && !r.barred && r.clean && Timely(r, asOf)
    && r.historyThrough <= r.row.forecastAt.at && OfItsSeason(r)
  }

  /** Rows are sound when they are there, have distinct ids, and nothing is wrong with any of them. */
  lemma CheckedReads(rows: seq<SeasonRow>, asOf: int)
    ensures Checked(rows, asOf) <==>
              && |rows| > 0 && (forall i, j :: 0 <= i < j < |rows| ==> rows[i].row.id != rows[j].row.id)
              && forall r :: r in rows ==> Sound(r, asOf)
  {
    forall r ensures RowProblem(r, asOf) == None <==> Sound(r, asOf) {
      RowReads(r, asOf);
    }
    DistinctReads(rows);
    hide RowProblem;
    hide Sound;
    hide DistinctKeys;
  }

  lemma DistinctReads(rows: seq<SeasonRow>)
    ensures DistinctKeys(rows, IdOf()) <==> forall i, j :: 0 <= i < j < |rows| ==> rows[i].row.id != rows[j].row.id
  {
    if DistinctKeys(rows, IdOf()) {
      forall i, j | 0 <= i < j < |rows| ensures rows[i].row.id != rows[j].row.id {
        assert IdOf()(rows[i]) != IdOf()(rows[j]);
      }
    }
  }

  // ---------- The windows ----------

  /** Forecast in the part, and for all but the test with a label known before the next part. */
  function InPart(j: nat, p: nat): SeasonRow -> bool {
    (r: SeasonRow) =>
      && PartStart(j, p) <= r.row.forecastAt.at && r.row.forecastAt.at < PartStart(j, p + 1)
      && (p <= 2 ==> r.row.available < PartStart(j, p + 1))
  }

  lemma PartReads(rows: seq<SeasonRow>, j: nat, p: nat)
    requires DistinctKeys(rows, IdOf()) && p < 4
    ensures PartRows(rows, j, p) == Filter(rows, InPart(j, p))
  {
    UsedAreKept(rows, PartStart(j, p), PartStart(j, p + 1), PartBoundary(j, p));
    hide PartStart;
    FilterCong(rows, Kept(PartStart(j, p), PartStart(j, p + 1), PartBoundary(j, p)), InPart(j, p));
    hide UsedRows;
    hide Filter;
  }

  lemma PlannedPartIs(rows: seq<SeasonRow>, j: nat, p: nat)
    requires NoEmptyWindow(rows, j) && p < 4
    ensures PartRows(rows, j, p) != []
    ensures PlannedFold(rows, j).fold == Some(j) && PlannedFold(rows, j).split.Some?
    ensures PlannedFold(rows, j).split.value.protocolValid
    ensures PlannedFold(rows, j).split.value.Part(p) == PlannedPart(rows, j, p)
  {
    hide PartRows;
    hide PlannedPart;
  }

  /** A part declares its rows, its bounds up to the last millisecond, and the last time of a label. */
  lemma PlannedReads(rows: seq<SeasonRow>, j: nat, p: nat)
    requires DistinctKeys(rows, IdOf()) && NoEmptyWindow(rows, j) && p < 4
    ensures PlannedFold(rows, j).fold == Some(j) && PlannedFold(rows, j).split.Some?
    ensures var w := PlannedFold(rows, j).split.value.Part(p); var used := Filter(rows, InPart(j, p));
            && PlannedFold(rows, j).split.value.protocolValid && w.hashValid && w.n == Some(|used|)
            && w.from == Some(PartStart(j, p)) && w.to == Some(PartStart(j, p + 1) - 1_000)
            && w.availableThrough.Some? && (exists r :: r in used && r.row.available == w.availableThrough.value)
            && forall r :: r in used ==> r.row.available <= w.availableThrough.value
  {
    PartReads(rows, j, p);
    PlannedPartIs(rows, j, p);
    var used := PartRows(rows, j, p);
    PlainMembers(used);
    hide PartRows;
    hide PartStart;
    hide Plain;
    hide MaxAvailable;
    hide PlannedFold;
    hide NoEmptyWindow;
    hide Filter;
    var through := MaxAvailable(Plain(used));
    var x :| x in Plain(used) && x.available == through;
    forall r | r in used ensures r.row.available <= through {
      assert r.row in Plain(used);
    }
  }

  predicate Open(w: PlanInterval) {
    w.n.Some? && w.from.Some? && w.to.Some? && w.n.value >= 1 && w.to.value >= w.from.value
  }

  predicate Before(w: PlanInterval, x: PlanInterval) {
    && w.to.Some? && w.availableThrough.Some? && x.from.Some?
    && x.from.value > w.to.value && x.from.value > w.availableThrough.value
  }

  /** The windows are valid when each fold has its number and four open parts one after the other, and every test
      closes before the next one opens. */
  lemma WindowsRead(folds: seq<PlanFold>)
    requires forall q :: 0 <= q < |folds| ==> WellTyped(folds[q])
    ensures WindowsValid(folds) <==>
              && (forall q :: 0 <= q < |folds| ==>
                    var s := folds[q].split.value;
                    && folds[q].fold == Some(q) && s.protocolValid
                    && Open(s.train) && Open(s.selection) && Open(s.calibration) && Open(s.test)
                    && Before(s.train, s.selection) && Before(s.selection, s.calibration)
                    && Before(s.calibration, s.test))
              && forall q :: 1 <= q < |folds| ==>
                   folds[q - 1].split.value.test.to.value < folds[q].split.value.test.from.value
  {
    forall q | 0 <= q < |folds|
      ensures FoldValid(folds[q], q) <==>
                var s := folds[q].split.value;
                && folds[q].fold == Some(q) && s.protocolValid
                && Open(s.train) && Open(s.selection) && Open(s.calibration) && Open(s.test)
                && Before(s.train, s.selection) && Before(s.selection, s.calibration) && Before(s.calibration, s.test)
    {
    }
    hide FoldValid;
    hide Open;
    hide Before;
    if WindowsValid(folds) {
      forall q | 1 <= q < |folds| ensures Advances(folds[q - 1], folds[q]) {
      }
    }
  }
}
