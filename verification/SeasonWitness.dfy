/** A dataset that can be planned and whose plan, replayed, loses a row: a forecast in the last millisecond of a test
    window, which the planner counts and the inclusive end of the window does not cover. */
module SeasonWitness {
  import opened Wrappers
  import opened Sequences
  import opened Calendar
  import opened TemporalSplits
  import opened FrozenSplits
  import opened SeasonWindows
  import opened SeasonPlan
  import opened SeasonRoundTrip

  /** July 2022. */
  const FIRST: int := 2022 * 12 + 6
  const MONTHS: nat := 48
  const AS_OF: int := MonthStart(FIRST + 49)

  function Name(n: nat): string {
    seq(n + 1, _ => 'x')
  }

  /** A clean row forecast at an instant; kickoff follows one microsecond later. */
  function RowAt(n: nat, t: int, year: int): SeasonRow {
    SeasonRow(Row(Name(n), Stamp("", t), t + 1 + RESULT_DELAY), t + 1, Some(year), true, false, t)
  }

  function Monthly(i: nat): SeasonRow {
    RowAt(i, MonthStart(FIRST + i), 2022 + i / 12)
  }

  /** Half a millisecond before January 2024. */
  function Late(): SeasonRow {
    RowAt(MONTHS, MonthStart(FIRST + 18) - 500, 2023)
  }

  /** One row at the start of every month of four seasons, and the late one. */
  function Dataset(): seq<SeasonRow> {
    seq(MONTHS, i requires 0 <= i < MONTHS => Monthly(i)) + [Late()]
  }

  lemma MonthsApart(a: int, b: int)
    ensures a < b ==> MonthStart(a) + 28 * DAY <= MonthStart(b)
    ensures b < a ==> MonthStart(b) + 28 * DAY <= MonthStart(a)
  {
    if a < b {
      MonthsIncrease(a, b);
    }
    if b < a {
      MonthsIncrease(b, a);
    }
  }

  /** Forecast and kickoff of these rows lie in one season. */
  ghost predicate SameSeason(r: SeasonRow) {
    forall year :: InSeason(r.row.Forecast(), year) <==> InSeason(r.kickoff, year)
  }

  /** No season changes inside a month. */
  lemma SeasonSteady(b: int, t: int, year: int)
    requires MonthStart(b) <= t && t + 1 < MonthStart(b + 1)
    ensures InSeason(t, year) <==> InSeason(t + 1, year)
  {
    hide MonthStart;
    MonthsApart(year * 12 + 6, b);
    MonthsApart(year * 12 + 6, b + 1);
    MonthsApart((year + 1) * 12 + 6, b);
    MonthsApart((year + 1) * 12 + 6, b + 1);
  }

  lemma RowFine(n: nat, t: int, year: int)
    requires July(year) <= t && t + 1 < July(year + 1) && t + 1 + RESULT_DELAY <= AS_OF
    ensures RowProblem(RowAt(n, t, year), AS_OF) == None
  {
    hide July;
    assert |Name(n)| == n + 1;
  }

  lemma JulyOf(year: int)
    ensures July(year) == MonthStart(FIRST + 12 * (year - 2022))
  {
    hide MonthStart;
    assert year * 12 + 6 == FIRST + 12 * (year - 2022);
  }

  lemma MonthlyBounds(i: nat, k: nat)
    requires i < MONTHS && 12 * k <= i < 12 * k + 12
    ensures var t := MonthStart(FIRST + i);
            July(2022 + k) <= t && t + 1 < July(2022 + k + 1) && t + 1 + RESULT_DELAY <= AS_OF
  {
    hide MonthStart;
    hide July;
    JulyOf(2022 + k);
    JulyOf(2022 + k + 1);
    MonthsApart(FIRST + 12 * k, FIRST + i);
    MonthsApart(FIRST + i, FIRST + 12 * k + 12);
    MonthsApart(FIRST + i, FIRST + 49);
    assert FIRST + 12 * (2022 + k + 1 - 2022) == FIRST + 12 * k + 12;
  }

  lemma MonthlyFine(i: nat)
    requires i < MONTHS
    ensures RowProblem(Monthly(i), AS_OF) == None && SameSeason(Monthly(i))
  {
    hide MonthStart;
    hide RowProblem;
    hide InSeason;
    hide July;
    var k, t := i / 12, MonthStart(FIRST + i);
    MonthlyBounds(i, k);
    MonthsApart(FIRST + i, FIRST + i + 1);
    RowFine(i, t, 2022 + k);
    forall year: int ensures InSeason(Monthly(i).row.Forecast(), year) <==> InSeason(Monthly(i).kickoff, year) {
      SeasonSteady(FIRST + i, t, year);
    }
  }

  lemma LateFine()
    ensures RowProblem(Late(), AS_OF) == None && SameSeason(Late())
    ensures InLastMillisecond(Late(), 0, 3)
  {
    var t := MonthStart(FIRST + 18) - 500;
    hide MonthStart;
    hide RowProblem;
    hide InSeason;
    MonthsApart(FIRST + 12, FIRST + 18);
    MonthsApart(FIRST + 17, FIRST + 18);
    MonthsApart(FIRST + 18, FIRST + 24);
    MonthsApart(FIRST + 18, FIRST + 49);
    assert July(2023) == MonthStart(FIRST + 12) && July(2024) == MonthStart(FIRST + 24);
    RowFine(MONTHS, t, 2023);
    forall year: int ensures InSeason(Late().row.Forecast(), year) <==> InSeason(Late().kickoff, year) {
      SeasonSteady(FIRST + 17, t, year);
    }
  }

  lemma DatasetAt(i: nat)
    requires i <= MONTHS
    ensures |Dataset()| == MONTHS + 1 && Dataset()[i] == if i < MONTHS then Monthly(i) else Late()
    ensures |Dataset()[i].row.id| == i + 1 && Dataset()[i] in Dataset()
  {
    hide MonthStart;
  }

  lemma DatasetChecked()
    ensures Checked(Dataset(), AS_OF) && SameTargetSeason(Dataset())
  {
    var rows := Dataset();
    DatasetAt(0);
    forall i: nat | i < |rows|
      ensures RowProblem(rows[i], AS_OF) == None && SameSeason(rows[i]) && |rows[i].row.id| == i + 1
    {
      DatasetAt(i);
      if i < MONTHS {
        MonthlyFine(i);
      } else {
        LateFine();
      }
    }
    hide Dataset;
    hide RowProblem;
    hide InSeason;
    forall i, j | 0 <= i < j < |rows| ensures IdOf()(rows[i]) != IdOf()(rows[j]) {
      assert |rows[i].row.id| == i + 1 && |rows[j].row.id| == j + 1;
    }
    forall r | r in rows ensures RowProblem(r, AS_OF) == None && SameSeason(r) {
      var i :| 0 <= i < |rows| && rows[i] == r;
    }
  }

  /** Every part starts with a monthly row whose label is known before the next part. */
  function StartRow(j: nat, p: nat): nat {
    if p == 0 then 0 else if p == 1 then 6 * j + 8 else if p == 2 then 6 * j + 10 else 6 * j + 12
  }

  lemma PartFilled(rows: seq<SeasonRow>, j: nat, p: nat)
    requires j < FOLDS && p < 4 && DistinctKeys(rows, IdOf()) && forall r :: r in Dataset() ==> r in rows
    ensures PartRows(rows, j, p) != []
  {
    var i := StartRow(j, p);
    DatasetAt(i);
    StartOfPart(j, p);
    PartsFollow(j);
    hide Dataset;
    hide PartStart;
    hide MonthStart;
    UsedAreKept(rows, PartStart(j, p), PartStart(j, p + 1), PartBoundary(j, p));
    hide UsedRows;
    assert Kept(PartStart(j, p), PartStart(j, p + 1), PartBoundary(j, p))(Monthly(i));
    assert Monthly(i) in PartRows(rows, j, p);
  }

  lemma StartOfPart(j: nat, p: nat)
    requires p < 4
    ensures PartStart(j, p) == MonthStart(FIRST + StartRow(j, p))
  {
    hide MonthStart;
  }

  lemma DatasetPlannable()
    ensures Plannable(Dataset(), AS_OF) && Checked(Sorted(Dataset()), AS_OF) && SortedBy(ByTime(), Sorted(Dataset()))
    ensures Late() in Sorted(Dataset())
  {
    DatasetChecked();
    var rows := Sorted(Dataset());
    SortedChecked(Dataset(), AS_OF);
    DatasetAt(MONTHS);
    hide Dataset;
    hide SortBy;
    hide PartRows;
    hide RowProblem;
    forall j: nat | j < FOLDS ensures NoEmptyWindow(rows, j) {
      PartFilled(rows, j, 0);
      PartFilled(rows, j, 1);
      PartFilled(rows, j, 2);
      PartFilled(rows, j, 3);
    }
  }

  /** The planner accepts the dataset, and the generator does not select the test rows that it planned. */
  lemma LateRowIsLost()
    ensures Plannable(Dataset(), AS_OF) && NoEmptyWindow(Sorted(Dataset()), 0)
    ensures WellFormed(PlannedFold(Sorted(Dataset()), 0))
    ensures WindowGroup(Plain(Sorted(Dataset())), PlannedFold(Sorted(Dataset()), 0).split.value, 3)
            != Plain(PartRows(Sorted(Dataset()), 0, 3))
  {
    DatasetPlannable();
    LateFine();
    var rows := Sorted(Dataset());
    hide *;
    FirstFold(rows);
    RoundTripIff(rows, AS_OF, 0, 3);
  }

  lemma FirstFold(rows: seq<SeasonRow>)
    requires rows == Sorted(Dataset()) && Plannable(Dataset(), AS_OF)
    ensures NoEmptyWindow(rows, 0)
  {
  }
}
