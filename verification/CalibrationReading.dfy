/** What the metrics of a variant say about its rows, and that nothing is left open by them. */
module CalibrationReading {
  import opened Wrappers
  import opened Sequences
  import opened Reals
  import opened CalibrationError

  // ---------- One row ----------

  /** Three probabilities in [0, 1] whose sum is within 1e-12 of one. */
  predicate SumToOne(p: seq<real>) {
    && |p| == 3 && 0.0 <= p[0] && p[0] <= 1.0 && 0.0 <= p[1] && p[1] <= 1.0 && 0.0 <= p[2] && p[2] <= 1.0
    && 0.999999999999 <= p[0] + p[1] + p[2] && p[0] + p[1] + p[2] <= 1.000000000001
  }

  /** A row is scored when its probabilities are such, and its goals are not negative; the probabilities come first. */
  lemma RowScoredIff(r: MatchRow, variant: string)
    requires variant in r.predictions
    ensures RowProblem(r, variant) == Some(InvalidProbabilities) <==> !SumToOne(r.predictions[variant])
    ensures RowProblem(r, variant) == Some(InvalidGoals)
       <==> SumToOne(r.predictions[variant]) && !(r.homeGoals >= 0 && r.awayGoals >= 0)
    ensures RowProblem(r, variant) == None
       <==> SumToOne(r.predictions[variant]) && r.homeGoals >= 0 && r.awayGoals >= 0
  {
  }

  /** The probability that came true: of the home side with more goals, of the away side with fewer, else the draw. */
  function Given(r: MatchRow, p: seq<real>): real
    requires |p| == 3
  {
    if r.awayGoals < r.homeGoals then p[0] else if r.homeGoals < r.awayGoals then p[2] else p[1]
  }

  /** The entry of a scored row. Ties of the largest probability go to home, then to draw. */
  lemma EntryReads(r: MatchRow, variant: string, log: real -> real)
    requires variant in r.predictions && RowProblem(r, variant) == None
    ensures var e, p := EntryOf(r, variant, log), r.predictions[variant];
            && |p| == 3
            && p[0] <= e.confidence && p[1] <= e.confidence && p[2] <= e.confidence
            && (e.confidence == p[0] || e.confidence == p[1] || e.confidence == p[2])
            && (e.hit <==> if r.awayGoals < r.homeGoals then p[0] >= p[1] && p[0] >= p[2]
                           else if r.homeGoals < r.awayGoals then p[2] > p[0] && p[2] > p[1]
                           else p[1] > p[0] && p[1] >= p[2])
            && e.loss == -log(if Given(r, p) < 0.000000000000001 then 0.000000000000001 else Given(r, p))
            && e.brier == p[0] * p[0] + p[1] * p[1] + p[2] * p[2] + 1.0 - 2.0 * Given(r, p)
  {
    var p := r.predictions[variant];
    SquareOfGap(p[0]);
    SquareOfGap(p[1]);
    SquareOfGap(p[2]);
    assert Squared(p[0] - 0.0) == Squared(p[0]) && Squared(p[1] - 0.0) == Squared(p[1]);
    assert Squared(p[2] - 0.0) == Squared(p[2]);
    hide Squared;
  }

  lemma SquareOfGap(x: real)
    ensures Squared(x) == x * x && Squared(x - 1.0) == x * x + 1.0 - 2.0 * x
  {
  }

  // ---------- The table ----------

  ghost predicate Within(k: nat, e: Entry) {
    k as real <= 10.0 * e.confidence && (k == 9 || 10.0 * e.confidence < (k + 1) as real)
  }

  /** The table has ten lines; line k counts the entries from k tenths up to the next tenth, the last one with its
      upper end, and gives their mean confidence and the share of hits. */
  lemma TableReads(m: Metrics, rows: seq<MatchRow>, entries: seq<Entry>, k: nat)
    requires Dated(rows) && Reports(m, rows, entries) && k < 10
    requires forall e :: e in entries ==> 0.0 <= e.confidence <= 1.0
    ensures |m.calibration| == 10 && m.n == |entries|
    ensures var line := m.calibration[k]; var inside := Filter(entries, (e: Entry) => Within(k, e));
            && 10.0 * line.lower == k as real && 10.0 * line.upper == (k + 1) as real && line.n == |inside|
            && (line.n == 0 ==> line.predicted == None && line.observed == None)
            && (line.n > 0 ==>
                  && line.predicted.Some?
                  && IsMean(line.predicted.value, line.n, SumBy(inside, (e: Entry) => e.confidence))
                  && line.observed.Some?
                  && IsMean(line.observed.value, line.n, |Filter(inside, (e: Entry) => e.hit)| as real))
  {
    var inside := Filter(entries, (e: Entry) => Within(k, e));
    FilterCong(entries, InBin(k), (e: Entry) => Within(k, e));
    assert m.calibration[k] == LineOf(entries, k);
    MeansRead(inside);
    hide Reports;
    hide IsMean;
    hide MeanIfAny;
    hide SumBy;
    hide Filter;
  }

  /** A mean of n numbers with this total. */
  ghost predicate IsMean(mean: real, n: nat, total: real) {
    mean * n as real == total
  }

  lemma {:induction false} HitsCounted(entries: seq<Entry>)
    ensures SumBy(entries, Hit()) == |Filter(entries, (e: Entry) => e.hit)| as real
  {
    if entries != [] {
      HitsCounted(entries[..|entries| - 1]);
    }
  }

  lemma MeansRead(entries: seq<Entry>)
    ensures entries == [] ==> MeanIfAny(entries, Confidence()) == None && MeanIfAny(entries, Hit()) == None
    ensures entries != [] ==>
              var predicted, observed := MeanIfAny(entries, Confidence()), MeanIfAny(entries, Hit());
              && predicted.Some? && IsMean(predicted.value, |entries|, SumBy(entries, (e: Entry) => e.confidence))
              && observed.Some? && IsMean(observed.value, |entries|, |Filter(entries, (e: Entry) => e.hit)| as real)
  {
    HitsCounted(entries);
    SumByCong(entries, Confidence(), (e: Entry) => e.confidence);
    hide SumBy;
    hide Filter;
    if entries != [] {
      DivTimes(SumBy(entries, Confidence()), |entries| as real);
      DivTimes(SumBy(entries, Hit()), |entries| as real);
    }
  }

  /** Over all entries: the mean losses and scores, and the share of hits. */
  lemma TotalsRead(m: Metrics, rows: seq<MatchRow>, entries: seq<Entry>)
    requires Dated(rows) && Reports(m, rows, entries) && entries != []
    ensures m.logLoss.Some? && IsMean(m.logLoss.value, m.n, SumBy(entries, (e: Entry) => e.loss))
    ensures m.brier.Some? && IsMean(m.brier.value, m.n, SumBy(entries, (e: Entry) => e.brier))
    ensures m.accuracy.Some? && IsMean(m.accuracy.value, m.n, |Filter(entries, (e: Entry) => e.hit)| as real)
  {
    MeansRead(entries);
    SumByCong(entries, LossOf(), (e: Entry) => e.loss);
    SumByCong(entries, BrierOf(), (e: Entry) => e.brier);
    DivTimes(SumBy(entries, LossOf()), |entries| as real);
    DivTimes(SumBy(entries, BrierOf()), |entries| as real);
    hide SumBy;
    hide Filter;
    hide CompetitionsOf;
    hide WeeksOf;
    hide LineOf;
  }

  /** A week is named by its Monday; day 0 is a Thursday. */
  lemma WeekIsMonday(day: int)
    ensures WeekOf(day) <= day < WeekOf(day) + 7 && (WeekOf(day) - 4) % 7 == 0
  {
  }

  // ---------- One result ----------

  lemma {:induction false} SortedOnce<T(!new)>(le: (T, T) -> bool, a: seq<T>, b: seq<T>)
    requires forall x, y :: le(x, y) && le(y, x) ==> x == y
    requires SortedBy(le, a) && SortedBy(le, b) && AllDistinct(a) && AllDistinct(b)
    requires forall x :: x in a <==> x in b
    ensures a == b
    decreases |a|
  {
    assert a != [] ==> a[0] in b;
    assert b != [] ==> b[0] in a;
    if a != [] {
      var m, n := |a| - 1, |b| - 1;
      assert a[m] in b && b[n] in a;
      assert le(b[n], a[m]) || b[n] == a[m];
      assert le(a[m], b[n]) || a[m] == b[n];
      assert a == a[..m] + [a[m]] && b == b[..n] + [b[n]];
      forall x ensures x in a[..m] <==> x in b[..n] {
        assert x in a <==> x in b;
      }
      SortedOnce(le, a[..m], b[..n]);
    }
  }

  lemma ReportedOnce(m: Metrics, n: Metrics, rows: seq<MatchRow>, entries: seq<Entry>)
    requires Dated(rows) && Reports(m, rows, entries) && Reports(n, rows, entries)
    ensures m == n
  {
    forall a: string, b: string ensures TextLe(a, b) && TextLe(b, a) ==> a == b {
      TextTotal(a, b);
    }
    assert m.calibration == n.calibration;
    hide LineOf;
    hide MeanIfAny;
    hide CalibrationError.CalibrationError;
    SortedOnce(TextLe, m.leagues, n.leagues);
    hide WeekOf;
    forall d ensures d in m.periods <==> d in n.periods {
      assert d in m.periods <==> exists i :: 0 <= i < |rows| && WeekOf(rows[i].forecastDay.value) == d;
    }
    SortedOnce(IntLe, m.periods, n.periods);
  }

  /** The rows fix the result: its figures, or the first problem met. */
  lemma CalculatedOnce(rows: seq<MatchRow>, variant: string, log: real -> real, a: Result<Metrics, MetricError>,
                       b: Result<Metrics, MetricError>)
    requires forall r :: r in rows ==> variant in r.predictions
    requires IsCalculation(rows, variant, log, a) && IsCalculation(rows, variant, log, b)
    ensures a == b
  {
    hide RowProblem;
    hide Entries;
    hide Reports;
    hide Dated;
    if a.Ok? && b.Ok? {
      ReportedOnce(a.value, b.value, rows, Entries(rows, variant, log));
    }
  }
}
