/** The metrics of one variant: log loss, Brier, accuracy, and the expected calibration error over ten bins. */
module CalibrationError {
  import opened Wrappers
  import opened Sequences
  import opened Reals

  /** `forecastDay` is the UTC date as a day number, day 0 being a Thursday; None when the text of the forecast
      time carries no UTC offset of zero. */
  datatype MatchRow = MatchRow(homeGoals: int, awayGoals: int, competition: string, forecastDay: Option<int>,
                               predictions: map<string, seq<real>>)

  /** Confidence of the top label, whether it was the outcome, and the two scores of the row. */
  datatype Entry = Entry(confidence: real, hit: bool, loss: real, brier: real)

  datatype MetricError = InvalidGoals | InvalidProbabilities | InvalidForecastTime

  const TOLERANCE := 0.000000000001
  const LEAST := 0.000000000000001
  const BINS: nat := 10

  // ---------- One row ----------

  predicate ValidProbabilities(p: seq<real>) {
    && |p| == 3 && (forall i :: 0 <= i < 3 ==> 0.0 <= p[i] <= 1.0)
    && -TOLERANCE <= p[0] + p[1] + p[2] - 1.0 <= TOLERANCE
  }

  /** Home, draw, away. */
  function Outcome(r: MatchRow): nat {
    if r.homeGoals > r.awayGoals then 0 else if r.homeGoals == r.awayGoals then 1 else 2
  }

  function Largest(p: seq<real>): real
    requires |p| == 3
  {
    var m := if p[1] > p[0] then p[1] else p[0];
    if p[2] > m then p[2] else m
  }

  /** The first position of the largest value. */
  function TopLabel(p: seq<real>): nat
    requires |p| == 3
  {
    if p[0] == Largest(p) then 0 else if p[1] == Largest(p) then 1 else 2
  }

  /** The probabilities are read before the goals. */
  function RowProblem(r: MatchRow, variant: string): Option<MetricError>
    requires variant in r.predictions
  {
    if !ValidProbabilities(r.predictions[variant]) then Some(InvalidProbabilities)
    else if r.homeGoals < 0 || r.awayGoals < 0 then Some(InvalidGoals)
    else None
  }

  function Squared(x: real): real {
    x * x
  }

  /** Squared distance of a triple from the outcome. */
  function Score(p: seq<real>, y: nat): real
    requires |p| == 3
  {
    Squared(p[0] - if y == 0 then 1.0 else 0.0) + Squared(p[1] - if y == 1 then 1.0 else 0.0)
    + Squared(p[2] - if y == 2 then 1.0 else 0.0)
  }

  /** Negative logarithm of a probability, clamped from below. */
  function Loss(log: real -> real, x: real): real {
    -log(if x > LEAST then x else LEAST)
  }

  function EntryOf(r: MatchRow, variant: string, log: real -> real): Entry
    requires variant in r.predictions && RowProblem(r, variant) == None
  {
    var p, y := r.predictions[variant], Outcome(r);
    Entry(Largest(p), TopLabel(p) == y, Loss(log, p[y]), Score(p, y))
  }

  function BinOf(e: Entry): int {
    var k := (e.confidence * 10.0).Floor;
    if k < 9 then k else 9
  }

  // ---------- Bins and errors ----------

  function InBin(k: int): Entry -> bool {
    (e: Entry) => BinOf(e) == k
  }

  function Confidence(): Entry -> real {
    (e: Entry) => e.confidence
  }

  function Hit(): Entry -> real {
    (e: Entry) => if e.hit then 1.0 else 0.0
  }

  function LossOf(): Entry -> real {
    (e: Entry) => e.loss
  }

  function BrierOf(): Entry -> real {
    (e: Entry) => e.brier
  }

  function Bin(entries: seq<Entry>, k: int): seq<Entry> {
    Filter(entries, InBin(k))
  }

  function Mean(entries: seq<Entry>, f: Entry -> real): real
    requires entries != []
  {
    SumBy(entries, f) / |entries| as real
  }

  function Abs(x: real): real {
    if x < 0.0 then -x else x
  }

  /** Share of a bin times its gap between mean confidence and hit rate; empty bins add nothing. */
  function Term(n: nat, bin: seq<Entry>): real
    requires n > 0
  {
    if bin == [] then 0.0
    else |bin| as real / n as real * Abs(Mean(bin, Confidence()) - Mean(bin, Hit()))
  }

  /** The terms of the first k bins. */
  function ErrorUpTo(entries: seq<Entry>, k: nat): real
    requires entries != []
  {
    if k == 0 then 0.0 else ErrorUpTo(entries, k - 1) + Term(|entries|, Bin(entries, k - 1))
  }

  function CalibrationError(entries: seq<Entry>): real
    requires entries != []
  {
    ErrorUpTo(entries, BINS)
  }

  function Mentions(variant: string): MatchRow -> bool {
    (r: MatchRow) => variant in r.predictions
  }

  function Selected(rows: seq<MatchRow>, variant: string): (selected: seq<MatchRow>)
    ensures forall r :: r in selected ==> variant in r.predictions
  {
    FilterMembers(rows, Mentions(variant));
    Filter(rows, Mentions(variant))
  }

  predicate Scorable(rows: seq<MatchRow>, variant: string) {
    forall i :: 0 <= i < |rows| ==> variant in rows[i].predictions && RowProblem(rows[i], variant) == None
  }

  function Entries(rows: seq<MatchRow>, variant: string, log: real -> real): seq<Entry>
    requires Scorable(rows, variant)
  {
    seq(|rows|, i requires 0 <= i < |rows| => EntryOf(rows[i], variant, log))
  }

  /** One line of the calibration table; the means are None for an empty bin. */
  datatype BinLine = BinLine(lower: real, upper: real, n: nat, predicted: Option<real>, observed: Option<real>)

  function LineOf(entries: seq<Entry>, k: nat): BinLine {
    var bin := Bin(entries, k);
    BinLine(k as real / 10.0, (k + 1) as real / 10.0, |bin|, MeanIfAny(bin, Confidence()), MeanIfAny(bin, Hit()))
  }

  function MeanIfAny(entries: seq<Entry>, f: Entry -> real): Option<real> {
    if entries == [] then None else Some(Mean(entries, f))
  }

  /** The Monday of a day. */
  function WeekOf(day: int): int {
    day - (day + 3) % 7
  }

  /** A list without repetition, in order, of exactly the competitions of the rows. */
  ghost predicate CompetitionsOf(leagues: seq<string>, rows: seq<MatchRow>) {
    && SortedBy(TextLe, leagues) && AllDistinct(leagues)
    && forall t :: t in leagues <==> exists i :: 0 <= i < |rows| && rows[i].competition == t
  }

  predicate Dated(rows: seq<MatchRow>) {
    forall i :: 0 <= i < |rows| ==> rows[i].forecastDay.Some?
  }

  /** The same for the Mondays of their forecast weeks. */
  ghost predicate WeeksOf(periods: seq<int>, rows: seq<MatchRow>)
    requires Dated(rows)
  {
    && SortedBy(IntLe, periods) && AllDistinct(periods)
    && forall d :: d in periods <==> exists i :: 0 <= i < |rows| && WeekOf(rows[i].forecastDay.value) == d
  }

  datatype Metrics = Metrics(n: nat, logLoss: Option<real>, brier: Option<real>, accuracy: Option<real>,
                             ece: Option<real>, calibration: seq<BinLine>, leagues: seq<string>, periods: seq<int>)

  /** The report of scored rows. */
  ghost predicate Reports(m: Metrics, rows: seq<MatchRow>, entries: seq<Entry>)
    requires Dated(rows)
  {
    && m.n == |entries|
    && m.logLoss == MeanIfAny(entries, LossOf()) && m.brier == MeanIfAny(entries, BrierOf())
    && m.accuracy == MeanIfAny(entries, Hit())
    && m.ece == (if entries == [] then None else Some(CalibrationError(entries)))
    && |m.calibration| == BINS && (forall k :: 0 <= k < BINS ==> m.calibration[k] == LineOf(entries, k))
    && CompetitionsOf(m.leagues, rows) && WeeksOf(m.periods, rows)
  }

  /** The first row that cannot be scored, or else a row without a week. */
  ghost predicate FailsWith(rows: seq<MatchRow>, variant: string, error: MetricError)
    requires forall r :: r in rows ==> variant in r.predictions
  {
    if Scorable(rows, variant) then error == InvalidForecastTime && !Dated(rows)
    else
      exists i :: 0 <= i < |rows| && RowProblem(rows[i], variant) == Some(error)
        && forall j :: 0 <= j < i ==> RowProblem(rows[j], variant) == None
  }

  ghost predicate IsCalculation(rows: seq<MatchRow>, variant: string, log: real -> real,
                                result: Result<Metrics, MetricError>)
    requires forall r :: r in rows ==> variant in r.predictions
  {
    match result
    case Ok(m) => Scorable(rows, variant) && Dated(rows) && Reports(m, rows, Entries(rows, variant, log))
    case Err(error) => FailsWith(rows, variant, error)
  }

  /** What a line of the table adds to the error. */
  function LineTerm(n: nat, line: BinLine): real
    requires n > 0
  {
    if line.n == 0 || line.predicted == None || line.observed == None then 0.0
    else line.n as real / n as real * Abs(line.predicted.value - line.observed.value)
  }

  lemma EntriesStep(rows: seq<MatchRow>, variant: string, log: real -> real, i: nat)
    requires i < |rows| && Scorable(rows[..i], variant)
    requires variant in rows[i].predictions && RowProblem(rows[i], variant) == None
    ensures Scorable(rows[..i + 1], variant)
    ensures Entries(rows[..i + 1], variant, log) == Entries(rows[..i], variant, log) + [EntryOf(rows[i], variant, log)]
  {
    hide RowProblem;
    hide EntryOf;
  }

  lemma BinStep(entries: seq<Entry>, e: Entry, k: int)
    ensures Bin(entries + [e], k) == if BinOf(e) == k then Bin(entries, k) + [e] else Bin(entries, k)
  {
    assert (entries + [e])[..|entries|] == entries;
  }

  lemma BinInRange(r: MatchRow, variant: string, log: real -> real)
    requires variant in r.predictions && RowProblem(r, variant) == None
    ensures var e := EntryOf(r, variant, log); 0 <= BinOf(e) < BINS && 0.0 <= e.confidence <= 1.0
  {
    hide Score;
    hide Loss;
  }

  lemma FirstProblem(rows: seq<MatchRow>, variant: string, i: nat)
    requires i < |rows| && (forall r :: r in rows ==> variant in r.predictions) && Scorable(rows[..i], variant)
    requires variant in rows[i].predictions && RowProblem(rows[i], variant).Some?
    ensures FailsWith(rows, variant, RowProblem(rows[i], variant).value)
  {
    hide RowProblem;
    assert forall j :: 0 <= j < i ==> rows[..i][j] == rows[j];
  }

  function Competitions(rows: seq<MatchRow>): seq<string> {
    seq(|rows|, i requires 0 <= i < |rows| => rows[i].competition)
  }

  function Weeks(rows: seq<MatchRow>): seq<int>
    requires Dated(rows)
  {
    seq(|rows|, i requires 0 <= i < |rows| => WeekOf(rows[i].forecastDay.value))
  }

  lemma SortedTexts(rows: seq<MatchRow>)
    ensures CompetitionsOf(SortBy(TextLe, Distinct(Competitions(rows))), rows)
  {
    var all := Competitions(rows);
    TextPreorder();
    SortedDistinct(TextLe, all);
    hide SortBy;
    hide Distinct;
    hide TextLe;
    forall t ensures t in all <==> exists i :: 0 <= i < |rows| && rows[i].competition == t {
      if i :| 0 <= i < |rows| && rows[i].competition == t {
        assert all[i] == t;
      }
    }
  }

  lemma SortedWeeks(rows: seq<MatchRow>)
    requires Dated(rows)
    ensures WeeksOf(SortBy(IntLe, Distinct(Weeks(rows))), rows)
  {
    var all := Weeks(rows);
    SortedDistinct(IntLe, all);
    hide SortBy;
    hide Distinct;
    forall d ensures d in all <==> exists i :: 0 <= i < |rows| && WeekOf(rows[i].forecastDay.value) == d {
      if i :| 0 <= i < |rows| && WeekOf(rows[i].forecastDay.value) == d {
        assert all[i] == d;
      }
    }
  }

  method Calculate(rows: seq<MatchRow>, variant: string, log: real -> real)
    returns (result: Result<Metrics, MetricError>)
    ensures IsCalculation(Selected(rows, variant), variant, log, result)
  {
    hide EntryOf;
    hide RowProblem;
    hide Bin;
    hide BinOf;
    hide Filter;
    hide SortBy;
    hide Distinct;
    hide SumBy;
    hide FailsWith;
    hide CompetitionsOf;
    hide WeeksOf;
    hide Selected;
    hide Abs;
    var selected := Selected(rows, variant);
    var entries: seq<Entry> := [];
    var bins: seq<seq<Entry>> := seq(BINS, _ => []);
    NoEntries();
    for i := 0 to |selected|
      invariant Scorable(selected[..i], variant) && entries == Entries(selected[..i], variant, log)
      invariant |bins| == BINS && forall k :: 0 <= k < BINS ==> bins[k] == Bin(entries, k)
    {
      var row := selected[i];
      assert row in selected;
      var problem := RowProblem(row, variant);
      if problem.Some? {
        FirstProblem(selected, variant, i);
        return Err(problem.value);
      }
      var e := EntryOf(row, variant, log);
      var k := BinOf(e);
      BinInRange(row, variant, log);
      EntriesStep(selected, variant, log, i);
      forall j | 0 <= j < BINS ensures Bin(entries + [e], j) == if k == j then bins[j] + [e] else bins[j] {
        BinStep(entries, e, j);
      }
      entries := entries + [e];
      bins := bins[k := bins[k] + [e]];
    }
    assert selected[..|selected|] == selected;
    var n := |entries|;
    var calibration: seq<BinLine> := [];
    for index := 0 to BINS
      invariant |calibration| == index && forall k :: 0 <= k < index ==> calibration[k] == LineOf(entries, k)
    {
      var bucket := bins[index];
      calibration := calibration + [BinLine(index as real / 10.0, (index + 1) as real / 10.0, |bucket|,
                                            MeanIfAny(bucket, Confidence()), MeanIfAny(bucket, Hit()))];
    }
    var ece: Option<real> := None;
    if n > 0 {
      var sum := 0.0;
      for index := 0 to BINS
        invariant sum == ErrorUpTo(entries, index)
      {
        sum := sum + LineTerm(n, calibration[index]);
      }
      ece := Some(sum);
    }
    var leagues := SortBy(TextLe, Distinct(Competitions(selected)));
    SortedTexts(selected);
    if !Dated(selected) {
      Undated(selected, variant);
      return Err(InvalidForecastTime);
    }
    var periods := SortBy(IntLe, Distinct(Weeks(selected)));
    SortedWeeks(selected);
    return Ok(Metrics(n, MeanIfAny(entries, LossOf()), MeanIfAny(entries, BrierOf()), MeanIfAny(entries, Hit()),
                      ece, calibration, leagues, periods));
  }

  lemma NoEntries()
    ensures forall k :: Bin([], k) == []
  {
  }

  lemma Undated(rows: seq<MatchRow>, variant: string)
    requires Scorable(rows, variant) && !Dated(rows)
    requires forall r :: r in rows ==> variant in r.predictions
    ensures FailsWith(rows, variant, InvalidForecastTime)
  {
  }

  // ---------- The error bounds the overall gap ----------

  function Below(k: int): Entry -> bool {
    (e: Entry) => BinOf(e) < k
  }

  lemma {:induction false} BinsSplit(entries: seq<Entry>, k: int, f: Entry -> real)
    ensures SumBy(Filter(entries, Below(k + 1)), f) == SumBy(Filter(entries, Below(k)), f) + SumBy(Bin(entries, k), f)
    ensures |Filter(entries, Below(k + 1))| == |Filter(entries, Below(k))| + |Bin(entries, k)|
  {
    if entries != [] {
      BinsSplit(entries[..|entries| - 1], k, f);
      SumStep(entries, Below(k + 1), f);
      SumStep(entries, Below(k), f);
      SumStep(entries, InBin(k), f);
      hide Filter;
      hide SumBy;
      hide BinOf;
    }
  }

  lemma SumStep(entries: seq<Entry>, p: Entry -> bool, f: Entry -> real)
    requires entries != []
    ensures var n := |entries| - 1; var e := entries[n];
            && SumBy(Filter(entries, p), f) == SumBy(Filter(entries[..n], p), f) + (if p(e) then f(e) else 0.0)
            && |Filter(entries, p)| == |Filter(entries[..n], p)| + if p(e) then 1 else 0
  {
    var n := |entries| - 1;
    var before := Filter(entries[..n], p);
    assert (before + [entries[n]])[..|before|] == before;
  }

  /** A bin's term is the gap of its sums, over n. */
  lemma TermIsGap(n: nat, bin: seq<Entry>)
    requires n > 0
    ensures Term(n, bin) == Abs(SumBy(bin, Confidence()) - SumBy(bin, Hit())) / n as real
  {
    var a, b, k := SumBy(bin, Confidence()), SumBy(bin, Hit()), |bin|;
    if bin == [] {
      assert a == 0.0 && b == 0.0;
    } else {
      hide SumBy;
      GapQuotient(a, b, k as real, n as real);
    }
  }

  lemma GapQuotient(a: real, b: real, k: real, n: real)
    requires k > 0.0 && n > 0.0
    ensures k / n * Abs(a / k - b / k) == Abs(a - b) / n
  {
    DivAdd(a - b, b, k);
    assert a / k - b / k == (a - b) / k;
    AbsQuotient(a - b, k);
    var d := Abs(a - b);
    assert Abs(a / k - b / k) == d / k;
    DivTimes(d, k);
    assert k / n * (d / k) == (k * (d / k)) / n;
  }

  lemma AbsQuotient(x: real, k: real)
    requires k > 0.0
    ensures Abs(x / k) == Abs(x) / k
  {
    if x < 0.0 {
      DivPositive(-x, k);
      assert x / k == -((-x) / k);
    } else if x > 0.0 {
      DivPositive(x, k);
    }
  }

  function Gap(entries: seq<Entry>): real {
    SumBy(entries, Confidence()) - SumBy(entries, Hit())
  }

  function GapsUpTo(entries: seq<Entry>, k: nat): real {
    if k == 0 then 0.0 else GapsUpTo(entries, k - 1) + Abs(Gap(Bin(entries, k - 1)))
  }

  lemma {:induction false} ErrorIsGaps(entries: seq<Entry>, k: nat)
    requires entries != []
    ensures ErrorUpTo(entries, k) == GapsUpTo(entries, k) / |entries| as real
  {
    hide Term;
    hide Bin;
    if k > 0 {
      ErrorIsGaps(entries, k - 1);
      TermIsGap(|entries|, Bin(entries, k - 1));
      hide SumBy;
      hide Abs;
      DivAdd(GapsUpTo(entries, k - 1), Abs(Gap(Bin(entries, k - 1))), |entries| as real);
    }
  }

  ghost predicate Confidences(entries: seq<Entry>) {
    forall e :: e in entries ==> 0.0 <= e.confidence <= 1.0
  }

  /** Confidences and hits in [0, 1] differ by at most one each. */
  lemma {:induction false} GapAtMost(entries: seq<Entry>)
    requires Confidences(entries)
    ensures Abs(Gap(entries)) <= |entries| as real
  {
    if entries != [] {
      var n := |entries| - 1;
      assert entries[n] in entries;
      GapAtMost(entries[..n]);
    }
  }

  lemma NoneBelowZero(entries: seq<Entry>)
    requires Confidences(entries)
    ensures Filter(entries, Below(0)) == []
  {
    forall e | e in entries ensures !Below(0)(e) {
      assert e.confidence >= 0.0;
    }
    FilterNone(entries, Below(0));
  }

  lemma BinConfident(entries: seq<Entry>, k: int)
    requires Confidences(entries)
    ensures Confidences(Bin(entries, k))
  {
    FilterMembers(entries, InBin(k));
  }

  lemma {:induction false} GapsBetween(entries: seq<Entry>, k: nat)
    requires Confidences(entries)
    ensures Abs(Gap(Filter(entries, Below(k)))) <= GapsUpTo(entries, k) <= |Filter(entries, Below(k))| as real
  {
    hide Filter;
    hide SumBy;
    hide BinOf;
    hide Confidences;
    if k == 0 {
      NoneBelowZero(entries);
      NoGap();
    } else {
      GapsBetween(entries, k - 1);
      BinsSplit(entries, k - 1, Confidence());
      BinsSplit(entries, k - 1, Hit());
      BinConfident(entries, k - 1);
      GapAtMost(Bin(entries, k - 1));
    }
  }

  lemma NoGap()
    ensures Gap([]) == 0.0
  {
  }

  lemma EntriesBounds(entries: seq<Entry>)
    requires entries != [] && Confidences(entries)
    ensures Abs(Mean(entries, Confidence()) - Mean(entries, Hit())) <= CalibrationError(entries) <= 1.0
  {
    var n := |entries| as real;
    forall e ensures Below(BINS)(e) {
    }
    FilterAll(entries, Below(BINS));
    GapsBetween(entries, BINS);
    ErrorIsGaps(entries, BINS);
    hide SumBy;
    hide Filter;
    hide GapsUpTo;
    var gaps, gap := GapsUpTo(entries, BINS), Gap(entries);
    DivLe(Abs(gap), gaps, n);
    DivLe(gaps, n, n);
    DivOne(n);
    AbsQuotient(gap, n);
    DivAdd(gap, SumBy(entries, Hit()), n);
  }

  /** The entries of checked rows have confidences in [0, 1]. */
  lemma EntriesConfident(rows: seq<MatchRow>, variant: string, log: real -> real)
    requires Scorable(rows, variant)
    ensures Confidences(Entries(rows, variant, log))
  {
    hide EntryOf;
    hide RowProblem;
    var entries := Entries(rows, variant, log);
    forall e | e in entries ensures 0.0 <= e.confidence <= 1.0 {
      var i :| 0 <= i < |rows| && entries[i] == e;
      BinInRange(rows[i], variant, log);
    }
  }

  /** Of every list of scorable rows, the calibration error is at least the gap between mean confidence and
      accuracy, and at most 1. */
  lemma ErrorBounds(rows: seq<MatchRow>, variant: string, log: real -> real)
    requires rows != [] && Scorable(rows, variant)
    ensures var entries := Entries(rows, variant, log);
            && Mean(entries, Confidence()) - Mean(entries, Hit()) <= CalibrationError(entries) <= 1.0
            && Mean(entries, Hit()) - Mean(entries, Confidence()) <= CalibrationError(entries)
  {
    EntriesConfident(rows, variant, log);
    EntriesBounds(Entries(rows, variant, log));
    hide Mean;
    hide CalibrationError;
  }

  // ---------- A miss costs half a point ----------

  lemma HalfOfSquares(a: real, b: real)
    requires 0.0 <= a <= b
    ensures Squared(a - 1.0) + Squared(b) >= 0.5
  {
    Square(a - 0.5);
    ProductNonNegative(b - a, b + a);
  }

  lemma MissCostsHalf(p: seq<real>, y: nat)
    requires ValidProbabilities(p) && y < 3 && TopLabel(p) != y
    ensures Score(p, y) >= 0.5
  {
    HalfOfSquares(p[y], p[TopLabel(p)]);
    Square(p[0]);
    Square(p[1]);
    Square(p[2]);
    hide Squared;
    var t := TopLabel(p);
  }

  lemma ScoreNonNegative(p: seq<real>, y: nat)
    requires |p| == 3
    ensures Score(p, y) >= 0.0
  {
  }

  ghost predicate MissesCost(entries: seq<Entry>) {
    forall e :: e in entries ==> e.brier >= if e.hit then 0.0 else 0.5
  }

  lemma {:induction false} BrierSum(entries: seq<Entry>)
    requires MissesCost(entries)
    ensures 2.0 * SumBy(entries, BrierOf()) >= |entries| as real - SumBy(entries, Hit())
  {
    if entries != [] {
      var n := |entries| - 1;
      assert entries[n] in entries;
      BrierSum(entries[..n]);
    }
  }

  /** The accuracy of scorable rows is at least one minus twice their Brier score. */
  lemma BrierBoundsAccuracy(rows: seq<MatchRow>, variant: string, log: real -> real)
    requires rows != [] && Scorable(rows, variant)
    ensures var entries := Entries(rows, variant, log);
            Mean(entries, Hit()) >= 1.0 - 2.0 * Mean(entries, BrierOf())
  {
    var entries := Entries(rows, variant, log);
    forall e | e in entries ensures e.brier >= if e.hit then 0.0 else 0.5 {
      var i :| 0 <= i < |rows| && entries[i] == e;
      RowCost(rows[i], variant, log);
    }
    BrierSum(entries);
    hide SumBy;
    hide Entries;
    QuotientBound(SumBy(entries, Hit()), SumBy(entries, BrierOf()), |entries| as real);
  }

  lemma QuotientBound(hits: real, briers: real, n: real)
    requires n > 0.0 && 2.0 * briers >= n - hits
    ensures hits / n >= 1.0 - 2.0 * (briers / n)
  {
    DivLe(n, hits + 2.0 * briers, n);
    DivOne(n);
    DivAdd(hits, 2.0 * briers, n);
    DoubleQuotient(briers, n);
  }

  lemma DoubleQuotient(x: real, n: real)
    requires n > 0.0
    ensures (2.0 * x) / n == 2.0 * (x / n)
  {
    DivAdd(x, x, n);
  }

  lemma RowCost(r: MatchRow, variant: string, log: real -> real)
    requires variant in r.predictions && RowProblem(r, variant) == None
    ensures var e := EntryOf(r, variant, log); e.brier >= if e.hit then 0.0 else 0.5
  {
    var p := r.predictions[variant];
    ScoreNonNegative(p, Outcome(r));
    if TopLabel(p) != Outcome(r) {
      MissCostsHalf(p, Outcome(r));
    }
    hide Score;
  }

  // ---------- The clamp bounds the log loss ----------

  /** What is used of the natural logarithm. */
  ghost predicate Logarithm(log: real -> real) {
    log(1.0) == 0.0 && forall x, y :: 0.0 < x <= y ==> log(x) <= log(y)
  }

  lemma {:induction false} LossSum(entries: seq<Entry>, most: real)
    requires forall e :: e in entries ==> 0.0 <= e.loss <= most
    ensures 0.0 <= SumBy(entries, LossOf()) <= Times(most, |entries|)
  {
    if entries != [] {
      var n := |entries| - 1;
      assert entries[n] in entries;
      LossSum(entries[..n], most);
    }
  }

  /** The log loss of scorable rows is finite, at most that of the clamp, whatever probability was given. */
  lemma LossBounds(rows: seq<MatchRow>, variant: string, log: real -> real)
    requires rows != [] && Scorable(rows, variant) && Logarithm(log)
    ensures 0.0 <= Mean(Entries(rows, variant, log), LossOf()) <= -log(LEAST)
  {
    var entries := Entries(rows, variant, log);
    var most := -log(LEAST);
    forall e | e in entries ensures 0.0 <= e.loss <= most {
      var i :| 0 <= i < |rows| && entries[i] == e;
      RowLoss(rows[i], variant, log);
    }
    LossSum(entries, most);
    hide SumBy;
    hide Entries;
    hide Logarithm;
    MeanOfTimes(SumBy(entries, LossOf()), most, |entries|);
  }

  lemma MeanOfTimes(sum: real, most: real, n: nat)
    requires n > 0 && 0.0 <= sum <= Times(most, n)
    ensures 0.0 <= sum / n as real <= most
  {
    TimesOfQuotient(sum, n);
    TimesCancel(sum / n as real, most, n);
    TimesCancel(0.0, sum / n as real, n);
    TimesIsProduct(0.0, n);
  }

  lemma RowLoss(r: MatchRow, variant: string, log: real -> real)
    requires variant in r.predictions && RowProblem(r, variant) == None && Logarithm(log)
    ensures 0.0 <= EntryOf(r, variant, log).loss <= -log(LEAST)
  {
    var x := r.predictions[variant][Outcome(r)];
    assert log(if x > LEAST then x else LEAST) <= log(1.0);
    hide Score;
  }
}
