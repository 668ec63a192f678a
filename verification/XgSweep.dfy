/** The expected-goals sweep: a cursor over available matches against the plain as-of definition. */
module XgSweep {
  import opened Sequences
  import opened Wrappers

  /** None: missing, not a number or not finite. */
  type Measure = Option<real>

  datatype Match = Match(
    id: string, competition: string, kickoff: int, availableAt: Option<int>,
    homeTeam: string, awayTeam: string, homeXG: Measure, awayXG: Measure)

  /** Raw and opponent-adjusted expected goals of one side. */
  datatype Side = Side(xgFor: real, xgAgainst: real, adjustedFor: real, adjustedAgainst: real)
  datatype Observation = Observation(home: Side, away: Side)

  const RESULT_DELAY := 7_200_000

  function League(name: string): string {
    if name == "EPL" then "Premier League"
    else if name == "La_liga" || name == "La liga" then "La Liga"
    else if name == "Ligue_1" then "Ligue 1"
    else if name == "Serie_A" then "Serie A"
    else name
  }

  function Available(m: Match): int {
    var delayed := m.kickoff + RESULT_DELAY;
    var declared := if m.availableAt.Some? then m.availableAt.value else 0;
    if delayed < declared then declared else delayed
  }

  predicate Usable(x: Measure) {
    x.Some? && x.value >= 0.0
  }

  predicate Valid(m: Match) {
    Usable(m.homeXG) && Usable(m.awayXG)
  }

  // ---------- The plain definition ----------

  /** What a match adds to a team: the number of its sides, goals for and goals against. */
  datatype Figure = Appearances | For | Against

  function TeamShare(m: Match, team: string, figure: Figure): real
    requires Valid(m)
  {
    (if m.homeTeam != team then 0.0
     else match figure
       case Appearances => 1.0
       case For => m.homeXG.value
       case Against => m.awayXG.value) +
    (if m.awayTeam != team then 0.0
     else match figure
       case Appearances => 1.0
       case For => m.awayXG.value
       case Against => m.homeXG.value)
  }

  function TeamTerm(team: string, figure: Figure): Match -> real {
    (m: Match) => if Valid(m) then TeamShare(m, team, figure) else 0.0
  }

  function GoalsTerm(): Match -> real {
    (m: Match) => if Valid(m) then m.homeXG.value + m.awayXG.value else 0.0
  }

  function SidesTerm(): Match -> real {
    (m: Match) => if Valid(m) then 2.0 else 0.0
  }

  predicate InTime(m: Match, league: string, cutoff: int) {
    League(m.competition) == league && Available(m) <= cutoff
  }

  /** Restrict a term to the matches of a league that are available at the cutoff. */
  function AsOf(league: string, cutoff: int, term: Match -> real): Match -> real {
    (m: Match) => if InTime(m, league, cutoff) then term(m) else 0.0
  }

  function Mean(goals: real, sides: real): real {
    if sides != 0.0 then goals / sides else 1.3
  }

  function Clamp(v: real): real {
    var capped := if v < 2.0 then v else 2.0;
    if capped < 0.5 then 0.5 else capped
  }

  function StrengthOf(goals: real, sides: real, games: real, figure: real): (s: real)
    requires games >= 0.0
    ensures 0.5 <= s <= 2.0
  {
    var mean := Mean(goals, sides);
    var opponent := (figure + 5.0 * mean) / (games + 5.0);
    Clamp(opponent / if mean < 0.05 then 0.05 else mean)
  }

  lemma {:induction false} SumNonNegative(s: seq<Match>, f: Match -> real)
    requires forall m :: m in s ==> f(m) >= 0.0
    ensures SumBy(s, f) >= 0.0
  {
    if s != [] {
      assert s[|s| - 1] in s && forall m :: m in s[..|s| - 1] ==> m in s;
      SumNonNegative(s[..|s| - 1], f);
    }
  }

  /** Relative strength of a team over the whole history as known at the cutoff. */
  function Strength(history: seq<Match>, league: string, cutoff: int, team: string, figure: Figure): (s: real)
    ensures 0.5 <= s <= 2.0
  {
    var games := SumBy(history, AsOf(league, cutoff, TeamTerm(team, Appearances)));
    SumNonNegative(history, AsOf(league, cutoff, TeamTerm(team, Appearances)));
    StrengthOf(SumBy(history, AsOf(league, cutoff, GoalsTerm())), SumBy(history, AsOf(league, cutoff, SidesTerm())),
               games, SumBy(history, AsOf(league, cutoff, TeamTerm(team, figure))))
  }

  function Observe(history: seq<Match>, m: Match): Observation
    requires Valid(m)
  {
    var league := League(m.competition);
    var h, a := m.homeXG.value, m.awayXG.value;
    Observation(
      Side(h, a, h / Strength(history, league, m.kickoff, m.awayTeam, Against),
           a / Strength(history, league, m.kickoff, m.awayTeam, For)),
      Side(a, h, a / Strength(history, league, m.kickoff, m.homeTeam, Against),
           h / Strength(history, league, m.kickoff, m.homeTeam, For)))
  }

  // ---------- Causality of the plain definition ----------

  lemma SumIsCausal(h: seq<Match>, h': seq<Match>, league: string, cutoff: int, term: Match -> real)
    requires |h| == |h'|
    requires forall i :: 0 <= i < |h| ==> h[i] == h'[i] || (Available(h[i]) > cutoff && Available(h'[i]) > cutoff)
    ensures SumBy(h, AsOf(league, cutoff, term)) == SumBy(h', AsOf(league, cutoff, term))
  {
    SumByPointwise(h, h', AsOf(league, cutoff, term));
  }

  /** Whatever happens to matches that become available after the cutoff, the strengths stay. */
  lemma StrengthIsCausal(h: seq<Match>, h': seq<Match>, league: string, cutoff: int, team: string, figure: Figure)
    requires |h| == |h'|
    requires forall i :: 0 <= i < |h| ==> h[i] == h'[i] || (Available(h[i]) > cutoff && Available(h'[i]) > cutoff)
    ensures Strength(h, league, cutoff, team, figure) == Strength(h', league, cutoff, team, figure)
  {
    SumIsCausal(h, h', league, cutoff, TeamTerm(team, Appearances));
    SumIsCausal(h, h', league, cutoff, TeamTerm(team, figure));
    SumIsCausal(h, h', league, cutoff, GoalsTerm());
    SumIsCausal(h, h', league, cutoff, SidesTerm());
  }

  /** An observation ignores every change to later matches, and the match itself is one of them. */
  lemma ObservationIsCausal(h: seq<Match>, h': seq<Match>, m: Match)
    requires Valid(m) && |h| == |h'|
    requires forall i :: 0 <= i < |h| ==>
               h[i] == h'[i] || (Available(h[i]) > m.kickoff && Available(h'[i]) > m.kickoff)
    ensures Observe(h, m) == Observe(h', m)
    ensures Available(m) > m.kickoff
  {
    var league := League(m.competition);
    StrengthIsCausal(h, h', league, m.kickoff, m.awayTeam, Against);
    StrengthIsCausal(h, h', league, m.kickoff, m.awayTeam, For);
    StrengthIsCausal(h, h', league, m.kickoff, m.homeTeam, Against);
    StrengthIsCausal(h, h', league, m.kickoff, m.homeTeam, For);
  }

  // ---------- The order of the sweep ----------

  function ByKickoff(): (Match, Match) -> bool {
    (a: Match, b: Match) => KeyLe(a.kickoff, a.id, b.kickoff, b.id)
  }

  function ByAvailability(): (Match, Match) -> bool {
    (a: Match, b: Match) => Available(a) <= Available(b)
  }

  lemma KickoffPreorder()
    ensures TotalPreorder(ByKickoff())
  {
    var le := ByKickoff();
    forall a, b ensures le(a, b) || le(b, a) {
      KeyOrder(a.kickoff, a.id, b.kickoff, b.id, 0, "");
    }
    forall a, b, c | le(a, b) && le(b, c) ensures le(a, c) {
      KeyOrder(a.kickoff, a.id, b.kickoff, b.id, c.kickoff, c.id);
    }
  }

  function InLeague(league: string): Match -> bool {
    (m: Match) => League(m.competition) == league
  }

  function LeagueMatches(history: seq<Match>, league: string): seq<Match> {
    SortBy(ByKickoff(), Filter(history, InLeague(league)))
  }

  function Ready(history: seq<Match>, league: string): seq<Match> {
    SortBy(ByAvailability(), LeagueMatches(history, league))
  }

  function Leagues(history: seq<Match>): seq<string> {
    SortBy(TextLe, Distinct(seq(|history|, i requires 0 <= i < |history| => League(history[i].competition))))
  }

  /** One dictionary write per valid match, in order; a repeated id overwrites. */
  function Record(history: seq<Match>, ms: seq<Match>, result: map<string, Observation>): map<string, Observation> {
    if ms == [] then result
    else
      var r := Record(history, ms[..|ms| - 1], result);
      var m := ms[|ms| - 1];
      if Valid(m) then r[m.id := Observe(history, m)] else r
  }

  function RecordLeagues(history: seq<Match>, leagues: seq<string>): map<string, Observation> {
    if leagues == [] then map[]
    else
      var n := |leagues| - 1;
      Record(history, LeagueMatches(history, leagues[n]), RecordLeagues(history, leagues[..n]))
  }

  lemma ReadyFacts(history: seq<Match>, league: string)
    ensures SortedBy(ByKickoff(), LeagueMatches(history, league))
    ensures SortedBy(ByAvailability(), Ready(history, league))
    ensures multiset(Ready(history, league)) == multiset(Filter(history, InLeague(league)))
    ensures forall m :: m in Ready(history, league) ==> League(m.competition) == league
    ensures forall m :: m in LeagueMatches(history, league) <==> m in history && League(m.competition) == league
  {
    KickoffPreorder();
    var f := Filter(history, InLeague(league));
    FilterMembers(history, InLeague(league));
    SortBySorted(ByKickoff(), f);
    SortBySorted(ByAvailability(), LeagueMatches(history, league));
  }

  /** A prefix of the ready list that splits it at the cutoff holds exactly the as-of sum. */
  lemma PrefixIsAsOf(history: seq<Match>, league: string, cutoff: int, c: nat, term: Match -> real)
    requires c <= |Ready(history, league)|
    requires forall i :: 0 <= i < c ==> Available(Ready(history, league)[i]) <= cutoff
    requires forall i :: c <= i < |Ready(history, league)| ==> Available(Ready(history, league)[i]) > cutoff
    ensures SumBy(Ready(history, league)[..c], term) == SumBy(history, AsOf(league, cutoff, term))
  {
    var ready, f := Ready(history, league), AsOf(league, cutoff, term);
    ReadyFacts(history, league);
    FilterSum(history, InLeague(league), f, f);
    SumByPermutation(ready, Filter(history, InLeague(league)), f);
    assert ready == ready[..c] + ready[c..];
    SumByAppend(ready[..c], ready[c..], f);
    forall m | m in ready[c..] ensures f(m) == 0.0 {
    }
    SumByZero(ready[c..], f);
    forall m | m in ready[..c] ensures f(m) == term(m) {
      assert m in ready;
    }
    SumByCong(ready[..c], f, term);
  }

  // ---------- The incremental state ----------

  datatype Tally = Tally(games: real, xgFor: real, xgAgainst: real) {
    function Add(xgf: real, xga: real): Tally {
      Tally(games + 1.0, xgFor + xgf, xgAgainst + xga)
    }
  }

  /** A default dictionary: absent teams have an empty tally. */
  function Lookup(sums: map<string, Tally>, team: string): Tally {
    if team in sums then sums[team] else Tally(0.0, 0.0, 0.0)
  }

  ghost predicate TeamTallied(prefix: seq<Match>, sums: map<string, Tally>, team: string) {
    && Lookup(sums, team).games == SumBy(prefix, TeamTerm(team, Appearances))
    && Lookup(sums, team).xgFor == SumBy(prefix, TeamTerm(team, For))
    && Lookup(sums, team).xgAgainst == SumBy(prefix, TeamTerm(team, Against))
  }

  /** The counters hold the sums over the consumed prefix of the ready list. */
  ghost predicate Tallied(prefix: seq<Match>, sums: map<string, Tally>, total: real, count: real) {
    && total == SumBy(prefix, GoalsTerm())
    && count == SumBy(prefix, SidesTerm())
    && forall team :: TeamTallied(prefix, sums, team)
  }

  lemma SumByStep(s: seq<Match>, c: nat, f: Match -> real)
    requires c < |s|
    ensures SumBy(s[..c + 1], f) == SumBy(s[..c], f) + f(s[c])
  {
    assert s[..c + 1][..c] == s[..c];
  }

  lemma SkipInvalid(ready: seq<Match>, c: nat, sums: map<string, Tally>, total: real, count: real)
    requires c < |ready| && !Valid(ready[c]) && Tallied(ready[..c], sums, total, count)
    ensures Tallied(ready[..c + 1], sums, total, count)
  {
    SumByStep(ready, c, GoalsTerm());
    SumByStep(ready, c, SidesTerm());
    var next := ready[..c + 1];
    forall team ensures TeamTallied(next, sums, team) {
      assert TeamTallied(ready[..c], sums, team);
      SumByStep(ready, c, TeamTerm(team, Appearances));
      SumByStep(ready, c, TeamTerm(team, For));
      SumByStep(ready, c, TeamTerm(team, Against));
    }
  }

  lemma AddValid(ready: seq<Match>, c: nat, sums: map<string, Tally>, sums': map<string, Tally>, total: real,
                 count: real)
    requires c < |ready| && Valid(ready[c]) && Tallied(ready[..c], sums, total, count)
    requires var m := ready[c]; var h, a := m.homeXG.value, m.awayXG.value;
             var mid := sums[m.homeTeam := Lookup(sums, m.homeTeam).Add(h, a)];
             sums' == mid[m.awayTeam := Lookup(mid, m.awayTeam).Add(a, h)]
    ensures Tallied(ready[..c + 1], sums', total + (ready[c].homeXG.value + ready[c].awayXG.value), count + 2.0)
  {
    SumByStep(ready, c, GoalsTerm());
    SumByStep(ready, c, SidesTerm());
    var next := ready[..c + 1];
    forall team ensures TeamTallied(next, sums', team) {
      assert TeamTallied(ready[..c], sums, team);
      SumByStep(ready, c, TeamTerm(team, Appearances));
      SumByStep(ready, c, TeamTerm(team, For));
      SumByStep(ready, c, TeamTerm(team, Against));
    }
  }

  /** The inner loop: consume every ready match available at the kickoff. */
  method Advance(ready: seq<Match>, kickoff: int, cursor0: nat, sums0: map<string, Tally>, total0: real, count0: real)
    returns (cursor: nat, sums: map<string, Tally>, total: real, count: real)
    requires cursor0 <= |ready| && Tallied(ready[..cursor0], sums0, total0, count0)
    requires SortedBy(ByAvailability(), ready)
    requires forall i :: 0 <= i < cursor0 ==> Available(ready[i]) <= kickoff
    ensures cursor0 <= cursor <= |ready| && Tallied(ready[..cursor], sums, total, count)
    ensures forall i :: 0 <= i < cursor ==> Available(ready[i]) <= kickoff
    ensures forall i :: cursor <= i < |ready| ==> Available(ready[i]) > kickoff
  {
    cursor, sums, total, count := cursor0, sums0, total0, count0;
    while cursor < |ready| && Available(ready[cursor]) <= kickoff
      invariant cursor0 <= cursor <= |ready| && Tallied(ready[..cursor], sums, total, count)
      invariant forall i :: 0 <= i < cursor ==> Available(ready[i]) <= kickoff
    {
      var past := ready[cursor];
      ghost var before := sums;
      if !Valid(past) {
        SkipInvalid(ready, cursor, sums, total, count);
        cursor := cursor + 1;
        continue;
      }
      var h, a := past.homeXG.value, past.awayXG.value;
      sums := sums[past.homeTeam := Lookup(sums, past.homeTeam).Add(h, a)];
      sums := sums[past.awayTeam := Lookup(sums, past.awayTeam).Add(a, h)];
      AddValid(ready, cursor, before, sums, total, count);
      total, count := total + (h + a), count + 2.0;
      cursor := cursor + 1;
    }
    if cursor < |ready| {
      forall i | cursor <= i < |ready| ensures Available(ready[i]) > kickoff {
        var le := ByAvailability();
        assert i == cursor || le(ready[cursor], ready[i]);
      }
    }
  }

  function StrengthFromTally(total: real, count: real, t: Tally, figure: real): real
    requires t.games >= 0.0
  {
    StrengthOf(total, count, t.games, figure)
  }

  /** The counters give the plain strengths. */
  lemma TalliedStrength(history: seq<Match>, league: string, cutoff: int, c: nat,
                        sums: map<string, Tally>, total: real, count: real, team: string)
    requires c <= |Ready(history, league)| && Tallied(Ready(history, league)[..c], sums, total, count)
    requires forall i :: 0 <= i < c ==> Available(Ready(history, league)[i]) <= cutoff
    requires forall i :: c <= i < |Ready(history, league)| ==> Available(Ready(history, league)[i]) > cutoff
    ensures var t := Lookup(sums, team);
            && t.games >= 0.0
            && StrengthFromTally(total, count, t, t.xgFor) == Strength(history, league, cutoff, team, For)
            && StrengthFromTally(total, count, t, t.xgAgainst) == Strength(history, league, cutoff, team, Against)
  {
    hide StrengthOf;
    assert TeamTallied(Ready(history, league)[..c], sums, team);
    SumNonNegative(Ready(history, league)[..c], TeamTerm(team, Appearances));
    PrefixIsAsOf(history, league, cutoff, c, TeamTerm(team, Appearances));
    PrefixIsAsOf(history, league, cutoff, c, TeamTerm(team, For));
    PrefixIsAsOf(history, league, cutoff, c, TeamTerm(team, Against));
    PrefixIsAsOf(history, league, cutoff, c, GoalsTerm());
    PrefixIsAsOf(history, league, cutoff, c, SidesTerm());
  }

  function FromTallies(m: Match, total: real, count: real, home: Tally, away: Tally): Observation
    requires Valid(m) && home.games >= 0.0 && away.games >= 0.0
  {
    var h, a := m.homeXG.value, m.awayXG.value;
    Observation(
      Side(h, a, h / StrengthFromTally(total, count, away, away.xgAgainst),
           a / StrengthFromTally(total, count, away, away.xgFor)),
      Side(a, h, a / StrengthFromTally(total, count, home, home.xgAgainst),
           h / StrengthFromTally(total, count, home, home.xgFor)))
  }

  lemma TalliedObservation(history: seq<Match>, m: Match, c: nat, sums: map<string, Tally>, total: real, count: real)
    requires Valid(m)
    requires var ready := Ready(history, League(m.competition));
             && c <= |ready| && Tallied(ready[..c], sums, total, count)
             && (forall i :: 0 <= i < c ==> Available(ready[i]) <= m.kickoff)
             && forall i :: c <= i < |ready| ==> Available(ready[i]) > m.kickoff
    ensures Lookup(sums, m.homeTeam).games >= 0.0 && Lookup(sums, m.awayTeam).games >= 0.0
    ensures FromTallies(m, total, count, Lookup(sums, m.homeTeam), Lookup(sums, m.awayTeam)) == Observe(history, m)
  {
    hide Strength;
    hide Tallied;
    hide StrengthOf;
    var league := League(m.competition);
    TalliedStrength(history, league, m.kickoff, c, sums, total, count, m.awayTeam);
    TalliedStrength(history, league, m.kickoff, c, sums, total, count, m.homeTeam);
  }

  lemma TalliedEmpty()
    ensures Tallied([], map[], 0.0, 0.0)
  {
    var none: seq<Match>, sums: map<string, Tally> := [], map[];
    forall team ensures TeamTallied(none, sums, team) {
    }
  }

  lemma RecordNone(history: seq<Match>, before: map<string, Observation>)
    ensures Record(history, [], before) == before
  {
  }

  lemma RecordStep(history: seq<Match>, ms: seq<Match>, j: nat, before: map<string, Observation>)
    requires j < |ms|
    ensures Record(history, ms[..j + 1], before)
         == var r := Record(history, ms[..j], before);
            if Valid(ms[j]) then r[ms[j].id := Observe(history, ms[j])] else r
  {
    assert ms[..j + 1][..j] == ms[..j];
  }

  /** One league: the sweep writes exactly the plain observations. */
  method SweepLeague(history: seq<Match>, league: string, before: map<string, Observation>)
    returns (result: map<string, Observation>)
    ensures result == Record(history, LeagueMatches(history, league), before)
  {
    hide FromTallies;
    hide Observe;
    hide Tallied;
    hide Record;
    var matches, ready := LeagueMatches(history, league), Ready(history, league);
    ReadyFacts(history, league);
    hide LeagueMatches;
    hide Ready;
    var sums: map<string, Tally> := map[];
    var cursor, total, count := 0, 0.0, 0.0;
    result := before;
    TalliedEmpty();
    assert ready[..0] == [] && matches[..0] == [];
    RecordNone(history, before);
    for j := 0 to |matches|
      invariant cursor <= |ready| && Tallied(ready[..cursor], sums, total, count)
      invariant forall i :: 0 <= i < cursor ==> j > 0 && Available(ready[i]) <= matches[j - 1].kickoff
      invariant result == Record(history, matches[..j], before)
    {
      var m := matches[j];
      var le := ByKickoff();
      assert j > 0 ==> le(matches[j - 1], m);
      cursor, sums, total, count := Advance(ready, m.kickoff, cursor, sums, total, count);
      RecordStep(history, matches, j, before);
      if Valid(m) {
        assert m in matches;
        TalliedObservation(history, m, cursor, sums, total, count);
        result := result[m.id := FromTallies(m, total, count, Lookup(sums, m.homeTeam), Lookup(sums, m.awayTeam))];
      }
    }
    assert matches[..|matches|] == matches;
  }

  /** The whole sweep over all leagues. */
  method RecreateXgObservations(history: seq<Match>) returns (result: map<string, Observation>)
    ensures result == RecordLeagues(history, Leagues(history))
    ensures DistinctKeys(history, Ids()) ==>
              forall m :: m in history && Valid(m) ==> m.id in result && result[m.id] == Observe(history, m)
  {
    hide Record;
    hide LeagueMatches;
    var leagues := Leagues(history);
    hide Leagues;
    result := map[];
    for l := 0 to |leagues|
      invariant result == RecordLeagues(history, leagues[..l])
    {
      assert leagues[..l + 1][..l] == leagues[..l];
      result := SweepLeague(history, leagues[l], result);
    }
    assert leagues[..|leagues|] == leagues;
    if DistinctKeys(history, Ids()) {
      SweepIsComplete(history);
    }
  }

  // ---------- What is recorded when identifiers are distinct ----------

  function Ids(): Match -> string {
    (m: Match) => m.id
  }

  lemma {:induction false} RecordMisses(history: seq<Match>, ms: seq<Match>, before: map<string, Observation>,
                                        id: string)
    requires forall m :: m in ms && Valid(m) ==> m.id != id
    ensures var r := Record(history, ms, before); (id in r <==> id in before) && (id in r ==> r[id] == before[id])
  {
    hide Observe;
    if ms != [] {
      var n := |ms| - 1;
      assert ms[n] in ms && forall m :: m in ms[..n] ==> m in ms;
      RecordMisses(history, ms[..n], before, id);
    }
  }

  lemma {:induction false} RecordHits(history: seq<Match>, ms: seq<Match>, before: map<string, Observation>, k: nat)
    requires DistinctKeys(ms, Ids()) && k < |ms| && Valid(ms[k])
    ensures var r := Record(history, ms, before); ms[k].id in r && r[ms[k].id] == Observe(history, ms[k])
  {
    hide Observe;
    var n := |ms| - 1;
    if k < n {
      RecordHits(history, ms[..n], before, k);
      assert Ids()(ms[k]) != Ids()(ms[n]);
    }
  }

  /** The matches of the leagues swept so far. */
  ghost predicate Covered(leagues: seq<string>, m: Match) {
    Valid(m) && League(m.competition) in leagues
  }

  lemma SameId(history: seq<Match>, a: Match, b: Match)
    requires DistinctKeys(history, Ids()) && a in history && b in history && a.id == b.id
    ensures a == b
  {
    var i :| 0 <= i < |history| && history[i] == a;
    var j :| 0 <= j < |history| && history[j] == b;
    assert i < j ==> Ids()(history[i]) != Ids()(history[j]);
    assert j < i ==> Ids()(history[j]) != Ids()(history[i]);
  }

  lemma {:induction false} LeaguesContents(history: seq<Match>, leagues: seq<string>)
    requires DistinctKeys(history, Ids())
    requires forall i, j :: 0 <= i < j < |leagues| ==> leagues[i] != leagues[j]
    ensures var r := RecordLeagues(history, leagues);
            && (forall m :: m in history && Covered(leagues, m) ==> m.id in r && r[m.id] == Observe(history, m))
            && forall id :: id in r ==> exists m :: m in history && Covered(leagues, m) && m.id == id
  {
    hide Observe;
    if leagues != [] {
      var n := |leagues| - 1;
      var league, before := leagues[n], RecordLeagues(history, leagues[..n]);
      var ms := LeagueMatches(history, league);
      LeaguesContents(history, leagues[..n]);
      ReadyFacts(history, league);
      DistinctLeague(history, league);
      var r := RecordLeagues(history, leagues);
      forall m | m in history && Covered(leagues, m) ensures m.id in r && r[m.id] == Observe(history, m) {
        if League(m.competition) == league {
          var k :| 0 <= k < |ms| && ms[k] == m;
          RecordHits(history, ms, before, k);
        } else {
          assert Covered(leagues[..n], m);
          forall x | x in ms && Valid(x) ensures x.id != m.id {
            if x.id == m.id {
              SameId(history, x, m);
              assert false;
            }
          }
          RecordMisses(history, ms, before, m.id);
        }
      }
      forall id | id in r ensures exists m :: m in history && Covered(leagues, m) && m.id == id {
        if m :| m in ms && Valid(m) && m.id == id {
          assert Covered(leagues, m);
        } else {
          RecordMisses(history, ms, before, id);
          var m :| m in history && Covered(leagues[..n], m) && m.id == id;
          assert Covered(leagues, m);
        }
      }
    }
  }

  lemma DistinctLeague(history: seq<Match>, league: string)
    requires DistinctKeys(history, Ids())
    ensures DistinctKeys(LeagueMatches(history, league), Ids())
  {
    var f := Filter(history, InLeague(league));
    KickoffPreorder();
    SortBySorted(ByKickoff(), f);
    DistinctFilter(history, InLeague(league), Ids());
    DistinctPermutation(f, LeagueMatches(history, league), Ids());
  }

  /** With distinct identifiers the sweep records every valid match of every league, with its plain
      observation, and nothing else. */
  lemma SweepIsComplete(history: seq<Match>)
    requires DistinctKeys(history, Ids())
    ensures var r := RecordLeagues(history, Leagues(history));
            && (forall m :: m in history && Valid(m) ==> m.id in r && r[m.id] == Observe(history, m))
            && forall id :: id in r ==> exists m :: m in history && Valid(m) && m.id == id
  {
    hide Observe;
    var names := seq(|history|, i requires 0 <= i < |history| => League(history[i].competition));
    DistinctMembers(names);
    TextPreorder();
    SortBySorted(TextLe, Distinct(names));
    var leagues := Leagues(history);
    var id := (t: string) => t;
    assert DistinctKeys(Distinct(names), id);
    DistinctPermutation(Distinct(names), leagues, id);
    assert forall i, j :: 0 <= i < j < |leagues| ==> id(leagues[i]) != id(leagues[j]);
    LeaguesContents(history, leagues);
    forall m | m in history && Valid(m) ensures Covered(leagues, m) {
      var i :| 0 <= i < |history| && history[i] == m;
      assert names[i] in names;
    }
  }
}
