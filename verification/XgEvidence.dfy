/** What the sweep records, told from the matches known before a kickoff: how each figure is adjusted to the
    opponent, and how the adjustment answers to scale, to evidence and to its absence. */
module XgEvidence {
  import opened Reals
  import opened Sequences
  import opened Wrappers
  import opened XgSweep

  /** Both figures are there, and two hours after kickoff, or when the source published it if later, the cutoff has
      not passed. */
  predicate Known(m: Match, league: string, cutoff: int) {
    && m.homeXG.Some? && m.homeXG.value >= 0.0 && m.awayXG.Some? && m.awayXG.value >= 0.0
    && League(m.competition) == league
    && m.kickoff + 7_200_000 <= cutoff && (if m.availableAt.Some? then m.availableAt.value else 0) <= cutoff
  }

  /** Sides and expected goals of the league; games, expected goals scored and conceded of a team. */
  datatype Evidence = Evidence(sides: real, goals: real, games: real, scored: real, conceded: real) {
    function Home(own: bool, h: real, a: real): Evidence {
      if own then Evidence(sides, goals, games + 1.0, scored + h, conceded + a) else this
    }

    function Away(own: bool, h: real, a: real): Evidence {
      if own then Evidence(sides, goals, games + 1.0, scored + a, conceded + h) else this
    }
  }

  /** One more match of the league. */
  function Plus(e: Evidence, m: Match, team: string): Evidence
    requires m.homeXG.Some? && m.awayXG.Some?
  {
    var h, a := m.homeXG.value, m.awayXG.value;
    var both := e.(sides := e.sides + 2.0, goals := e.goals + h + a);
    both.Home(m.homeTeam == team, h, a).Away(m.awayTeam == team, h, a)
  }

  function EvidenceOf(history: seq<Match>, league: string, cutoff: int, team: string): Evidence {
    if history == [] then Evidence(0.0, 0.0, 0.0, 0.0, 0.0)
    else
      var m := history[|history| - 1];
      var e := EvidenceOf(history[..|history| - 1], league, cutoff, team);
      if Known(m, league, cutoff) then Plus(e, m, team) else e
  }

  lemma {:induction false} EvidenceIsSums(history: seq<Match>, league: string, cutoff: int, team: string)
    ensures EvidenceOf(history, league, cutoff, team)
         == Evidence(SumBy(history, AsOf(league, cutoff, SidesTerm())),
                     SumBy(history, AsOf(league, cutoff, GoalsTerm())),
                     SumBy(history, AsOf(league, cutoff, TeamTerm(team, Appearances))),
                     SumBy(history, AsOf(league, cutoff, TeamTerm(team, For))),
                     SumBy(history, AsOf(league, cutoff, TeamTerm(team, Against))))
  {
    if history != [] {
      EvidenceIsSums(history[..|history| - 1], league, cutoff, team);
    }
  }

  /** The mean of a side in the league, 1.3 where nothing is known. */
  function MeanOf(e: Evidence): real {
    if e.sides == 0.0 then 1.3 else e.goals / e.sides
  }

  /** x is the figure of the team in units of the mean, with five games of the mean added to its own. */
  ghost predicate Relative(e: Evidence, figure: real, x: real) {
    x * (if MeanOf(e) < 0.05 then 0.05 else MeanOf(e)) * (e.games + 5.0) == figure + 5.0 * MeanOf(e)
  }

  /** It is kept between one half and two. */
  function Kept(x: real): real {
    if x < 0.5 then 0.5 else if x > 2.0 then 2.0 else x
  }

  lemma {:induction false} GamesNonNegative(history: seq<Match>, league: string, cutoff: int, team: string)
    ensures EvidenceOf(history, league, cutoff, team).games >= 0.0
  {
    if history != [] {
      GamesNonNegative(history[..|history| - 1], league, cutoff, team);
    }
  }

  lemma RelativeOf(e: Evidence, figure: real) returns (x: real)
    requires e.games >= 0.0
    ensures Relative(e, figure, x) && StrengthOf(e.goals, e.sides, e.games, figure) == Kept(x)
  {
    var mean := MeanOf(e);
    var floor := if mean < 0.05 then 0.05 else mean;
    var opponent := (figure + 5.0 * mean) / (e.games + 5.0);
    x := opponent / floor;
    DivTimes(opponent, floor);
    DivTimes(figure + 5.0 * mean, e.games + 5.0);
    hide MeanOf;
  }

  lemma StrengthIs(history: seq<Match>, league: string, cutoff: int, team: string, figure: Figure) returns (x: real)
    requires figure != Appearances
    ensures var e := EvidenceOf(history, league, cutoff, team);
            && Relative(e, if figure == For then e.scored else e.conceded, x)
            && Strength(history, league, cutoff, team, figure) == Kept(x)
  {
    EvidenceIsSums(history, league, cutoff, team);
    GamesNonNegative(history, league, cutoff, team);
    var e := EvidenceOf(history, league, cutoff, team);
    var f := if figure == For then e.scored else e.conceded;
    x := RelativeOf(e, f);
    hide EvidenceOf;
    hide SumBy;
    hide Relative;
  }

  /** A figure is divided by the relative strength that it met. */
  ghost predicate AdjustedBy(raw: real, adjusted: real, e: Evidence, figure: real) {
    exists x :: Relative(e, figure, x) && raw == adjusted * Kept(x)
  }

  /** The observation of a match, from what is known of both teams at kickoff: attacks are measured by what the
      opponent concedes, defences by what it scores. */
  ghost predicate Measures(o: Observation, m: Match, home: Evidence, away: Evidence)
    requires Valid(m)
  {
    var h, a := m.homeXG.value, m.awayXG.value;
    && o.home.xgFor == h && o.home.xgAgainst == a && o.away.xgFor == a && o.away.xgAgainst == h
    && AdjustedBy(h, o.home.adjustedFor, away, away.conceded)
    && AdjustedBy(a, o.home.adjustedAgainst, away, away.scored)
    && AdjustedBy(a, o.away.adjustedFor, home, home.conceded)
    && AdjustedBy(h, o.away.adjustedAgainst, home, home.scored)
  }

  lemma Adjusted(raw: real, history: seq<Match>, league: string, cutoff: int, team: string, figure: Figure)
    requires figure != Appearances
    ensures var e := EvidenceOf(history, league, cutoff, team);
            AdjustedBy(raw, raw / Strength(history, league, cutoff, team, figure), e,
                       if figure == For then e.scored else e.conceded)
  {
    hide Strength;
    hide Relative;
    hide EvidenceOf;
    hide Kept;
    var x := StrengthIs(history, league, cutoff, team, figure);
    KeptBounds(x);
    AdjustedIntro(raw, EvidenceOf(history, league, cutoff, team),
                  if figure == For then EvidenceOf(history, league, cutoff, team).scored
                  else EvidenceOf(history, league, cutoff, team).conceded, x);
  }

  lemma KeptBounds(x: real)
    ensures 0.5 <= Kept(x) <= 2.0
  {
  }

  lemma KeptMonotone(x: real, y: real)
    requires x <= y
    ensures Kept(x) <= Kept(y)
  {
  }

  lemma AdjustedIntro(raw: real, e: Evidence, figure: real, x: real)
    requires Relative(e, figure, x) && Kept(x) > 0.0
    ensures AdjustedBy(raw, raw / Kept(x), e, figure)
  {
    hide Relative;
    hide Kept;
    DivTimes(raw, Kept(x));
  }

  lemma ObservationMeasures(history: seq<Match>, m: Match)
    requires Valid(m)
    ensures Measures(Observe(history, m), m, EvidenceOf(history, League(m.competition), m.kickoff, m.homeTeam),
                     EvidenceOf(history, League(m.competition), m.kickoff, m.awayTeam))
  {
    var league, h, a := League(m.competition), m.homeXG.value, m.awayXG.value;
    Adjusted(h, history, league, m.kickoff, m.awayTeam, Against);
    Adjusted(a, history, league, m.kickoff, m.awayTeam, For);
    Adjusted(a, history, league, m.kickoff, m.homeTeam, Against);
    Adjusted(h, history, league, m.kickoff, m.homeTeam, For);
    hide Strength;
    hide AdjustedBy;
    hide EvidenceOf;
    hide League;
  }

  /** The sweep records of every valid match, and of nothing else, the observation that is measured so. */
  lemma RecordedMeasures(history: seq<Match>)
    requires DistinctKeys(history, Ids())
    ensures var r := RecordLeagues(history, Leagues(history));
            forall m :: m in history && Valid(m) ==>
              && m.id in r
              && Measures(r[m.id], m, EvidenceOf(history, League(m.competition), m.kickoff, m.homeTeam),
                          EvidenceOf(history, League(m.competition), m.kickoff, m.awayTeam))
  {
    SweepIsComplete(history);
    hide RecordLeagues;
    hide Measures;
    forall m | m in history && Valid(m)
      ensures Measures(Observe(history, m), m, EvidenceOf(history, League(m.competition), m.kickoff, m.homeTeam),
                       EvidenceOf(history, League(m.competition), m.kickoff, m.awayTeam))
    {
      ObservationMeasures(history, m);
    }
  }

  // ---------- Nothing is known ----------

  lemma {:induction false} NoEvidence(history: seq<Match>, league: string, cutoff: int, team: string)
    requires forall m :: m in history ==> !Known(m, league, cutoff)
    ensures EvidenceOf(history, league, cutoff, team) == Evidence(0.0, 0.0, 0.0, 0.0, 0.0)
  {
    if history != [] {
      assert history[|history| - 1] in history;
      NoEvidence(history[..|history| - 1], league, cutoff, team);
    }
  }

  lemma Unadjusted(raw: real, adjusted: real)
    requires AdjustedBy(raw, adjusted, Evidence(0.0, 0.0, 0.0, 0.0, 0.0), 0.0)
    ensures adjusted == raw
  {
  }

  /** Where nothing of the league is known at kickoff the recorded adjusted figures are the raw ones. */
  lemma FirstMatchUnadjusted(history: seq<Match>, m: Match)
    requires DistinctKeys(history, Ids()) && m in history && Valid(m)
    requires forall past :: past in history ==> !Known(past, League(m.competition), m.kickoff)
    ensures var r := RecordLeagues(history, Leagues(history)); var h, a := m.homeXG.value, m.awayXG.value;
            m.id in r && r[m.id] == Observation(Side(h, a, h, a), Side(a, h, a, h))
  {
    RecordedMeasures(history);
    var h, a := m.homeXG.value, m.awayXG.value;
    var o := RecordLeagues(history, Leagues(history))[m.id];
    NoEvidence(history, League(m.competition), m.kickoff, m.homeTeam);
    NoEvidence(history, League(m.competition), m.kickoff, m.awayTeam);
    hide RecordLeagues;
    hide EvidenceOf;
    hide AdjustedBy;
    Unadjusted(h, o.home.adjustedFor);
    Unadjusted(a, o.home.adjustedAgainst);
    Unadjusted(a, o.away.adjustedFor);
    Unadjusted(h, o.away.adjustedAgainst);
  }

  // ---------- Scale ----------

  function Scaled(m: Match, k: real): Match {
    m.(homeXG := if m.homeXG.Some? then Some(Mul(k, m.homeXG.value)) else None,
       awayXG := if m.awayXG.Some? then Some(Mul(k, m.awayXG.value)) else None)
  }

  function ScaledAll(history: seq<Match>, k: real): seq<Match> {
    if history == [] then [] else ScaledAll(history[..|history| - 1], k) + [Scaled(history[|history| - 1], k)]
  }

  function ScaledEvidence(e: Evidence, k: real): Evidence {
    Evidence(e.sides, Mul(k, e.goals), e.games, Mul(k, e.scored), Mul(k, e.conceded))
  }

  lemma ScaleAdds(k: real, x: real, y: real)
    ensures Mul(k, x + y) == Mul(k, x) + Mul(k, y) && Mul(k, 0.0) == 0.0
  {
  }

  lemma ScaledKnown(m: Match, k: real, league: string, cutoff: int)
    requires k > 0.0
    ensures Known(Scaled(m, k), league, cutoff) <==> Known(m, league, cutoff)
  {
    if m.homeXG.Some? {
      SameSign(k, m.homeXG.value);
    }
    if m.awayXG.Some? {
      SameSign(k, m.awayXG.value);
    }
    hide League;
    hide Mul;
  }

  lemma SameSign(k: real, x: real)
    requires k > 0.0
    ensures Mul(k, x) >= 0.0 <==> x >= 0.0
  {
  }

  lemma ScaledLast(history: seq<Match>, k: real)
    requires history != []
    ensures var n := |history| - 1; var s := ScaledAll(history, k);
            |s| == n + 1 && s[..n] == ScaledAll(history[..n], k) && s[n] == Scaled(history[n], k)
  {
    ScaledLength(history[..|history| - 1], k);
  }

  lemma {:induction false} ScaledLength(history: seq<Match>, k: real)
    ensures |ScaledAll(history, k)| == |history|
  {
    if history != [] {
      ScaledLength(history[..|history| - 1], k);
    }
  }

  lemma ScaledStep(e: Evidence, m: Match, team: string, k: real)
    requires k > 0.0 && m.homeXG.Some? && m.awayXG.Some?
    ensures Scaled(m, k).homeXG.Some? && Scaled(m, k).awayXG.Some?
    ensures Plus(ScaledEvidence(e, k), Scaled(m, k), team) == ScaledEvidence(Plus(e, m, team), k)
  {
    hide Mul;
    var h, a := m.homeXG.value, m.awayXG.value;
    ScaleAdds(k, e.goals, h);
    ScaleAdds(k, e.goals + h, a);
    ScaleAdds(k, e.scored, h);
    ScaleAdds(k, e.scored, a);
    ScaleAdds(k, e.scored + h, a);
    ScaleAdds(k, e.conceded, h);
    ScaleAdds(k, e.conceded, a);
    ScaleAdds(k, e.conceded + a, h);
  }

  lemma {:induction false} EvidenceScales(history: seq<Match>, k: real, league: string, cutoff: int, team: string)
    requires k > 0.0
    ensures EvidenceOf(ScaledAll(history, k), league, cutoff, team)
         == ScaledEvidence(EvidenceOf(history, league, cutoff, team), k)
  {
    if history == [] {
      ScaleAdds(k, 0.0, 0.0);
    } else {
      var n := |history| - 1;
      var m, e := history[n], EvidenceOf(history[..n], league, cutoff, team);
      EvidenceScales(history[..n], k, league, cutoff, team);
      ScaledKnown(m, k, league, cutoff);
      ScaledLast(history, k);
      if Known(m, league, cutoff) {
        ScaledStep(e, m, team, k);
      }
      hide ScaledAll;
      hide Known;
      hide Plus;
      hide ScaledEvidence;
      hide Scaled;
    }
  }

  lemma RelativeScales(e: Evidence, k: real, figure: real, x: real)
    requires k > 0.0 && e.games >= 0.0 && Relative(ScaledEvidence(e, k), Mul(k, figure), x)
    requires e.sides > 0.0 && MeanOf(e) >= 0.05 && MeanOf(ScaledEvidence(e, k)) >= 0.05
    ensures Relative(e, figure, x)
  {
    var mean, g := MeanOf(e), e.games + 5.0;
    ScaledQuotient(k, e.goals, e.sides);
    assert MeanOf(ScaledEvidence(e, k)) == k * mean;
    Cancelled(k, x, mean, g, figure);
  }

  lemma ScaledQuotient(k: real, a: real, b: real)
    requires b != 0.0
    ensures Mul(k, a) / b == k * (a / b)
  {
  }

  lemma Cancelled(k: real, x: real, mean: real, g: real, figure: real)
    requires k > 0.0 && x * (k * mean) * g == k * figure + 5.0 * (k * mean)
    ensures x * mean * g == figure + 5.0 * mean
  {
    assert k * (x * mean * g) == x * (k * mean) * g;
    assert k * (figure + 5.0 * mean) == k * figure + 5.0 * (k * mean);
    CancelEq(k, x * mean * g, figure + 5.0 * mean);
  }

  /** The relative strength met by a figure is the same. */
  lemma SameRelative(e: Evidence, figure: real, x: real, y: real)
    requires e.games >= 0.0 && Relative(e, figure, x) && Relative(e, figure, y)
    ensures x == y
  {
    var floor := if MeanOf(e) < 0.05 then 0.05 else MeanOf(e);
    Unique(x, y, floor, e.games + 5.0);
  }

  lemma Unique(x: real, y: real, floor: real, g: real)
    requires floor > 0.0 && g > 0.0 && x * floor * g == y * floor * g
    ensures x == y
  {
    CancelEq(g, x * floor, y * floor);
    CancelEq(floor, x, y);
  }

  /** Scale does not matter: with every figure of the history multiplied by k, and the mean at least 0.05 before
      and after, every strength is what it was. */
  lemma ScaleFree(history: seq<Match>, k: real, league: string, cutoff: int, team: string, figure: Figure)
    requires k > 0.0 && figure != Appearances
    requires var e := EvidenceOf(history, league, cutoff, team);
             e.sides > 0.0 && e.goals / e.sides >= 0.05 && k * (e.goals / e.sides) >= 0.05
    ensures Strength(ScaledAll(history, k), league, cutoff, team, figure)
         == Strength(history, league, cutoff, team, figure)
  {
    var e := EvidenceOf(history, league, cutoff, team);
    var f := if figure == For then e.scored else e.conceded;
    var x := StrengthIs(ScaledAll(history, k), league, cutoff, team, figure);
    var y := StrengthIs(history, league, cutoff, team, figure);
    EvidenceScales(history, k, league, cutoff, team);
    GamesNonNegative(history, league, cutoff, team);
    ScaledQuotient(k, e.goals, e.sides);
    hide Strength;
    hide EvidenceOf;
    hide Mul;
    hide Relative;
    RelativeScales(e, k, f, x);
    SameRelative(e, f, x, y);
  }

  // ---------- More evidence against ----------

  lemma Unfolded(e: Evidence, figure: real, x: real, mean: real, g: real)
    requires Relative(e, figure, x) && mean == MeanOf(e) && g == e.games + 5.0
    ensures x * (if mean < 0.05 then 0.05 else mean) * g == figure + 5.0 * mean
  {
  }

  lemma MoreRelative(e: Evidence, d: Evidence, figure: real, more: real, x: real, y: real)
    requires e.games == d.games >= 0.0 && MeanOf(e) == MeanOf(d) && figure <= more
    requires Relative(e, figure, x) && Relative(d, more, y)
    ensures x <= y
  {
    Unfolded(e, figure, x, MeanOf(e), e.games + 5.0);
    Unfolded(d, more, y, MeanOf(e), e.games + 5.0);
    hide Relative;
    hide MeanOf;
    Ordered(x, y, if MeanOf(e) < 0.05 then 0.05 else MeanOf(e), e.games + 5.0);
  }

  lemma Ordered(x: real, y: real, floor: real, g: real)
    requires floor > 0.0 && g > 0.0 && x * floor * g <= y * floor * g
    ensures x <= y
  {
    CancelLe(g, x * floor, y * floor);
    CancelLe(floor, x, y);
  }

  lemma Divided(raw: real, p: real, q: real, s: real, t: real)
    requires raw >= 0.0 && 0.0 < s <= t && raw == p * s && raw == q * t
    ensures q <= p
  {
    if p < q {
      ScaleLt(s, p, q);
      ScaleLe(q, s, t);
    }
  }

  /** Of two opponents with as many games, under one mean, the adjusted figure is lower against the one with the
      greater figure. */
  lemma MoreLowers(raw: real, p: real, q: real, e: Evidence, d: Evidence, figure: real, more: real)
    requires raw >= 0.0 && e.games == d.games >= 0.0 && MeanOf(e) == MeanOf(d) && figure <= more
    requires AdjustedBy(raw, p, e, figure) && AdjustedBy(raw, q, d, more)
    ensures q <= p
  {
    hide Relative;
    hide MeanOf;
    hide Kept;
    var x :| Relative(e, figure, x) && raw == p * Kept(x);
    var y :| Relative(d, more, y) && raw == q * Kept(y);
    MoreRelative(e, d, figure, more, x, y);
    LowerAgainst(raw, p, q, x, y);
  }

  lemma LowerAgainst(raw: real, p: real, q: real, x: real, y: real)
    requires raw >= 0.0 && x <= y && raw == p * Kept(x) && raw == q * Kept(y)
    ensures q <= p
  {
    KeptBounds(x);
    KeptBounds(y);
    KeptMonotone(x, y);
    hide Kept;
    Divided(raw, p, q, Kept(x), Kept(y));
  }

  /** The sums over a league do not depend on the team. */
  lemma {:induction false} SameLeague(history: seq<Match>, league: string, cutoff: int, team: string, other: string)
    ensures MeanOf(EvidenceOf(history, league, cutoff, team)) == MeanOf(EvidenceOf(history, league, cutoff, other))
    ensures EvidenceOf(history, league, cutoff, team).sides == EvidenceOf(history, league, cutoff, other).sides
    ensures EvidenceOf(history, league, cutoff, team).goals == EvidenceOf(history, league, cutoff, other).goals
  {
    if history != [] {
      SameLeague(history[..|history| - 1], league, cutoff, team, other);
    }
  }

  /** Of two recorded matches of one league and kickoff with the same score of expected goals, whose opponents have
      played as often: the attack counts for less against the opponent that has conceded more, and the defence for
      less against the one that has scored more. */
  lemma HarderOpponentCountsMore(history: seq<Match>, m: Match, n: Match)
    requires DistinctKeys(history, Ids()) && m in history && n in history && Valid(m) && Valid(n)
    requires League(m.competition) == League(n.competition) && m.kickoff == n.kickoff
    requires m.homeXG == n.homeXG && m.awayXG == n.awayXG
    ensures var r, league := RecordLeagues(history, Leagues(history)), League(m.competition);
            var am := EvidenceOf(history, league, m.kickoff, m.awayTeam);
            var an := EvidenceOf(history, league, m.kickoff, n.awayTeam);
            var hm := EvidenceOf(history, league, m.kickoff, m.homeTeam);
            var hn := EvidenceOf(history, league, m.kickoff, n.homeTeam);
            && m.id in r && n.id in r
            && (am.games == an.games && am.conceded <= an.conceded ==>
                  r[n.id].home.adjustedFor <= r[m.id].home.adjustedFor)
            && (am.games == an.games && am.scored <= an.scored ==>
                  r[n.id].home.adjustedAgainst <= r[m.id].home.adjustedAgainst)
            && (hm.games == hn.games && hm.conceded <= hn.conceded ==>
                  r[n.id].away.adjustedFor <= r[m.id].away.adjustedFor)
            && (hm.games == hn.games && hm.scored <= hn.scored ==>
                  r[n.id].away.adjustedAgainst <= r[m.id].away.adjustedAgainst)
  {
    RecordedMeasures(history);
    var r, league := RecordLeagues(history, Leagues(history)), League(m.competition);
    var h, a := m.homeXG.value, m.awayXG.value;
    var am := EvidenceOf(history, league, m.kickoff, m.awayTeam);
    var an := EvidenceOf(history, league, m.kickoff, n.awayTeam);
    var hm := EvidenceOf(history, league, m.kickoff, m.homeTeam);
    var hn := EvidenceOf(history, league, m.kickoff, n.homeTeam);
    SameLeague(history, league, m.kickoff, m.awayTeam, n.awayTeam);
    SameLeague(history, league, m.kickoff, m.homeTeam, n.homeTeam);
    GamesNonNegative(history, league, m.kickoff, m.awayTeam);
    GamesNonNegative(history, league, m.kickoff, m.homeTeam);
    hide RecordLeagues;
    hide EvidenceOf;
    hide AdjustedBy;
    hide MeanOf;
    var o, p := r[m.id], r[n.id];
    if am.games == an.games && am.conceded <= an.conceded {
      MoreLowers(h, o.home.adjustedFor, p.home.adjustedFor, am, an, am.conceded, an.conceded);
    }
    if am.games == an.games && am.scored <= an.scored {
      MoreLowers(a, o.home.adjustedAgainst, p.home.adjustedAgainst, am, an, am.scored, an.scored);
    }
    if hm.games == hn.games && hm.conceded <= hn.conceded {
      MoreLowers(a, o.away.adjustedFor, p.away.adjustedFor, hm, hn, hm.conceded, hn.conceded);
    }
    if hm.games == hn.games && hm.scored <= hn.scored {
      MoreLowers(h, o.away.adjustedAgainst, p.away.adjustedAgainst, hm, hn, hm.scored, hn.scored);
    }
  }

  // ---------- Names of leagues ----------

  /** The names of one league in different sources are brought together; every other name is kept. */
  lemma LeagueNames(name: string)
    ensures League(name) == "Premier League" <==> name == "EPL" || name == "Premier League"
    ensures League(name) == "La Liga" <==> name == "La_liga" || name == "La liga" || name == "La Liga"
    ensures League(name) == "Ligue 1" <==> name == "Ligue_1" || name == "Ligue 1"
    ensures League(name) == "Serie A" <==> name == "Serie_A" || name == "Serie A"
    ensures League(name) in ["Premier League", "La Liga", "Ligue 1", "Serie A"] || League(name) == name
  {
    var leagues := ["Premier League", "La Liga", "Ligue 1", "Serie A"];
    assert leagues[0] == "Premier League" && leagues[1] == "La Liga";
    assert leagues[2] == "Ligue 1" && leagues[3] == "Serie A";
    assert "Premier League"[0] == 'P' && "La Liga"[0] == 'L' && "Ligue 1"[1] == 'i' && "Serie A"[0] == 'S';
    assert "La Liga"[1] == 'a';
  }
}
