/** The Europe/Rome clock and the nightly decision boundary. All instants are milliseconds. */
module RomeClock {
  import opened Wrappers
  import opened Integers

  const HOUR := 3_600_000
  const DAY := 86_400_000

  /** Offset changes of a zone that alternates between UTC+1 and UTC+2. */
  datatype Zone = Zone(startsInSummer: bool, transitions: seq<int>) {

    /** Changes are more than three days apart, and the hour of wall time that one of them
        skips or repeats lies inside one calendar day. */
    ghost predicate Valid() {
      && (forall i, j :: 0 <= i < j < |transitions| ==> transitions[j] - transitions[i] > 3 * DAY)
      && forall i :: 0 <= i < |transitions| ==>
           (transitions[i] + HOUR) / DAY == (transitions[i] + 2 * HOUR - 1) / DAY
    }

    function Offset(t: int): (o: int)
      ensures o == HOUR || o == 2 * HOUR
    {
      if (Passed(transitions, t) % 2 == 0) == startsInSummer then 2 * HOUR else HOUR
    }

    /** Wall-clock milliseconds at an instant. */
    function Local(t: int): int {
      t + Offset(t)
    }

    function DayOf(t: int): int {
      Local(t) / DAY
    }

    /** No instant shows this wall time. */
    ghost predicate Skipped(wall: int) {
      forall t :: Local(t) != wall
    }
  }

  /** How many changes have happened by t. */
  function Passed(transitions: seq<int>, t: int): (n: nat)
    ensures n <= |transitions|
  {
    if transitions == [] then 0
    else
      var n := |transitions| - 1;
      if transitions[n] <= t then n + 1 else Passed(transitions[..n], t)
  }

  lemma {:induction false} PassedSplits(transitions: seq<int>, t: int)
    requires forall i, j :: 0 <= i < j < |transitions| ==> transitions[i] < transitions[j]
    ensures forall i :: 0 <= i < Passed(transitions, t) ==> transitions[i] <= t
    ensures forall i :: Passed(transitions, t) <= i < |transitions| ==> transitions[i] > t
  {
    if transitions != [] {
      PassedSplits(transitions[..|transitions| - 1], t);
    }
  }

  lemma {:induction false} PassedMonotone(transitions: seq<int>, t: int, u: int)
    requires t <= u
    ensures Passed(transitions, t) <= Passed(transitions, u)
  {
    if transitions != [] {
      PassedMonotone(transitions[..|transitions| - 1], t, u);
    }
  }

  /** Between two instants with different offsets there is a change. */
  lemma ChangeBetween(z: Zone, t: int, u: int) returns (i: nat)
    requires z.Valid() && t < u && z.Offset(t) != z.Offset(u)
    ensures i < |z.transitions| && t < z.transitions[i] <= u
  {
    PassedSplits(z.transitions, t);
    PassedSplits(z.transitions, u);
    PassedMonotone(z.transitions, t, u);
    i := Passed(z.transitions, t);
  }

  lemma DivisionMonotone(a: int, b: int)
    requires a <= b
    ensures a / DAY <= b / DAY
  {
  }

  /** The wall clock may go back, the calendar day never does. */
  lemma DayMonotone(z: Zone, t: int, u: int)
    requires z.Valid() && t <= u
    ensures z.DayOf(t) <= z.DayOf(u)
  {
    if z.Local(t) <= z.Local(u) {
      DivisionMonotone(z.Local(t), z.Local(u));
    } else {
      var i := ChangeBetween(z, t, u);
      var change := z.transitions[i];
      DivisionMonotone(z.Local(t), change + 2 * HOUR - 1);
      DivisionMonotone(change + HOUR, z.Local(u));
    }
  }

  /** A wall time is shown by at most the two instants one and two hours before it. */
  lemma Preimages(z: Zone, wall: int)
    ensures forall t :: z.Local(t) == wall ==> t == wall - HOUR || t == wall - 2 * HOUR
    ensures z.Skipped(wall) <==> z.Local(wall - HOUR) != wall && z.Local(wall - 2 * HOUR) != wall
  {
  }

  lemma SkippedChange(z: Zone, wall: int) returns (i: nat)
    requires z.Valid() && z.Skipped(wall)
    ensures i < |z.transitions| && wall - 2 * HOUR < z.transitions[i] <= wall - HOUR
  {
    assert z.Local(wall - HOUR) != wall && z.Local(wall - 2 * HOUR) != wall;
    i := ChangeBetween(z, wall - 2 * HOUR, wall - HOUR);
  }

  /** The same time of day is never skipped on two consecutive days. */
  lemma NoConsecutiveSkips(z: Zone, wall: int)
    requires z.Valid() && z.Skipped(wall)
    ensures !z.Skipped(wall + DAY)
  {
    if z.Skipped(wall + DAY) {
      var i := SkippedChange(z, wall);
      var j := SkippedChange(z, wall + DAY);
      assert false;
    }
  }

  // ---------- Boundaries ----------

  function TimeOfDay(hour: nat, minute: nat): int {
    (hour * 60 + minute) * 60_000
  }

  predicate ValidSchedule(hour: nat, minute: nat) {
    hour <= 23 && minute <= 59
  }

  /** Real instants whose wall clock shows exactly the scheduled time of day. */
  ghost predicate Boundary(z: Zone, timeOfDay: int, t: int) {
    z.Local(t) % DAY == timeOfDay
  }

  ghost predicate LatestBefore(z: Zone, timeOfDay: int, end: int, t: int) {
    && Boundary(z, timeOfDay, t) && t < end
    && forall u :: Boundary(z, timeOfDay, u) && u < end ==> u <= t
  }

  lemma BoundaryWall(z: Zone, timeOfDay: int, t: int)
    requires 0 <= timeOfDay < DAY
    ensures Boundary(z, timeOfDay, t) <==> z.Local(t) == z.DayOf(t) * DAY + timeOfDay
  {
  }

  lemma WallOfDay(day: int, timeOfDay: int)
    requires 0 <= timeOfDay < DAY
    ensures (day * DAY + timeOfDay) / DAY == day && (day * DAY + timeOfDay) % DAY == timeOfDay
  {
  }

  /** Resolving a wall time with a fold: the first or the last of its instants; for a skipped time,
      an instant that does not show it. */
  function Resolve(z: Zone, wall: int, fold: nat): int {
    if fold == 0 then (if z.Local(wall - 2 * HOUR) == wall then wall - 2 * HOUR else wall - HOUR)
    else if z.Local(wall - HOUR) == wall then wall - HOUR
    else wall - 2 * HOUR
  }

  lemma FoldsCoverWall(z: Zone, wall: int, t: int)
    requires z.Local(t) == wall
    ensures t == Resolve(z, wall, 0) || t == Resolve(z, wall, 1)
  {
  }

  ghost predicate CandidateOf(z: Zone, kickoff: int, timeOfDay: int, back: nat, fold: nat, t: int) {
    var wall := (z.DayOf(kickoff) - back) * DAY + timeOfDay;
    t == Resolve(z, wall, fold) && z.Local(t) == wall && t < kickoff
  }

  /** What the three-day search has collected, up to a day and a fold. */
  ghost predicate Collected(z: Zone, kickoff: int, timeOfDay: int, days: nat, folds: nat, t: int) {
    exists back: nat, fold: nat ::
      CandidateOf(z, kickoff, timeOfDay, back, fold, t) && fold < 2 && (back < days || (back == days && fold < folds))
  }

  /** Every boundary of the last three calendar days is collected. */
  lemma CollectsRecent(z: Zone, kickoff: int, timeOfDay: int, t: int)
    requires z.Valid() && 0 <= timeOfDay < DAY
    requires Boundary(z, timeOfDay, t) && t < kickoff && z.DayOf(t) > z.DayOf(kickoff) - 3
    ensures Collected(z, kickoff, timeOfDay, 3, 0, t)
  {
    DayMonotone(z, t, kickoff);
    BoundaryWall(z, timeOfDay, t);
    var back := z.DayOf(kickoff) - z.DayOf(t);
    var wall := z.DayOf(t) * DAY + timeOfDay;
    FoldsCoverWall(z, wall, t);
    var fold := if t == Resolve(z, wall, 0) then 0 else 1;
    assert z.DayOf(kickoff) - back == z.DayOf(t);
    assert CandidateOf(z, kickoff, timeOfDay, back, fold, t);
  }

  /** On one of the two days before the kickoff day the boundary exists. */
  lemma RecentBoundary(z: Zone, kickoff: int, timeOfDay: int) returns (t: int)
    requires z.Valid() && 0 <= timeOfDay < DAY
    ensures Boundary(z, timeOfDay, t) && t < kickoff && z.DayOf(t) > z.DayOf(kickoff) - 3
  {
    var day := z.DayOf(kickoff) - 2;
    var wall := day * DAY + timeOfDay;
    if z.Skipped(wall) {
      NoConsecutiveSkips(z, wall);
      day, wall := day + 1, wall + DAY;
    }
    assert wall == day * DAY + timeOfDay;
    t :| z.Local(t) == wall;
    WallOfDay(day, timeOfDay);
    if kickoff <= t {
      DayMonotone(z, kickoff, t);
      assert false;
    }
  }

  /** The trainer's search: three dates, both folds, round trip, latest candidate. */
  method ResolveForecastAt(z: Zone, kickoff: int, hour: nat, minute: nat) returns (r: Option<int>)
    requires z.Valid() && ValidSchedule(hour, minute)
    ensures r.Some? && LatestBefore(z, TimeOfDay(hour, minute), kickoff, r.value)
  {
    var localDay := z.DayOf(kickoff);
    var timeOfDay := TimeOfDay(hour, minute);
    var candidates: seq<int> := [];
    for daysBack := 0 to 3
      invariant forall t :: t in candidates <==> Collected(z, kickoff, timeOfDay, daysBack, 0, t)
    {
      var wall := (localDay - daysBack) * DAY + timeOfDay;
      for fold := 0 to 2
        invariant forall t :: t in candidates <==> Collected(z, kickoff, timeOfDay, daysBack, fold, t)
      {
        var utc := Resolve(z, wall, fold);
        ghost var before := candidates;
        if z.Local(utc) == wall && utc < kickoff {
          candidates := candidates + [utc];
        }
        CollectStep(z, kickoff, timeOfDay, daysBack, fold, before, candidates);
      }
      CollectDay(z, kickoff, timeOfDay, daysBack, candidates);
    }
    ghost var recent := RecentBoundary(z, kickoff, timeOfDay);
    CollectsRecent(z, kickoff, timeOfDay, recent);
    assert recent in candidates;
    if candidates == [] {
      return None;
    }
    r := Some(MaxOf(candidates));
    LatestOfCollected(z, kickoff, timeOfDay, recent, r.value);
  }

  lemma CollectStep(z: Zone, kickoff: int, timeOfDay: int, days: nat, fold: nat, before: seq<int>, after: seq<int>)
    requires fold < 2
    requires forall t :: t in before <==> Collected(z, kickoff, timeOfDay, days, fold, t)
    requires var wall := (z.DayOf(kickoff) - days) * DAY + timeOfDay; var utc := Resolve(z, wall, fold);
             after == if z.Local(utc) == wall && utc < kickoff then before + [utc] else before
    ensures forall t :: t in after <==> Collected(z, kickoff, timeOfDay, days, fold + 1, t)
  {
    forall t ensures t in after <==> Collected(z, kickoff, timeOfDay, days, fold + 1, t) {
      assert t in after <==> t in before || CandidateOf(z, kickoff, timeOfDay, days, fold, t);
    }
  }

  lemma CollectDay(z: Zone, kickoff: int, timeOfDay: int, days: nat, candidates: seq<int>)
    requires forall t :: t in candidates <==> Collected(z, kickoff, timeOfDay, days, 2, t)
    ensures forall t :: t in candidates <==> Collected(z, kickoff, timeOfDay, days + 1, 0, t)
  {
    forall t
      ensures Collected(z, kickoff, timeOfDay, days, 2, t) <==> Collected(z, kickoff, timeOfDay, days + 1, 0, t)
    {
      if Collected(z, kickoff, timeOfDay, days, 2, t) {
        var back: nat, fold: nat :| CandidateOf(z, kickoff, timeOfDay, back, fold, t) && fold < 2 && back <= days;
        assert back < days + 1;
      }
      if Collected(z, kickoff, timeOfDay, days + 1, 0, t) {
        var back: nat, fold: nat :| CandidateOf(z, kickoff, timeOfDay, back, fold, t) && fold < 2 && back < days + 1;
        assert back < days || back == days;
      }
    }
  }

  lemma LatestOfCollected(z: Zone, kickoff: int, timeOfDay: int, recent: int, max: int)
    requires z.Valid() && 0 <= timeOfDay < DAY
    requires Boundary(z, timeOfDay, recent) && recent < kickoff && z.DayOf(recent) > z.DayOf(kickoff) - 3
    requires Collected(z, kickoff, timeOfDay, 3, 0, max)
    requires forall t :: Collected(z, kickoff, timeOfDay, 3, 0, t) ==> t <= max
    ensures LatestBefore(z, timeOfDay, kickoff, max)
  {
    var back: nat, fold: nat :| CandidateOf(z, kickoff, timeOfDay, back, fold, max);
    WallOfDay(z.DayOf(kickoff) - back, timeOfDay);
    CollectsRecent(z, kickoff, timeOfDay, recent);
    forall u | Boundary(z, timeOfDay, u) && u < kickoff ensures u <= max {
      if z.DayOf(u) > z.DayOf(kickoff) - 3 {
        CollectsRecent(z, kickoff, timeOfDay, u);
      } else if recent <= u {
        DayMonotone(z, recent, u);
      }
    }
  }

  // ---------- The schedule of the workflow guard ----------

  /** The guard's resolution of a wall time: UTC+1 is tried first. None: nightly_schedule_unavailable. */
  function RomeTime(z: Zone, day: int, timeOfDay: int): Option<int> {
    var wall := day * DAY + timeOfDay;
    if z.Local(wall - HOUR) == wall then Some(wall - HOUR)
    else if z.Local(wall - 2 * HOUR) == wall then Some(wall - 2 * HOUR)
    else None
  }

  /** It fails exactly on skipped times, and picks the later instant of a repeated one. */
  lemma RomeTimeIsLast(z: Zone, day: int, timeOfDay: int)
    ensures RomeTime(z, day, timeOfDay) == None <==> z.Skipped(day * DAY + timeOfDay)
    ensures RomeTime(z, day, timeOfDay).Some? ==>
              var r := RomeTime(z, day, timeOfDay).value;
              && z.Local(r) == day * DAY + timeOfDay
              && r == Resolve(z, day * DAY + timeOfDay, 1)
              && forall t :: z.Local(t) == day * DAY + timeOfDay ==> t <= r
  {
    Preimages(z, day * DAY + timeOfDay);
  }

  /** The last instant at which the clock shows this wall time. */
  ghost predicate LastShows(z: Zone, wall: int, t: int) {
    z.Local(t) == wall && forall u :: z.Local(u) == wall ==> u <= t
  }

  /** The clock shows this wall time at some instant after t. */
  ghost predicate Awaited(z: Zone, wall: int, t: int) {
    exists u :: z.Local(u) == wall && t < u
  }

  lemma LastAwaited(z: Zone, wall: int, last: int, t: int)
    requires LastShows(z, wall, last)
    ensures Awaited(z, wall, t) <==> t < last
  {
  }

  lemma RomeTimeShows(z: Zone, day: int, timeOfDay: int, t: int)
    ensures RomeTime(z, day, timeOfDay) == Some(t) <==> LastShows(z, day * 86_400_000 + timeOfDay, t)
  {
    RomeTimeIsLast(z, day, timeOfDay);
    hide Zone.Offset;
  }

  const PRIMARY := TimeOfDay(3, 7)

  datatype Schedule = Schedule(expectedAt: int, day: int)

  function PrimarySchedule(z: Zone, now: int): Option<Schedule> {
    var today := RomeTime(z, z.DayOf(now), PRIMARY);
    if today == None then None
    else
      var day := if now >= today.value then z.DayOf(now) else z.DayOf(now) - 1;
      var expected := RomeTime(z, day, PRIMARY);
      if expected == None then None else Some(Schedule(expected.value, day))
  }

  /** Today's 03:07 has struck once and will strike again. */
  predicate BetweenRepeats(z: Zone, now: int) {
    var wall := z.DayOf(now) * DAY + PRIMARY;
    z.Local(wall - 2 * HOUR) == wall && z.Local(wall - HOUR) == wall && wall - 2 * HOUR <= now < wall - HOUR
  }

  /** The guard's boundary is the latest one at or before now, except between two occurrences of today's. */
  lemma PrimaryIsLatestIff(z: Zone, now: int)
    requires z.Valid() && PrimarySchedule(z, now).Some?
    ensures LatestBefore(z, PRIMARY, now + 1, PrimarySchedule(z, now).value.expectedAt) <==> !BetweenRepeats(z, now)
  {
    hide Zone.Offset;
    hide Zone.Valid;
    hide Zone.Skipped;
    var s := PrimarySchedule(z, now).value;
    var today := RomeTime(z, z.DayOf(now), PRIMARY).value;
    RomeTimeIsLast(z, z.DayOf(now), PRIMARY);
    RomeTimeIsLast(z, s.day, PRIMARY);
    WallOfDay(s.day, PRIMARY);
    WallOfDay(z.DayOf(now), PRIMARY);
    assert z.DayOf(s.expectedAt) == s.day && z.DayOf(today) == z.DayOf(now);
    if now < s.expectedAt {
      DayMonotone(z, now, s.expectedAt);
    }
    var wall := z.DayOf(now) * DAY + PRIMARY;
    if BetweenRepeats(z, now) {
      assert Boundary(z, PRIMARY, wall - 2 * HOUR);
      if wall - 2 * HOUR <= s.expectedAt {
        DayMonotone(z, wall - 2 * HOUR, s.expectedAt);
      }
    } else {
      forall u | Boundary(z, PRIMARY, u) && u < now + 1 ensures u <= s.expectedAt {
        DayMonotone(z, u, now);
        BoundaryWall(z, PRIMARY, u);
        if s.expectedAt < u {
          DayMonotone(z, s.expectedAt, u);
          Preimages(z, wall);
        }
      }
    }
  }

  /** Trainer and guard name the same boundary for a kickoff, away from a repeated 03:07. */
  lemma TrainerAgreesWithGuard(z: Zone, kickoff: int, resolved: int)
    requires z.Valid() && LatestBefore(z, PRIMARY, kickoff, resolved)
    requires PrimarySchedule(z, kickoff - 1).Some? && !BetweenRepeats(z, kickoff - 1)
    ensures PrimarySchedule(z, kickoff - 1).value.expectedAt == resolved
  {
    PrimaryIsLatestIff(z, kickoff - 1);
  }

  /** The European rule: every change happens at 01:00 UTC. */
  ghost predicate EuropeanRule(z: Zone) {
    z.Valid() && forall i :: 0 <= i < |z.transitions| ==> z.transitions[i] % DAY == HOUR
  }

  lemma NoChangeAtPrimary(z: Zone, day: int)
    requires EuropeanRule(z)
    ensures var wall := day * DAY + PRIMARY; z.Offset(wall - 2 * HOUR) == z.Offset(wall - HOUR)
  {
    var wall := day * DAY + PRIMARY;
    if z.Offset(wall - 2 * HOUR) != z.Offset(wall - HOUR) {
      var i := ChangeBetween(z, wall - 2 * HOUR, wall - HOUR);
      NotAtOne(day, z.transitions[i]);
      assert false;
    }
  }

  lemma NotAtOne(day: int, t: int)
    requires day * DAY + PRIMARY - 2 * HOUR < t <= day * DAY + PRIMARY - HOUR
    ensures t % DAY != HOUR
  {
    var r := t - day * DAY;
    assert HOUR < r < DAY;
    assert t == day * DAY + r;
    WallOfDay(day, r);
  }

  /** Under that rule 03:07 strikes once every day: the guard never fails on it, its boundary is always the
      latest one, and it is the trainer's boundary for a kickoff one millisecond later. */
  lemma PrimaryUnderEuropeanRule(z: Zone, now: int)
    requires EuropeanRule(z)
    ensures PrimarySchedule(z, now).Some?
    ensures LatestBefore(z, PRIMARY, now + 1, PrimarySchedule(z, now).value.expectedAt)
  {
    NoChangeAtPrimary(z, z.DayOf(now));
    NoChangeAtPrimary(z, z.DayOf(now) - 1);
    PrimaryIsLatestIff(z, now);
  }

  // ---------- The start of a day ----------

  /** The wall clock shows midnight of that day twice. */
  ghost predicate MidnightRepeats(z: Zone, day: int) {
    z.Local(day * DAY - 2 * HOUR) == day * DAY && z.Local(day * DAY - HOUR) == day * DAY
  }

  ghost predicate MidnightOnce(z: Zone) {
    z.Valid() && forall day :: !MidnightRepeats(z, day)
  }

  lemma DayStartCovers(z: Zone, day: int, start: int, t: int)
    requires z.Valid() && !MidnightRepeats(z, day) && RomeTime(z, day, 0) == Some(start) && z.DayOf(t) == day
    ensures start <= t
  {
    if t < start {
      assert day * DAY <= z.Local(t);
      var i := ChangeBetween(z, t, start);
      var j := ChangeBetween(z, day * DAY - 2 * HOUR, t);
      assert false;
    }
  }

  /** What the guard takes for the start of a day is not after any instant of the day, unless midnight repeats:
      the guard then starts at the second one. */
  lemma DayStartCoversIff(z: Zone, day: int, start: int)
    requires z.Valid() && RomeTime(z, day, 0) == Some(start)
    ensures (forall t :: z.DayOf(t) == day ==> start <= t) <==> !MidnightRepeats(z, day)
  {
    if MidnightRepeats(z, day) {
      assert z.DayOf(day * DAY - 2 * HOUR) == day;
    } else {
      forall t | z.DayOf(t) == day ensures start <= t {
        DayStartCovers(z, day, start, t);
      }
    }
  }

  /** Under the European rule no midnight repeats. */
  lemma EuropeanMidnight(z: Zone)
    requires EuropeanRule(z)
    ensures MidnightOnce(z)
  {
    forall day ensures !MidnightRepeats(z, day) {
      if MidnightRepeats(z, day) {
        var i := ChangeBetween(z, day * DAY - 2 * HOUR, day * DAY - HOUR);
        var r := z.transitions[i] - (day - 1) * DAY;
        WallOfDay(day - 1, r);
        assert false;
      }
    }
  }
}
