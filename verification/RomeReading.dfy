/** The Rome clock and its two schedules in hours, minutes and dates. */
module RomeReading {
  import opened Wrappers
  import opened RomeClock

  /** The first i changes have happened, the others have not. */
  ghost predicate Since(z: Zone, t: int, i: nat) {
    && i <= |z.transitions| && (forall j :: 0 <= j < i ==> z.transitions[j] <= t)
    && forall j :: i <= j < |z.transitions| ==> z.transitions[j] > t
  }

  /** Two hours ahead of UTC in summer, one in winter, and every change turns one into the other. */
  lemma OffsetReads(z: Zone, t: int, i: nat)
    requires z.Valid() && Since(z, t, i)
    ensures z.Offset(t) == if (if i % 2 == 0 then z.startsInSummer else !z.startsInSummer) then 7_200_000 else 3_600_000
    ensures z.Local(t) == t + z.Offset(t) && z.DayOf(t) * 86_400_000 <= z.Local(t) < (z.DayOf(t) + 1) * 86_400_000
  {
    PassedSplits(z.transitions, t);
    var n := Passed(z.transitions, t);
    var after := if n < |z.transitions| then z.transitions[n] else t;
    var since := if i < |z.transitions| then z.transitions[i] else t;
    hide Passed;
  }

  /** Every instant is since some number of changes. */
  lemma SinceExists(z: Zone, t: int)
    requires z.Valid()
    ensures exists i: nat :: Since(z, t, i)
  {
    PassedSplits(z.transitions, t);
    assert Since(z, t, Passed(z.transitions, t));
    hide Passed;
  }

  /** The trainer's boundary: an instant before kickoff that shows the hour and minute, and the last of these. */
  lemma BoundaryReads(z: Zone, kickoff: int, hour: nat, minute: nat, t: int)
    requires hour < 24 && minute < 60
    ensures ValidSchedule(hour, minute)
    ensures LatestBefore(z, TimeOfDay(hour, minute), kickoff, t) <==>
              && z.Local(t) % 86_400_000 == 3_600_000 * hour + 60_000 * minute && t < kickoff
              && forall u :: z.Local(u) % 86_400_000 == 3_600_000 * hour + 60_000 * minute && u < kickoff ==> u <= t
  {
    forall u
      ensures Boundary(z, TimeOfDay(hour, minute), u)
         <==> z.Local(u) % 86_400_000 == 3_600_000 * hour + 60_000 * minute
    {
    }
    hide Zone.Local;
    hide Boundary;
  }

  /** The day whose 03:07 was the last one at now: today's, or the one of yesterday before it has struck for good. */
  lemma PrimaryReads(z: Zone, now: int, s: Schedule)
    ensures PrimarySchedule(z, now) == Some(s) <==>
              && !z.Skipped(z.DayOf(now) * 86_400_000 + 11_220_000)
              && LastShows(z, s.day * 86_400_000 + 11_220_000, s.expectedAt)
              && s.day == if Awaited(z, z.DayOf(now) * 86_400_000 + 11_220_000, now) then z.DayOf(now) - 1
                          else z.DayOf(now)
  {
    var today := RomeTime(z, z.DayOf(now), PRIMARY);
    RomeTimeIsLast(z, z.DayOf(now), PRIMARY);
    RomeTimeShows(z, s.day, PRIMARY, s.expectedAt);
    if today.Some? {
      RomeTimeShows(z, z.DayOf(now), PRIMARY, today.value);
      LastAwaited(z, z.DayOf(now) * 86_400_000 + 11_220_000, today.value, now);
    }
    hide RomeTime;
    hide Zone.Local;
    hide Zone.DayOf;
    hide Zone.Skipped;
    hide Resolve;
    hide LastShows;
    hide Awaited;
  }

  /** What the laws assume of a clock: changes more than three days apart, each skipping or repeating an hour of one
      calendar day; under the European rule each at 01:00 UTC; with no day whose midnight strikes twice. */
  lemma ClockReads(z: Zone)
    ensures z.Valid() <==>
              && (forall i, j :: 0 <= i < j < |z.transitions| ==> z.transitions[j] > z.transitions[i] + 259_200_000)
              && forall i :: 0 <= i < |z.transitions| ==>
                   (z.transitions[i] + 3_600_000) / 86_400_000 == (z.transitions[i] + 7_199_999) / 86_400_000
    ensures EuropeanRule(z) <==>
              z.Valid() && forall i :: 0 <= i < |z.transitions| ==> z.transitions[i] % 86_400_000 == 3_600_000
    ensures MidnightOnce(z) <==>
              z.Valid() && forall t, u :: z.Local(t) == z.Local(u) && z.Local(t) % 86_400_000 == 0 ==> t == u
  {
    if MidnightOnce(z) {
      forall t, u | z.Local(t) == z.Local(u) && z.Local(t) % 86_400_000 == 0 ensures t == u {
        var day := z.Local(t) / 86_400_000;
        assert !MidnightRepeats(z, day);
      }
    }
    if z.Valid() && forall t, u :: z.Local(t) == z.Local(u) && z.Local(t) % 86_400_000 == 0 ==> t == u {
      forall day ensures !MidnightRepeats(z, day) {
        var t, u := day * DAY - 2 * HOUR, day * DAY - HOUR;
        assert t != u && (day * DAY) % 86_400_000 == 0;
      }
    }
  }
}
