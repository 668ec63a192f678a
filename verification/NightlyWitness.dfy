/** Histories of the protocol: an ordinary attempt succeeds, a failed one is followed by an admitted backup,
    and where midnight repeats two ordinary attempts of one day succeed. */
module NightlyWitness {
  import opened Wrappers
  import opened Sequences
  import opened RomeClock
  import opened NightlyGuard
  import opened NightlyProtocol
  import opened NightlySafety
  import opened NightlyRuns

  // ---------- A run that no other run stops ----------

  /** The clock is past 03:07 of the day on which the run was created. */
  ghost predicate InWindow(z: Zone, w: World, id: nat, c: Context) {
    && id in w.flows && w.flows[id].attempts == [FIRST]
    && w.flows[id] == Launched(w.flows[id].event, w.flows[id].cron, w.flows[id].created)
    && Supportable(w.flows[id])
    && c == Context(w.clock, id, z.DayOf(w.clock), c.primaryAt, c.dayStart, false, false)
    && w.flows[id].created <= w.clock && z.DayOf(w.flows[id].created) == c.day
    && RomeTime(z, c.day, PRIMARY) == Some(c.primaryAt) && c.primaryAt <= w.clock
    && RomeTime(z, c.day, 0) == Some(c.dayStart)
  }

  lemma GateOpens(z: Zone, w: World, id: nat, c: Context)
    requires InWindow(z, w, id, c)
    ensures CheckGate(z, RequestOf(w, id), Snapshot(id, w.flows[id])) == Open(c)
  {
    hide RomeTime;
    hide Zone.DayOf;
  }

  lemma NothingRan(z: Zone, c: Context, run: Run, job: Job)
    requires run.id == c.runId && run.identityValid && run.status == InProgress && job.steps == Some([])
    ensures Examine(z, c, run, [job]) == Continue(false)
  {
    assert !JobSucceeded(z, job, c) && !BadSync(z, job, c) && !BadMarker(z, job, c);
    assert forall j :: j in [job] ==> j == job;
  }

  lemma OwnContinues(z: Zone, w: World, id: nat, c: Context)
    requires InWindow(z, w, id, c)
    ensures Examine(z, c, Snapshot(id, w.flows[id]), JobsOf(w.flows[id])).Continue?
  {
    assert Listed(None) + Listed(None) == [];
    assert JobsOf(w.flows[id]) == [JobOf(FIRST)];
    NothingRan(z, c, Snapshot(id, w.flows[id]), JobOf(FIRST));
  }

  lemma OwnListed(z: Zone, w: World, id: nat, c: Context)
    requires InWindow(z, w, id, c)
    ensures var run := Snapshot(id, w.flows[id]); !UncertainTime(run, c.now) && !ClockFails(z, run, c.now)
  {
    hide RomeTime;
    hide Zone.DayOf;
  }

  /** The listing shows at most the run itself. */
  lemma AloneListed(z: Zone, c: Context, run: Run, runs: seq<Run>)
    requires run.id == c.runId && !UncertainTime(run, c.now) && !ClockFails(z, run, c.now)
    requires runs == [run] || runs == []
    ensures Listing(z, c, run, runs) == Ok([run])
  {
    hide UncertainTime;
    hide ClockFails;
    FilterOne(run, IsCandidate(z, c));
    FilterOne(run, IsOther(c));
    var others := Filter(Filter(runs, IsCandidate(z, c)), IsOther(c));
    assert others == [];
    assert |runs| <= 1 && [run] + others == [run];
  }

  /** With no other run created since the start of the day the guard goes through. */
  lemma AloneUnopposed(z: Zone, w: World, id: nat, c: Context) returns (runs: seq<Run>)
    requires InWindow(z, w, id, c)
    requires forall s :: s in w.flows && s != id ==> w.flows[s].created < c.dayStart
    ensures Unopposed(z, w, id, c, runs, [Snapshot(id, w.flows[id])])
  {
    var run := Snapshot(id, w.flows[id]);
    runs := if w.flows[id].created >= c.dayStart then [run] else [];
    GateOpens(z, w, id, c);
    OwnListed(z, w, id, c);
    AloneListed(z, c, run, runs);
    OwnContinues(z, w, id, c);
    hide Listing;
    hide CheckGate;
    hide Examine;
    hide JobsOf;
    hide RomeTime;
  }

  /** It is admitted and completes. */
  lemma AloneSucceeds(z: Zone, w: World, id: nat, c: Context) returns (moves: seq<Move>, v: World)
    requires InWindow(z, w, id, c)
    requires forall s :: s in w.flows && s != id ==> w.flows[s].created < c.dayStart
    ensures Reaches(z, w, moves, v)
    ensures v == WithCurrent(w, id, Marked(AdmittedAttempt(w, id, c), w.clock))
  {
    var runs := AloneUnopposed(z, w, id, c);
    assert IsRunning(w, id) && Current(w.flows[id]) == FIRST;
    moves, v := UnopposedSucceeds(z, w, id, c, runs, [Snapshot(id, w.flows[id])]);
  }

  lemma UnopposedSucceeds(z: Zone, w: World, id: nat, c: Context, runs: seq<Run>, list: seq<Run>)
    returns (moves: seq<Move>, v: World)
    requires Unopposed(z, w, id, c, runs, list) && Current(w.flows[id]) == FIRST
    ensures Reaches(z, w, moves, v)
    ensures v == WithCurrent(w, id, Marked(AdmittedAttempt(w, id, c), w.clock))
  {
    var admitted := AdmittedAttempt(w, id, c);
    moves := Admission(z, w, id, c, runs, list);
    CurrentFacts(w, id, admitted);
    var u := WithCurrent(w, id, admitted);
    hide WithCurrent;
    var work := Completion(z, u, id);
    v := WithCurrent(w, id, Marked(admitted, w.clock));
    ReachesAppend(z, w, moves, u, work, v);
    moves := moves + work;
  }

  // ---------- A lone success ----------

  /** Four o'clock in Rome, in winter, on the first day. */
  const AT: int := 3 * HOUR

  function Winter(): Zone {
    Zone(false, [])
  }

  lemma WinterRule()
    ensures EuropeanRule(Winter())
  {
  }

  function WinterContext(id: nat): Context {
    Context(AT, id, 0, PRIMARY - HOUR, -HOUR, false, false)
  }

  lemma WinterWindow(w: World, id: nat, event: Event, cron: Cron)
    requires w.clock == AT && id in w.flows && w.flows[id] == Launched(event, cron, AT)
    requires event == DispatchEvent || (event == ScheduleEvent && cron.NightlyCron?)
    ensures InWindow(Winter(), w, id, WinterContext(id))
  {
  }

  /** At 04:00 a lone manual run goes through and succeeds. */
  lemma SuccessIsReachable() returns (z: Zone, w0: World, moves: seq<Move>, w: World)
    ensures EuropeanRule(z) && Init(w0) && Reaches(z, w0, moves, w)
    ensures Exists(w, 1, 0) && Regular(z, w.flows[1], At(w, 1, 0)) && At(w, 1, 0).Succeeded()
  {
    z, w0 := Winter(), World(AT, map[]);
    WinterRule();
    moves := Launch(z, w0, 1, DispatchEvent, UnknownCron);
    var w1 := w0.(flows := w0.flows[1 := Launched(DispatchEvent, UnknownCron, AT)]);
    WinterWindow(w1, 1, DispatchEvent, UnknownCron);
    var more: seq<Move>;
    more, w := AloneSucceeds(z, w1, 1, WinterContext(1));
    ReachesAppend(z, w0, moves, w1, more, w);
    moves := moves + more;
  }

  // ---------- A failure, then its backup ----------

  lemma NoSuccessContinues(z: Zone, c: Context, run: Run, job: Job, sync: Step)
    requires run.id != c.runId && run.identityValid && run.status == Completed && !run.succeeded
    requires job.status == Completed && job.steps == Some([sync]) && sync.name == SyncStep && !sync.succeeded
    ensures Examine(z, c, run, [job]) == Continue(false)
  {
    assert forall s :: s in StepsOf(job) ==> s == sync;
    assert !JobSucceeded(z, job, c) && !BadSync(z, job, c) && !BadMarker(z, job, c);
    assert forall j :: j in [job] ==> j == job;
  }

  /** The failed attempt of the 03:07 run. */
  function Failed(): Attempt {
    Synced(FIRST.(phase := Admitted(WinterContext(1), map[1 := 1]), begun := Some(AT)), AT, false).(running := false)
  }

  function FailedRun(): Flow {
    Launched(ScheduleEvent, NightlyCron(0), AT).(status := Completed, attempts := [Failed()])
  }

  lemma PrimaryFails() returns (moves: seq<Move>)
    ensures Reaches(Winter(), World(AT, map[]), moves, World(AT, map[1 := FailedRun()]))
  {
    var z, w0 := Winter(), World(AT, map[]);
    moves := Launch(z, w0, 1, ScheduleEvent, NightlyCron(0));
    var w1 := World(AT, map[1 := Launched(ScheduleEvent, NightlyCron(0), AT)]);
    assert w0.flows[1 := Launched(ScheduleEvent, NightlyCron(0), AT)] == w1.flows;
    WinterWindow(w1, 1, ScheduleEvent, NightlyCron(0));
    var runs := AloneUnopposed(z, w1, 1, WinterContext(1));
    var more := Admission(z, w1, 1, WinterContext(1), runs, [Snapshot(1, w1.flows[1])]);
    assert AttemptCounts(w1) == map[1 := 1];
    var admitted := FIRST.(phase := Admitted(WinterContext(1), map[1 := 1]), begun := Some(AT));
    var w2 := WithCurrent(w1, 1, admitted);
    CurrentFacts(w1, 1, admitted);
    ReachesAppend(z, w0, moves, w1, more, w2);
    moves := moves + more;
    more := Breakdown(z, w2, 1);
    var w3 := World(AT, map[1 := FailedRun()]);
    BrokenDown(w1, admitted);
    ReachesAppend(z, w0, moves, w2, more, w3);
    moves := moves + more;
  }

  lemma BrokenDown(w1: World, admitted: Attempt)
    requires w1 == World(AT, map[1 := Launched(ScheduleEvent, NightlyCron(0), AT)])
    requires admitted == FIRST.(phase := Admitted(WinterContext(1), map[1 := 1]), begun := Some(AT))
    ensures var w2 := WithCurrent(w1, 1, admitted);
            && IsRunning(w2, 1) && Current(w2.flows[1]) == admitted
            && IsRunning(WithCurrent(w2, 1, Synced(admitted, AT, false)), 1)
            && Ended(WithCurrent(w2, 1, Synced(admitted, AT, false)), 1, false) == World(AT, map[1 := FailedRun()])
  {
    var w2 := WithCurrent(w1, 1, admitted);
    var synced := Synced(admitted, AT, false);
    CurrentFacts(w1, 1, admitted);
    assert w2.flows[1].attempts == [admitted];
    var w3 := WithCurrent(w2, 1, synced);
    assert w3.flows[1].attempts == [synced];
    var u := Ended(w3, 1, false);
    assert u.flows[1].attempts == [Failed()];
    assert u.flows == map[1 := FailedRun()];
  }

  lemma BackupUnopposed() returns (w: World, runs: seq<Run>, list: seq<Run>)
    ensures w == World(AT, map[1 := FailedRun()][2 := Launched(ScheduleEvent, NightlyCron(1), AT)])
    ensures Unopposed(Winter(), w, 2, WinterContext(2), runs, list)
  {
    var z, c := Winter(), WinterContext(2);
    w := World(AT, map[1 := FailedRun()][2 := Launched(ScheduleEvent, NightlyCron(1), AT)]);
    var first, own := Snapshot(1, w.flows[1]), Snapshot(2, w.flows[2]);
    runs, list := [first, own], [own, first];
    WinterWindow(w, 2, ScheduleEvent, NightlyCron(1));
    GateOpens(z, w, 2, c);
    BothListed(c, first, own);
    OwnContinues(z, w, 2, c);
    FailureContinues();
    hide Listing;
    hide CheckGate;
    hide Examine;
    hide JobsOf;
    hide RomeTime;
  }

  lemma FailureContinues()
    ensures Examine(Winter(), WinterContext(2), Snapshot(1, FailedRun()), JobsOf(FailedRun())) == Continue(false)
  {
    var sync := Failed().sync.value;
    assert Listed(Some(sync)) + Listed(None) == [sync];
    assert JobsOf(FailedRun()) == [JobOf(Failed())];
    NoSuccessContinues(Winter(), WinterContext(2), Snapshot(1, FailedRun()), JobOf(Failed()), sync);
  }

  lemma BothListed(c: Context, first: Run, own: Run)
    requires c == WinterContext(2) && first == Snapshot(1, FailedRun())
    requires own == Snapshot(2, Launched(ScheduleEvent, NightlyCron(1), AT))
    ensures Listing(Winter(), c, own, [first, own]) == Ok([own, first])
  {
    var z, runs := Winter(), [first, own];
    assert forall run :: run in runs ==> run == first || run == own;
    assert Candidate(z, first, c) && Candidate(z, own, c);
    FilterAll(runs, IsCandidate(z, c));
    assert [first] + [own] == runs;
    FilterAppend([first], [own], IsOther(c));
    FilterOne(first, IsOther(c));
    FilterOne(own, IsOther(c));
    assert [first] + [] == [first] && [own] + [first] == [own, first];
    hide Filter;
  }

  /** Two ordinary attempts of one day are both admitted: the scheduled one fails, its backup succeeds. */
  lemma BackupAfterFailure() returns (z: Zone, w0: World, moves: seq<Move>, w: World)
    ensures EuropeanRule(z) && Init(w0) && Reaches(z, w0, moves, w)
    ensures Exists(w, 1, 0) && Regular(z, w.flows[1], At(w, 1, 0)) && At(w, 1, 0).phase.Admitted?
    ensures Exists(w, 2, 0) && Regular(z, w.flows[2], At(w, 2, 0)) && At(w, 2, 0).phase.Admitted?
    ensures z.DayOf(w.flows[1].created) == z.DayOf(w.flows[2].created)
    ensures !At(w, 1, 0).running && !At(w, 1, 0).Succeeded() && At(w, 2, 0).Succeeded()
  {
    z, w0 := Winter(), World(AT, map[]);
    WinterRule();
    moves := PrimaryFails();
    var w1 := World(AT, map[1 := FailedRun()]);
    var more := Launch(z, w1, 2, ScheduleEvent, NightlyCron(1));
    var w2, runs, list := BackupUnopposed();
    ReachesAppend(z, w0, moves, w1, more, w2);
    moves := moves + more;
    more, w := UnopposedSucceeds(z, w2, 2, WinterContext(2), runs, list);
    ReachesAppend(z, w0, moves, w2, more, w);
    moves := moves + more;
  }

  // ---------- A repeated midnight ----------

  /** After a repeated midnight of a day its clock stays at UTC+1. */
  lemma AfterRepeat(z: Zone, day: int, t: int)
    requires z.Valid() && MidnightRepeats(z, day) && day * DAY - HOUR <= t <= day * DAY + 4 * HOUR
    ensures z.Offset(t) == HOUR
  {
    var i := ChangeBetween(z, day * DAY - 2 * HOUR, day * DAY - HOUR);
    if z.Offset(t) != HOUR {
      var j := ChangeBetween(z, day * DAY - HOUR, t);
      assert false;
    }
  }

  function RepeatContext(day: int, id: nat): Context {
    Context(day * DAY + 4 * HOUR, id, day, day * DAY + PRIMARY - HOUR, day * DAY - HOUR, false, false)
  }

  /** A run created at the first midnight or at five o'clock is in its window at five. */
  lemma RepeatWindow(z: Zone, w: World, day: int, id: nat, created: int)
    requires z.Valid() && MidnightRepeats(z, day)
    requires created == day * DAY - 2 * HOUR || created == day * DAY + 4 * HOUR
    requires w.clock == day * DAY + 4 * HOUR && id in w.flows
    requires w.flows[id] == Launched(DispatchEvent, UnknownCron, created)
    ensures InWindow(z, w, id, RepeatContext(day, id))
  {
    AfterRepeat(z, day, day * DAY + 4 * HOUR);
    AfterRepeat(z, day, day * DAY - HOUR + PRIMARY);
    WallOfDay(day, 5 * HOUR);
    WallOfDay(day, 0);
    WallOfDay(day, PRIMARY);
  }

  /** Where midnight repeats, a run of the first 00:xx is missed by a later listing, and both succeed. */
  lemma TwoSuccesses(z: Zone, day: int) returns (w0: World, moves: seq<Move>, w: World)
    requires z.Valid() && MidnightRepeats(z, day)
    ensures Init(w0) && Reaches(z, w0, moves, w)
    ensures Exists(w, 1, 0) && Regular(z, w.flows[1], At(w, 1, 0)) && At(w, 1, 0).Succeeded()
    ensures Exists(w, 2, 0) && Regular(z, w.flows[2], At(w, 2, 0)) && At(w, 2, 0).Succeeded()
    ensures z.DayOf(w.flows[1].created) == z.DayOf(w.flows[2].created)
  {
    var first, five := day * DAY - 2 * HOUR, day * DAY + 4 * HOUR;
    w0 := World(first, map[]);
    moves := Launch(z, w0, 1, DispatchEvent, UnknownCron);
    var w1 := w0.(flows := w0.flows[1 := Launched(DispatchEvent, UnknownCron, first)]);
    var w2 := w1.(clock := five);
    Waiting(z, w1, 6 * HOUR);
    ReachesAppend(z, w0, moves, w1, [Tick(6 * HOUR)], w2);
    moves := moves + [Tick(6 * HOUR)];
    RepeatWindow(z, w2, day, 1, first);
    var more, w3 := AloneSucceeds(z, w2, 1, RepeatContext(day, 1));
    ReachesAppend(z, w0, moves, w2, more, w3);
    moves := moves + more;
    more := Launch(z, w3, 2, DispatchEvent, UnknownCron);
    var w4 := w3.(flows := w3.flows[2 := Launched(DispatchEvent, UnknownCron, five)]);
    ReachesAppend(z, w0, moves, w3, more, w4);
    moves := moves + more;
    RepeatWindow(z, w4, day, 2, five);
    more, w := AloneSucceeds(z, w4, 2, RepeatContext(day, 2));
    ReachesAppend(z, w0, moves, w4, more, w);
    moves := moves + more;
  }

  lemma Waiting(z: Zone, w: World, delta: nat)
    ensures Reaches(z, w, [Tick(delta)], w.(clock := w.clock + delta))
  {
    ReachesHere(z, w.(clock := w.clock + delta));
    ReachesOn(z, w, Tick(delta), [], w.(clock := w.clock + delta));
  }

  /** There are such clocks: summer time that ends at the first 01:00 of day 1. */
  lemma MidnightMayRepeat()
    ensures var z := Zone(true, [DAY - HOUR]); z.Valid() && MidnightRepeats(z, 1)
  {
    var z := Zone(true, [DAY - HOUR]);
    assert RomeClock.Passed([DAY - HOUR][..0], DAY - 2 * HOUR) == 0;
  }

  /** Over every interleaving at most one regular attempt of a day succeeds. */
  ghost predicate SafeHistory(z: Zone, moves: seq<Move>, w: World) {
    (exists w0 :: Init(w0) && Reaches(z, w0, moves, w)) ==>
      forall r, i, s, j ::
        Exists(w, r, i) && Exists(w, s, j)
        && Regular(z, w.flows[r], At(w, r, i)) && Regular(z, w.flows[s], At(w, s, j))
        && At(w, r, i).Succeeded() && At(w, s, j).Succeeded()
        && z.DayOf(w.flows[r].created) == z.DayOf(w.flows[s].created)
        ==> r == s && i == j
  }

  /** That holds of a clock exactly when it repeats no midnight. */
  lemma SafeIff(z: Zone)
    requires z.Valid()
    ensures (forall moves, w :: SafeHistory(z, moves, w)) <==> MidnightOnce(z)
  {
    hide Zone.Valid;
    hide Zone.DayOf;
    hide Reaches;
    hide MidnightRepeats;
    if MidnightOnce(z) {
      forall moves, w ensures SafeHistory(z, moves, w) {
        OnceIsSafe(z, moves, w);
      }
    } else {
      var day :| MidnightRepeats(z, day);
      var w0, moves, w := TwoSuccesses(z, day);
      assert !SafeHistory(z, moves, w);
    }
  }

  lemma OnceIsSafe(z: Zone, moves: seq<Move>, w: World)
    requires MidnightOnce(z)
    ensures SafeHistory(z, moves, w)
  {
    hide MidnightOnce;
    hide Reaches;
    hide Zone.DayOf;
    if w0 :| Init(w0) && Reaches(z, w0, moves, w) {
      forall r, i, s, j | Exists(w, r, i) && Exists(w, s, j)
          && Regular(z, w.flows[r], At(w, r, i)) && Regular(z, w.flows[s], At(w, s, j))
          && At(w, r, i).Succeeded() && At(w, s, j).Succeeded()
          && z.DayOf(w.flows[r].created) == z.DayOf(w.flows[s].created)
        ensures r == s && i == j
      {
        AtMostOneSuccessPerDay(z, w0, moves, w, r, i, s, j);
      }
    }
  }
}
