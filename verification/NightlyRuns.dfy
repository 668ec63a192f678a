/** Stages that several histories share: an attempt is launched, its guard goes through, its work is done. */
module NightlyRuns {
  import opened Wrappers
  import opened RomeClock
  import opened NightlyGuard
  import opened NightlyProtocol
  import opened NightlySafety

  // ---------- Histories in pieces ----------

  lemma ReachesHere(z: Zone, w: World)
    ensures Reaches(z, w, [], w)
  {
  }

  lemma ReachesOn(z: Zone, w: World, m: Move, rest: seq<Move>, v: World)
    requires Enabled(w, m) && Reaches(z, Take(z, w, m), rest, v)
    ensures Reaches(z, w, [m] + rest, v)
  {
    hide Take;
    hide Enabled;
    assert ([m] + rest)[1..] == rest;
  }

  lemma {:induction false} ReachesAppend(z: Zone, w: World, moves: seq<Move>, v: World, more: seq<Move>, u: World)
    requires Reaches(z, w, moves, v) && Reaches(z, v, more, u)
    ensures Reaches(z, w, moves + more, u)
    decreases |moves|
  {
    hide Take;
    hide Enabled;
    if moves == [] {
      assert moves + more == more;
    } else {
      ReachesAppend(z, Take(z, w, moves[0]), moves[1..], v, more, u);
      assert (moves + more)[1..] == moves[1..] + more;
    }
  }

  // ---------- Launching ----------

  const FIRST := Attempt(true, false, Fresh, None, None, None)

  /** A run without recovery or early admission, in progress with its first attempt. */
  function Launched(event: Event, cron: Cron, created: int): Flow {
    Flow(event, cron, false, false, false, created, InProgress, false, [FIRST], false)
  }

  lemma Launch(z: Zone, w: World, id: nat, event: Event, cron: Cron) returns (moves: seq<Move>)
    requires id !in w.flows
    ensures Reaches(z, w, moves, w.(flows := w.flows[id := Launched(event, cron, w.clock)]))
  {
    var create := Create(id, event, cron, false, false, false);
    var v := Take(z, w, create);
    var started := Take(z, v, Start(id));
    var u := w.(flows := w.flows[id := Launched(event, cron, w.clock)]);
    var none: seq<Attempt> := [];
    assert none + [FIRST] == [FIRST];
    assert Take(z, started, Pick(id)).flows == u.flows;
    ReachesHere(z, u);
    ReachesOn(z, started, Pick(id), [], u);
    ReachesOn(z, v, Start(id), [Pick(id)], u);
    moves := [Start(id)] + [Pick(id)];
    ReachesOn(z, w, create, moves, u);
    moves := [create] + moves;
  }

  // ---------- The guard goes through ----------

  /** Nothing that the guard of the run reads refuses or fails it. */
  ghost predicate Unopposed(z: Zone, w: World, id: nat, c: Context, runs: seq<Run>, list: seq<Run>) {
    && IsRunning(w, id) && Current(w.flows[id]).phase.Fresh?
    && CheckGate(z, RequestOf(w, id), Snapshot(id, w.flows[id])) == Open(c)
    && CompleteAnswer(w, c.dayStart, runs)
    && Listing(z, c, Snapshot(id, w.flows[id]), runs) == Ok(list)
    && EachContinues(z, w, c, list, 0)
  }

  ghost predicate EachContinues(z: Zone, w: World, c: Context, list: seq<Run>, from: nat) {
    forall p :: from <= p < |list| ==>
      list[p].id in w.flows && Examine(z, c, list[p], JobsOf(w.flows[list[p].id])).Continue?
  }

  lemma CurrentFacts(w: World, id: nat, a: Attempt)
    requires IsRunning(w, id) && a.running
    ensures var v := WithCurrent(w, id, a);
            && v.clock == w.clock && IsRunning(v, id) && Current(v.flows[id]) == a
            && forall b :: WithCurrent(v, id, b) == WithCurrent(w, id, b)
  {
    var v := WithCurrent(w, id, a);
    forall b ensures WithCurrent(v, id, b) == WithCurrent(w, id, b) {
      var last := |w.flows[id].attempts| - 1;
      assert v.flows[id].attempts[last := b] == w.flows[id].attempts[last := b];
      assert WithCurrent(v, id, b).flows == WithCurrent(w, id, b).flows;
    }
  }

  /** A step of the current attempt leaves what the history shows of it, unless its job changes. */
  lemma StepFacts(w: World, id: nat, a: Attempt)
    requires IsRunning(w, id) && a.running && JobOf(a) == JobOf(Current(w.flows[id]))
    ensures var v := WithCurrent(w, id, a);
            && IsRunning(v, id) && Current(v.flows[id]) == a
            && Snapshot(id, v.flows[id]) == Snapshot(id, w.flows[id])
            && AttemptCounts(v) == AttemptCounts(w)
            && (forall b :: WithCurrent(v, id, b) == WithCurrent(w, id, b))
            && (forall s :: s in w.flows ==> s in v.flows && JobsOf(v.flows[s]) == JobsOf(w.flows[s]))
  {
    CurrentFacts(w, id, a);
    var v := WithCurrent(w, id, a);
    assert StartedJobs(v.flows[id]) == StartedJobs(w.flows[id]);
    assert AttemptCounts(v) == AttemptCounts(w);
  }

  lemma StepAnswer(w: World, id: nat, a: Attempt, since: int, runs: seq<Run>)
    requires IsRunning(w, id) && CompleteAnswer(w, since, runs)
    ensures CompleteAnswer(WithCurrent(w, id, a), since, runs)
  {
    var v := WithCurrent(w, id, a);
    forall s | s in w.flows ensures s in v.flows && Snapshot(s, v.flows[s]) == Snapshot(s, w.flows[s]) {
    }
  }

  /** The remaining job requests of a guard that nothing stops. */
  lemma {:induction false} Readings(z: Zone, w: World, id: nat, c: Context, list: seq<Run>, n: nat, seen: map<nat, nat>)
    returns (moves: seq<Move>)
    requires n <= |list| && IsRunning(w, id) && Current(w.flows[id]).phase == Looking(c, list, n, seen)
    requires EachContinues(z, w, c, list, n)
    ensures Reaches(z, w, moves, WithPhase(w, id, Admitted(c, seen)))
    decreases |list| - n
  {
    hide Examine;
    hide JobsOf;
    var a := Current(w.flows[id]);
    var u := WithPhase(w, id, Admitted(c, seen));
    if n == |list| {
      ReachesHere(z, u);
      ReachesOn(z, w, Conclude(id), [], u);
      moves := [Conclude(id)] + [];
    } else {
      var q := Looking(c, list, n + 1, seen);
      StepFacts(w, id, a.(phase := q));
      var v := WithPhase(w, id, q);
      assert Take(z, w, ReadJobs(id)) == v by {
        assert list[n].id in w.flows;
      }
      hide WithCurrent;
      moves := Readings(z, v, id, c, list, n + 1, seen);
      ReachesOn(z, w, ReadJobs(id), moves, u);
      moves := [ReadJobs(id)] + moves;
    }
  }

  /** The attempt once its guard has let it through. */
  function AdmittedAttempt(w: World, id: nat, c: Context): Attempt
    requires IsRunning(w, id)
  {
    Current(w.flows[id]).(phase := Admitted(c, AttemptCounts(w)), begun := Some(w.clock))
  }

  lemma Admission(z: Zone, w: World, id: nat, c: Context, runs: seq<Run>, list: seq<Run>) returns (moves: seq<Move>)
    requires Unopposed(z, w, id, c, runs, list)
    ensures Reaches(z, w, moves, WithCurrent(w, id, AdmittedAttempt(w, id, c)))
  {
    hide CheckGate;
    hide Listing;
    hide JobsOf;
    hide Examine;
    hide CompleteAnswer;
    hide AttemptCounts;
    hide WithCurrent;
    var current, seen := Snapshot(id, w.flows[id]), AttemptCounts(w);
    var a := Current(w.flows[id]).(begun := Some(w.clock));
    var ready, looking := a.(phase := Ready(c, current)), a.(phase := Looking(c, list, 0, seen));
    StepFacts(w, id, ready);
    StepFacts(w, id, looking);
    StepAnswer(w, id, ready, c.dayStart, runs);
    var v, u := WithCurrent(w, id, ready), WithCurrent(w, id, AdmittedAttempt(w, id, c));
    moves := Readings(z, WithCurrent(w, id, looking), id, c, list, 0, seen);
    ReachesOn(z, v, ListRuns(id, runs), moves, u);
    moves := [ListRuns(id, runs)] + moves;
    ReachesOn(z, w, Begin(id), moves, u);
    moves := [Begin(id)] + moves;
  }

  // ---------- The work ----------

  function Synced(a: Attempt, at: int, ok: bool): Attempt {
    a.(sync := Some(Step(SyncStep, true, ok, Some(at), Some(at))))
  }

  function Marked(a: Attempt, at: int): Attempt {
    Synced(a, at, true).(marker := Some(Step(MarkerStep, true, true, Some(at), Some(at))))
  }

  /** The sync of an admitted attempt ends. */
  lemma Sync(z: Zone, w: World, id: nat, ok: bool) returns (moves: seq<Move>)
    requires IsRunning(w, id) && Current(w.flows[id]).phase.Admitted? && Current(w.flows[id]).sync == None
    ensures Reaches(z, w, moves, WithCurrent(w, id, Synced(Current(w.flows[id]), w.clock, ok)))
  {
    var a := Current(w.flows[id]);
    var begun := a.(sync := Some(Step(SyncStep, false, false, Some(w.clock), None)));
    var v, u := WithCurrent(w, id, begun), WithCurrent(w, id, Synced(a, w.clock, ok));
    CurrentFacts(w, id, begun);
    hide WithCurrent;
    hide Ended;
    ReachesHere(z, u);
    ReachesOn(z, v, EndSync(id, ok), [], u);
    ReachesOn(z, w, StartSync(id), [EndSync(id, ok)], u);
    moves := [StartSync(id)] + [EndSync(id, ok)];
  }

  /** An admitted attempt completes sync and marker. */
  lemma Completion(z: Zone, w: World, id: nat) returns (moves: seq<Move>)
    requires IsRunning(w, id) && Current(w.flows[id]).phase.Admitted?
    requires Current(w.flows[id]).sync == None && Current(w.flows[id]).marker == None
    ensures Reaches(z, w, moves, WithCurrent(w, id, Marked(Current(w.flows[id]), w.clock)))
  {
    var a := Current(w.flows[id]);
    var v := WithCurrent(w, id, Synced(a, w.clock, true));
    var u := WithCurrent(w, id, Marked(a, w.clock));
    moves := Sync(z, w, id, true);
    CurrentFacts(w, id, Synced(a, w.clock, true));
    hide WithCurrent;
    ReachesHere(z, u);
    ReachesOn(z, v, Mark(id, true), [], u);
    ReachesAppend(z, w, moves, v, [Mark(id, true)], u);
    moves := moves + [Mark(id, true)];
  }

  /** Its sync fails, and the attempt with it. */
  lemma Breakdown(z: Zone, w: World, id: nat) returns (moves: seq<Move>)
    requires IsRunning(w, id) && Current(w.flows[id]).phase.Admitted? && Current(w.flows[id]).sync == None
    ensures Reaches(z, w, moves, Ended(WithCurrent(w, id, Synced(Current(w.flows[id]), w.clock, false)), id, false))
  {
    var v := WithCurrent(w, id, Synced(Current(w.flows[id]), w.clock, false));
    moves := Sync(z, w, id, false);
    CurrentFacts(w, id, Synced(Current(w.flows[id]), w.clock, false));
    hide WithCurrent;
    hide Ended;
    var u := Ended(v, id, false);
    ReachesHere(z, u);
    ReachesOn(z, v, End(id, false), [], u);
    ReachesAppend(z, w, moves, v, [End(id, false)], u);
    moves := moves + [End(id, false)];
  }
}
