/** At most one ordinary attempt per Rome day completes the nightly, in every interleaving. */
module NightlySafety {
  import opened Wrappers
  import opened Sequences
  import opened RomeClock
  import opened NightlyGuard
  import opened NightlyProtocol

  // ---------- Vocabulary ----------

  ghost predicate Exists(w: World, id: nat, k: nat) {
    id in w.flows && k < |w.flows[id].attempts|
  }

  ghost function At(w: World, id: nat, k: nat): Attempt
    requires Exists(w, id, k)
  {
    w.flows[id].attempts[k]
  }

  /** The run asks for no recovery, and it does not both ask for early admission and read the clock before 03:07
      of the day on which it was created. */
  ghost predicate Regular(z: Zone, f: Flow, a: Attempt) {
    && !f.recovery
    && !(f.allowEarly && a.begun.Some? && Awaited(z, z.DayOf(f.created) * 86_400_000 + 11_220_000, a.begun.value))
  }

  /** What the guard itself takes for neither a recovery nor an early run. */
  predicate Ordinary(a: Attempt) {
    a.HasContext() && !a.phase.context.recovery && !a.phase.context.early
  }

  /** Over, and not with an ordinary success. */
  predicate Done(a: Attempt) {
    !a.running && !(a.Succeeded() && Ordinary(a))
  }

  predicate Supportable(f: Flow) {
    f.event == DispatchEvent || (f.event == ScheduleEvent && f.cron.NightlyCron?)
  }

  /** The listing of attempt x contained attempt j of run s, created before x's clock reading. */
  ghost predicate Sees(x: Attempt, s: nat, j: nat, created: int)
    requires x.PastListing()
  {
    s in x.phase.seen && j < x.phase.seen[s] && created <= x.phase.context.now
  }

  // ---------- Invariants of one attempt ----------

  ghost predicate FlowOk(w: World, f: Flow) {
    && f.created <= w.clock
    && (forall k :: 0 <= k < |f.attempts| - 1 ==> !f.attempts[k].running)
    && !(f.waiting && f.attempts != [] && Current(f).running)
    && (f.waiting || (f.attempts != [] && Current(f).running) <==> f.status == InProgress)
  }

  ghost predicate ContextOk(z: Zone, w: World, id: nat, f: Flow, c: Context) {
    && c.runId == id && f.created <= c.now <= w.clock && c.day == z.DayOf(f.created)
    && RomeTime(z, c.day, PRIMARY) == Some(c.primaryAt) && RomeTime(z, c.day, 0) == Some(c.dayStart)
    && c.recovery == f.recovery && (c.early <==> f.allowEarly && c.now < c.primaryAt)
    && (c.early || c.primaryAt <= c.now) && Supportable(f)
  }

  ghost predicate StepsOk(a: Attempt) {
    && (a.HasContext() ==> a.begun == Some(a.phase.context.now))
    && (a.sync.Some? ==>
          && a.phase.Admitted? && a.sync.value.name == SyncStep && a.sync.value.started.Some?
          && a.phase.context.now <= a.sync.value.started.value && (a.sync.value.succeeded ==> a.sync.value.completed))
    && (a.marker.Some? ==>
          && a.sync.Some? && SyncSuccess(a.sync.value)
          && a.marker.value.name == MarkerStep && a.marker.value.completed)
  }

  ghost predicate EntryOk(w: World, id: nat, run: Run, seen: map<nat, nat>) {
    && run.id != id && run.id in w.flows && run.id in seen
    && run.created == Some(w.flows[run.id].created)
    && (run.status != InProgress ==> forall j :: 0 <= j < seen[run.id] && Exists(w, run.id, j) ==>
          !At(w, run.id, j).running)
  }

  ghost predicate InList(list: seq<Run>, bound: nat, s: nat) {
    exists p :: 1 <= p < bound && p < |list| && list[p].id == s
  }

  /** Every run of the day that could matter is in the list. */
  ghost predicate ListComplete(z: Zone, w: World, id: nat, c: Context, list: seq<Run>, seen: map<nat, nat>) {
    forall s | s in seen && s in w.flows && s != id && w.flows[s].created <= c.now ::
      (z.DayOf(w.flows[s].created) == c.day && Supportable(w.flows[s])) ==> InList(list, |list|, s)
  }

  ghost predicate ViewOk(z: Zone, w: World, id: nat, a: Attempt) {
    && (a.phase.Ready? ==> a.phase.current.id == id)
    && (a.PastListing() ==> forall s :: s in a.phase.seen ==> s in w.flows && a.phase.seen[s] <= |w.flows[s].attempts|)
    && (a.phase.Looking? ==>
          && a.phase.list != [] && a.phase.list[0].id == id && a.phase.next <= |a.phase.list|
          && (forall p :: 1 <= p < |a.phase.list| ==> EntryOk(w, id, a.phase.list[p], a.phase.seen))
          && ListComplete(z, w, id, a.phase.context, a.phase.list, a.phase.seen))
  }

  ghost predicate Singles(z: Zone, w: World) {
    && (forall id :: id in w.flows ==> FlowOk(w, w.flows[id]))
    && forall id, k :: Exists(w, id, k) ==>
         && (At(w, id, k).HasContext() ==> ContextOk(z, w, id, w.flows[id], At(w, id, k).phase.context))
         && StepsOk(At(w, id, k)) && ViewOk(z, w, id, At(w, id, k))
  }

  // ---------- Invariants of two attempts ----------

  /** x has been through the entry of run s. */
  ghost predicate Cleared(x: Attempt, s: nat) {
    x.phase.Admitted? || (x.phase.Looking? && InList(x.phase.list, x.phase.next, s))
  }

  /** Whatever an ordinary x saw and has cleared is over. */
  ghost predicate ClearedIsDone(z: Zone, w: World, r: nat, i: nat, s: nat, j: nat)
    requires Exists(w, r, i) && Exists(w, s, j)
  {
    var x := At(w, r, i);
    r != s && x.PastListing() && Ordinary(x) && Sees(x, s, j, w.flows[s].created)
    && z.DayOf(w.flows[s].created) == x.phase.context.day && Supportable(w.flows[s]) && Cleared(x, s)
    ==> Done(At(w, s, j))
  }

  /** An attempt that passed the check of its own run follows no success of that run. */
  ghost predicate NoReplay(w: World, r: nat, i: nat, j: nat)
    requires Exists(w, r, i) && Exists(w, r, j)
  {
    var x := At(w, r, i);
    j < i && (x.phase.Admitted? || (x.phase.Looking? && x.phase.next >= 1)) ==> !At(w, r, j).Succeeded()
  }

  /** A run created after y read the clock finds y in its listing. */
  ghost predicate LaterSees(w: World, r: nat, i: nat, s: nat, j: nat)
    requires Exists(w, r, i) && Exists(w, s, j)
  {
    var x, y := At(w, r, i), At(w, s, j);
    r != s && x.PastListing() && y.HasContext() && w.flows[r].created > y.phase.context.now
    ==> Sees(x, s, j, w.flows[s].created)
  }

  /** Of two attempts that have listed, one saw the other. */
  ghost predicate OneSees(w: World, r: nat, i: nat, s: nat, j: nat)
    requires Exists(w, r, i) && Exists(w, s, j)
  {
    var x, y := At(w, r, i), At(w, s, j);
    r != s && x.PastListing() && y.PastListing()
    ==> Sees(x, s, j, w.flows[s].created) || Sees(y, r, i, w.flows[r].created)
  }

  ghost predicate Pairs(z: Zone, w: World) {
    && (forall r, i, s, j :: Exists(w, r, i) && Exists(w, s, j) ==>
          ClearedIsDone(z, w, r, i, s, j) && LaterSees(w, r, i, s, j) && OneSees(w, r, i, s, j))
    && forall r, i, j :: Exists(w, r, i) && Exists(w, r, j) ==> NoReplay(w, r, i, j)
  }

  ghost predicate Inv(z: Zone, w: World) {
    Singles(z, w) && Pairs(z, w)
  }

  // ---------- The main consequences ----------

  lemma OneSuccessPerRun(z: Zone, w: World, r: nat, i: nat, j: nat)
    requires Inv(z, w) && Exists(w, r, i) && Exists(w, r, j)
    requires At(w, r, i).Succeeded() && At(w, r, j).Succeeded()
    ensures i == j
  {
    assert NoReplay(w, r, i, j) && NoReplay(w, r, j, i);
    assert StepsOk(At(w, r, i)) && StepsOk(At(w, r, j));
  }

  /** Two admitted ordinary attempts of one day: one of them is over without success. */
  lemma AdmittedPair(z: Zone, w: World, r: nat, i: nat, s: nat, j: nat)
    requires Inv(z, w) && Exists(w, r, i) && Exists(w, s, j) && (r, i) != (s, j)
    requires At(w, r, i).phase.Admitted? && At(w, s, j).phase.Admitted?
    requires Ordinary(At(w, r, i)) && Ordinary(At(w, s, j))
    requires z.DayOf(w.flows[r].created) == z.DayOf(w.flows[s].created)
    ensures (!At(w, r, i).running && !At(w, r, i).Succeeded()) || (!At(w, s, j).running && !At(w, s, j).Succeeded())
  {
    if r == s {
      assert NoReplay(w, r, i, j) && NoReplay(w, r, j, i);
      assert FlowOk(w, w.flows[r]);
    } else {
      assert ContextOk(z, w, r, w.flows[r], At(w, r, i).phase.context);
      assert ContextOk(z, w, s, w.flows[s], At(w, s, j).phase.context);
      assert OneSees(w, r, i, s, j);
      assert ClearedIsDone(z, w, r, i, s, j) && ClearedIsDone(z, w, s, j, r, i);
    }
  }

  // ---------- How one step relates two states ----------

  ghost predicate SameRun(f: Flow, g: Flow) {
    && g.created == f.created && g.event == f.event && g.cron == f.cron && g.recovery == f.recovery
    && g.technicalRecovery == f.technicalRecovery && g.allowEarly == f.allowEarly
    && |f.attempts| <= |g.attempts|
  }

  /** Finished attempts never change; a context is only lost by closing. */
  ghost predicate Evolves(w: World, v: World) {
    && w.clock <= v.clock
    && (forall id :: id in w.flows ==> id in v.flows && SameRun(w.flows[id], v.flows[id]))
    && forall id, k :: Exists(w, id, k) ==> Exists(v, id, k) && (!At(w, id, k).running ==> At(v, id, k) == At(w, id, k))
  }

  /** The attempt was there with the same phase. */
  ghost predicate Kept(w: World, v: World, id: nat, k: nat) {
    Exists(w, id, k) && Exists(v, id, k) && At(v, id, k).phase == At(w, id, k).phase
  }

  /** The step leaves every listing and every context as it was, except that contexts may be dropped or
      taken with the present clock. */
  ghost predicate Quiet(w: World, v: World) {
    && Evolves(w, v)
    && forall id, k :: Exists(v, id, k) ==>
         Kept(w, v, id, k) || (!At(v, id, k).PastListing()
                               && (At(v, id, k).HasContext() ==> At(v, id, k).phase.context.now == v.clock))
  }

  lemma QuietKeepsPairs(z: Zone, w: World, v: World)
    requires Inv(z, w) && Quiet(w, v) && (forall id :: id in v.flows ==> v.flows[id].created <= v.clock)
    ensures Pairs(z, v)
  {
    forall r, i, s, j | Exists(v, r, i) && Exists(v, s, j)
      ensures ClearedIsDone(z, v, r, i, s, j) && LaterSees(v, r, i, s, j) && OneSees(v, r, i, s, j)
    {
      QuietPair(z, w, v, r, i, s, j);
    }
    forall r, i, j | Exists(v, r, i) && Exists(v, r, j) ensures NoReplay(v, r, i, j) {
      if Kept(w, v, r, i) && j < i {
        assert NoReplay(w, r, i, j) && FlowOk(w, w.flows[r]);
      }
    }
  }

  lemma QuietPair(z: Zone, w: World, v: World, r: nat, i: nat, s: nat, j: nat)
    requires Inv(z, w) && Quiet(w, v) && Exists(v, r, i) && Exists(v, s, j)
    requires forall id :: id in v.flows ==> v.flows[id].created <= v.clock
    ensures ClearedIsDone(z, v, r, i, s, j) && LaterSees(v, r, i, s, j) && OneSees(v, r, i, s, j)
  {
    assert r in w.flows ==> SameRun(w.flows[r], v.flows[r]);
    assert s in w.flows ==> SameRun(w.flows[s], v.flows[s]);
    if At(v, r, i).PastListing() {
      assert Kept(w, v, r, i);
      assert ViewOk(z, w, r, At(w, r, i));
      if Exists(w, s, j) {
        assert ClearedIsDone(z, w, r, i, s, j) && LaterSees(w, r, i, s, j) && OneSees(w, r, i, s, j);
      }
      assert Kept(w, v, s, j) || !At(v, s, j).HasContext() || At(v, s, j).phase.context.now == v.clock;
    }
  }

  lemma ViewKept(z: Zone, w: World, v: World, id: nat, k: nat)
    requires Evolves(w, v) && Kept(w, v, id, k) && ViewOk(z, w, id, At(w, id, k))
    ensures ViewOk(z, v, id, At(v, id, k))
  {
    var p := At(w, id, k).phase;
    forall s | s in w.flows ensures s in v.flows && SameRun(w.flows[s], v.flows[s]) {
    }
    if p.Looking? {
      forall q | 1 <= q < |p.list| ensures EntryOk(v, id, p.list[q], p.seen) {
        var run := p.list[q];
        assert EntryOk(w, id, run, p.seen);
        forall j | 0 <= j < p.seen[run.id] && Exists(v, run.id, j)
          ensures run.status != InProgress ==> !At(v, run.id, j).running
        {
          assert Exists(w, run.id, j);
        }
      }
    }
  }

  /** Singles carry over when every attempt keeps its phase or meets the invariant anew. */
  lemma SinglesOf(z: Zone, w: World, v: World)
    requires Inv(z, w) && Evolves(w, v)
    requires forall id :: id in v.flows ==> FlowOk(v, v.flows[id])
    requires forall id, k :: Exists(v, id, k) ==> StepsOk(At(v, id, k))
    requires forall id, k :: Exists(v, id, k) && !Kept(w, v, id, k) ==>
               && (At(v, id, k).HasContext() ==> ContextOk(z, v, id, v.flows[id], At(v, id, k).phase.context))
               && ViewOk(z, v, id, At(v, id, k))
    ensures Singles(z, v)
  {
    forall id, k | Exists(v, id, k)
      ensures At(v, id, k).HasContext() ==> ContextOk(z, v, id, v.flows[id], At(v, id, k).phase.context)
      ensures ViewOk(z, v, id, At(v, id, k))
    {
      if Kept(w, v, id, k) {
        assert ViewOk(z, w, id, At(w, id, k)) && SameRun(w.flows[id], v.flows[id]);
        ViewKept(z, w, v, id, k);
      }
    }
  }

  // ---------- Steps that touch no guard ----------

  lemma TickKeeps(z: Zone, w: World, delta: nat)
    requires Inv(z, w)
    ensures Inv(z, w.(clock := w.clock + delta))
  {
    var v := w.(clock := w.clock + delta);
    SinglesOf(z, w, v);
    QuietKeepsPairs(z, w, v);
  }

  lemma CreateKeeps(z: Zone, w: World, id: nat, f: Flow)
    requires Inv(z, w) && id !in w.flows && f.created == w.clock && f.attempts == [] && f.status == Queued && !f.waiting
    ensures Inv(z, w.(flows := w.flows[id := f]))
  {
    var v := w.(flows := w.flows[id := f]);
    SinglesOf(z, w, v);
    QuietKeepsPairs(z, w, v);
  }

  lemma TurnedFacts(z: Zone, w: World, id: nat, status: Status, succeeded: bool)
    requires Inv(z, w) && id in w.flows && !IsRunning(w, id)
    ensures var v := Turned(w, id, status, succeeded);
            && Quiet(w, v) && (forall s :: s in v.flows ==> FlowOk(v, v.flows[s]) && v.flows[s].created <= v.clock)
            && forall s, k :: Exists(v, s, k) ==> Kept(w, v, s, k) && StepsOk(At(v, s, k))
  {
    hide Pairs;
    hide ViewOk;
    hide ContextOk;
    hide StepsOk;
    var v := Turned(w, id, status, succeeded);
    assert FlowOk(w, w.flows[id]);
    forall s | s in v.flows ensures FlowOk(v, v.flows[s]) {
      assert FlowOk(w, w.flows[s]);
    }
    forall s, k | Exists(v, s, k) ensures Kept(w, v, s, k) && StepsOk(At(v, s, k)) {
      assert Exists(w, s, k) && StepsOk(At(w, s, k)) && At(v, s, k) == At(w, s, k);
    }
  }

  lemma TurnKeeps(z: Zone, w: World, id: nat, status: Status, succeeded: bool)
    requires Inv(z, w) && id in w.flows && !IsRunning(w, id)
    ensures Inv(z, Turned(w, id, status, succeeded))
  {
    TurnedFacts(z, w, id, status, succeeded);
    hide *;
    var v := Turned(w, id, status, succeeded);
    QuietEvolves(w, v);
    SinglesOf(z, w, v);
    QuietKeepsPairs(z, w, v);
    InvOf(z, v);
  }

  /** A queued or completed run has no running attempt. */
  lemma Idle(z: Zone, w: World, id: nat)
    requires Inv(z, w) && id in w.flows && w.flows[id].status != InProgress
    ensures !IsRunning(w, id)
  {
    assert FlowOk(w, w.flows[id]);
  }

  lemma QuietEvolves(w: World, v: World)
    requires Quiet(w, v)
    ensures Evolves(w, v)
  {
  }

  lemma PickedFacts(z: Zone, w: World, id: nat)
    requires Inv(z, w) && id in w.flows && w.flows[id].waiting
    ensures var v := Picked(w, id);
            && Evolves(w, v) && (forall s :: s in v.flows ==> FlowOk(v, v.flows[s]))
            && forall s, j :: Exists(v, s, j) ==>
                 (Kept(w, v, s, j) && At(v, s, j) == At(w, s, j))
                   || At(v, s, j) == Attempt(true, false, Fresh, None, None, None)
  {
    var v := Picked(w, id);
    var f, g := w.flows[id], v.flows[id];
    assert FlowOk(w, f);
    assert forall k :: 0 <= k < |f.attempts| ==> g.attempts[k] == f.attempts[k];
    assert f.attempts != [] ==> Current(f) == f.attempts[|f.attempts| - 1];
    forall s | s in v.flows ensures FlowOk(v, v.flows[s]) {
      assert FlowOk(w, w.flows[s]);
    }
  }

  lemma PickKeeps(z: Zone, w: World, id: nat)
    requires Inv(z, w) && id in w.flows && w.flows[id].waiting
    ensures Inv(z, Picked(w, id))
  {
    var v := Picked(w, id);
    PickedFacts(z, w, id);
    hide Picked;
    forall s, j | Exists(v, s, j) ensures StepsOk(At(v, s, j)) {
      assert Exists(w, s, j) ==> StepsOk(At(w, s, j));
    }
    SinglesOf(z, w, v);
    QuietKeepsPairs(z, w, v);
  }

  // ---------- Steps of the current attempt of a run ----------

  lemma UpdateFacts(w: World, id: nat, a: Attempt)
    requires IsRunning(w, id)
    ensures var v := WithCurrent(w, id, a); var last := |w.flows[id].attempts| - 1;
            && v.clock == w.clock && v.flows.Keys == w.flows.Keys
            && (forall s :: s in w.flows ==> SameRun(w.flows[s], v.flows[s]) && v.flows[s].status == w.flows[s].status
                                             && |v.flows[s].attempts| == |w.flows[s].attempts|)
            && (forall s, j :: Exists(v, s, j) <==> Exists(w, s, j))
            && (forall s, j :: Exists(w, s, j) ==> At(v, s, j) == if s == id && j == last then a else At(w, s, j))
            && Evolves(w, v)
  {
  }

  lemma UpdateFlows(z: Zone, w: World, id: nat, a: Attempt)
    requires Inv(z, w) && IsRunning(w, id) && a.running
    ensures forall s :: s in w.flows ==> FlowOk(WithCurrent(w, id, a), WithCurrent(w, id, a).flows[s])
  {
    UpdateFacts(w, id, a);
    forall s | s in w.flows ensures FlowOk(WithCurrent(w, id, a), WithCurrent(w, id, a).flows[s]) {
      assert FlowOk(w, w.flows[s]);
    }
  }

  /** A step of a running attempt that keeps its phase. */
  lemma SamePhaseKeeps(z: Zone, w: World, id: nat, a: Attempt)
    requires Inv(z, w) && IsRunning(w, id) && a.running && a.phase == Current(w.flows[id]).phase && StepsOk(a)
    ensures Inv(z, WithCurrent(w, id, a))
  {
    var v := WithCurrent(w, id, a);
    UpdateFacts(w, id, a);
    UpdateFlows(z, w, id, a);
    SinglesOf(z, w, v);
    QuietKeepsPairs(z, w, v);
  }

  lemma EndKeeps(z: Zone, w: World, id: nat, ok: bool)
    requires Inv(z, w) && IsRunning(w, id)
    ensures Inv(z, Ended(w, id, ok))
  {
    var v := Ended(w, id, ok);
    var f, g := w.flows[id], v.flows[id];
    assert FlowOk(w, f);
    forall s, j | Exists(v, s, j) ensures Kept(w, v, s, j) && StepsOk(At(v, s, j)) {
      assert Exists(w, s, j) && StepsOk(At(w, s, j));
    }
    SinglesOf(z, w, v);
    QuietKeepsPairs(z, w, v);
  }

  lemma CloseKeeps(z: Zone, w: World, id: nat, begun: Option<int>)
    requires Inv(z, w) && IsRunning(w, id) && !Current(w.flows[id]).phase.Admitted?
    ensures Inv(z, WithCurrent(w, id, Current(w.flows[id]).(phase := Closed, begun := begun)))
  {
    var a := Current(w.flows[id]).(phase := Closed, begun := begun);
    assert StepsOk(At(w, id, |w.flows[id].attempts| - 1));
    var v := WithCurrent(w, id, a);
    UpdateFacts(w, id, a);
    UpdateFlows(z, w, id, a);
    SinglesOf(z, w, v);
    QuietKeepsPairs(z, w, v);
  }

  lemma GiveUpKeeps(z: Zone, w: World, id: nat)
    requires Inv(z, w) && IsRunning(w, id) && !Current(w.flows[id]).phase.Admitted?
    ensures Inv(z, WithPhase(w, id, Closed))
  {
    hide Inv;
    CloseKeeps(z, w, id, Current(w.flows[id]).begun);
  }

  // ---------- The guard's own steps ----------

  lemma GateFacts(z: Zone, w: World, id: nat, c: Context)
    requires id in w.flows && FlowOk(w, w.flows[id])
    requires CheckGate(z, RequestOf(w, id), Snapshot(id, w.flows[id])) == Open(c)
    ensures ContextOk(z, w, id, w.flows[id], c) && c.now == w.clock
  {
  }

  lemma BeginKeeps(z: Zone, w: World, id: nat)
    requires Inv(z, w) && IsRunning(w, id) && Current(w.flows[id]).phase.Fresh?
    ensures Inv(z, Begun(z, w, id))
  {
    hide CheckGate;
    var current := Snapshot(id, w.flows[id]);
    match CheckGate(z, RequestOf(w, id), current)
    case Shut(_) =>
      CloseKeeps(z, w, id, Some(w.clock));
    case Open(c) =>
      GateFacts(z, w, id, c);
      ReadyKeeps(z, w, id, c);
  }

  lemma ReadyKeeps(z: Zone, w: World, id: nat, c: Context)
    requires Inv(z, w) && IsRunning(w, id) && Current(w.flows[id]).phase.Fresh?
    requires ContextOk(z, w, id, w.flows[id], c) && c.now == w.clock
    ensures var a := Current(w.flows[id]).(phase := Ready(c, Snapshot(id, w.flows[id])), begun := Some(w.clock));
            Inv(z, WithCurrent(w, id, a))
  {
    hide RomeTime;
    hide Zone.DayOf;
    var a := Current(w.flows[id]).(phase := Ready(c, Snapshot(id, w.flows[id])), begun := Some(w.clock));
    var v := WithCurrent(w, id, a);
    assert StepsOk(At(w, id, |w.flows[id].attempts| - 1));
    UpdateFacts(w, id, a);
    UpdateFlows(z, w, id, a);
    SinglesOf(z, w, v);
    QuietKeepsPairs(z, w, v);
  }

  lemma ListedRuns(z: Zone, c: Context, current: Run, runs: seq<Run>, list: seq<Run>)
    requires Listing(z, c, current, runs) == Ok(list)
    ensures list != [] && list[0] == current
    ensures forall p :: 1 <= p < |list| ==> list[p] in runs && list[p].id != c.runId
    ensures forall run :: run in runs && Candidate(z, run, c) && run.id != c.runId ==> InList(list, |list|, run.id)
  {
    var candidates := Filter(runs, IsCandidate(z, c));
    FilterMembers(runs, IsCandidate(z, c));
    FilterMembers(candidates, IsOther(c));
    var others := Filter(candidates, IsOther(c));
    assert list == [current] + others;
    forall p | 1 <= p < |list| ensures list[p] in runs && list[p].id != c.runId {
      assert list[p] == others[p - 1] && others[p - 1] in others;
    }
    forall run | run in runs && Candidate(z, run, c) && run.id != c.runId ensures InList(list, |list|, run.id) {
      assert IsCandidate(z, c)(run) && IsOther(c)(run);
      assert run in others;
      var q :| 0 <= q < |others| && others[q] == run;
      assert list[q + 1].id == run.id;
    }
  }

  lemma ListedEntry(z: Zone, w: World, id: nat, run: Run)
    requires Inv(z, w) && run.id in w.flows && run == Snapshot(run.id, w.flows[run.id]) && run.id != id
    ensures EntryOk(w, id, run, AttemptCounts(w))
  {
    assert FlowOk(w, w.flows[run.id]);
  }

  lemma DayCovered(z: Zone, day: int, start: int, t: int)
    requires MidnightOnce(z) && RomeTime(z, day, 0) == Some(start) && z.DayOf(t) == day
    ensures start <= t
  {
    DayStartCovers(z, day, start, t);
  }

  lemma ListingView(z: Zone, w: World, id: nat, c: Context, current: Run, runs: seq<Run>, list: seq<Run>)
    requires MidnightOnce(z) && Inv(z, w) && id in w.flows && ContextOk(z, w, id, w.flows[id], c)
    requires CompleteAnswer(w, c.dayStart, runs) && Listing(z, c, current, runs) == Ok(list)
    ensures list != [] && list[0] == current
    ensures forall q :: 1 <= q < |list| ==> EntryOk(w, id, list[q], AttemptCounts(w))
    ensures ListComplete(z, w, id, c, list, AttemptCounts(w))
  {
    hide Inv;
    hide RomeTime;
    hide Zone.DayOf;
    hide MidnightOnce;
    hide MidnightRepeats;
    ListedRuns(z, c, current, runs, list);
    hide Listing;
    forall q | 1 <= q < |list| ensures EntryOk(w, id, list[q], AttemptCounts(w)) {
      assert list[q] in runs;
      ListedEntry(z, w, id, list[q]);
    }
    forall s | s in AttemptCounts(w) && s in w.flows && s != id && w.flows[s].created <= c.now
      ensures (z.DayOf(w.flows[s].created) == c.day && Supportable(w.flows[s])) ==> InList(list, |list|, s)
    {
      if z.DayOf(w.flows[s].created) == c.day && Supportable(w.flows[s]) {
        DayCovered(z, c.day, c.dayStart, w.flows[s].created);
        var run := Snapshot(s, w.flows[s]);
        assert run in runs && Candidate(z, run, c);
      }
    }
  }

  /** The attempt keeps its context, and its view if it had one. */
  ghost predicate SameView(p: Phase, q: Phase) {
    && (p.Ready? || p.Looking?) && (q.Looking? || q.Admitted?) && q.context == p.context
    && (p.Looking? ==> q.seen == p.seen)
  }

  /** Pairs in which the moving attempt is not the observer. */
  lemma OtherObserver(z: Zone, w: World, id: nat, q: Phase, r: nat, i: nat, s: nat, j: nat)
    requires Inv(z, w) && IsRunning(w, id) && SameView(Current(w.flows[id]).phase, q)
    requires Exists(w, r, i) && Exists(w, s, j) && !(r == id && i == |w.flows[id].attempts| - 1)
    ensures var v := WithPhase(w, id, q);
            Exists(v, r, i) && Exists(v, s, j) && ClearedIsDone(z, v, r, i, s, j) && LaterSees(v, r, i, s, j)
  {
    UpdateFacts(w, id, Current(w.flows[id]).(phase := q));
    var v := WithPhase(w, id, q);
    assert ClearedIsDone(z, w, r, i, s, j) && LaterSees(w, r, i, s, j);
    assert SameRun(w.flows[r], v.flows[r]) && SameRun(w.flows[s], v.flows[s]);
  }

  lemma OtherReplay(z: Zone, w: World, id: nat, q: Phase, r: nat, i: nat, j: nat)
    requires Inv(z, w) && IsRunning(w, id) && SameView(Current(w.flows[id]).phase, q)
    requires Exists(w, r, i) && Exists(w, r, j) && !(r == id && i == |w.flows[id].attempts| - 1)
    ensures var v := WithPhase(w, id, q); Exists(v, r, i) && Exists(v, r, j) && NoReplay(v, r, i, j)
  {
    UpdateFacts(w, id, Current(w.flows[id]).(phase := q));
    assert NoReplay(w, r, i, j);
  }

  /** Assembling the pair invariants from what the moving attempt observes. */
  lemma MoverPairs(z: Zone, w: World, id: nat, q: Phase)
    requires Inv(z, w) && IsRunning(w, id) && SameView(Current(w.flows[id]).phase, q)
    requires var v := WithPhase(w, id, q); var last := |w.flows[id].attempts| - 1;
             && Exists(v, id, last)
             && (forall s, j :: Exists(v, s, j) ==>
                   ClearedIsDone(z, v, id, last, s, j) && LaterSees(v, id, last, s, j)
                   && OneSees(v, id, last, s, j))
             && (forall j :: Exists(v, id, j) ==> NoReplay(v, id, last, j))
    ensures Pairs(z, WithPhase(w, id, q))
  {
    var v, last := WithPhase(w, id, q), |w.flows[id].attempts| - 1;
    UpdateFacts(w, id, Current(w.flows[id]).(phase := q));
    forall r, i, s, j | Exists(v, r, i) && Exists(v, s, j)
      ensures ClearedIsDone(z, v, r, i, s, j) && LaterSees(v, r, i, s, j) && OneSees(v, r, i, s, j)
    {
      if r == id && i == last {
      } else {
        OtherObserver(z, w, id, q, r, i, s, j);
        if s == id && j == last {
          assert OneSees(v, id, last, r, i);
        } else {
          assert OneSees(w, r, i, s, j) && SameRun(w.flows[r], v.flows[r]) && SameRun(w.flows[s], v.flows[s]);
        }
      }
    }
    forall r, i, j | Exists(v, r, i) && Exists(v, r, j) ensures NoReplay(v, r, i, j) {
      if r == id && i == last {
      } else {
        OtherReplay(z, w, id, q, r, i, j);
      }
    }
  }

  lemma MoverSingles(z: Zone, w: World, id: nat, q: Phase)
    requires Inv(z, w) && IsRunning(w, id) && SameView(Current(w.flows[id]).phase, q)
    requires var v := WithPhase(w, id, q); var last := |w.flows[id].attempts| - 1;
             Exists(v, id, last) && ViewOk(z, v, id, At(v, id, last))
    ensures Singles(z, WithPhase(w, id, q))
  {
    var v, last := WithPhase(w, id, q), |w.flows[id].attempts| - 1;
    var a := Current(w.flows[id]).(phase := q);
    UpdateFacts(w, id, a);
    UpdateFlows(z, w, id, a);
    assert StepsOk(At(w, id, last)) && ContextOk(z, w, id, w.flows[id], At(w, id, last).phase.context);
    forall s, j | Exists(v, s, j) ensures StepsOk(At(v, s, j)) {
      assert Exists(w, s, j) && StepsOk(At(w, s, j));
    }
    SinglesOf(z, w, v);
  }

  lemma ListedView(z: Zone, w: World, id: nat, q: Phase)
    requires Inv(z, w) && IsRunning(w, id) && SameView(Current(w.flows[id]).phase, q)
    requires q.Looking? && q.next == 0 && q.seen == AttemptCounts(w)
    requires q.list != [] && q.list[0].id == id && forall p :: 1 <= p < |q.list| ==> EntryOk(w, id, q.list[p], q.seen)
    requires ListComplete(z, w, id, q.context, q.list, q.seen)
    ensures var v := WithPhase(w, id, q); var last := |w.flows[id].attempts| - 1;
            Exists(v, id, last) && ViewOk(z, v, id, At(v, id, last))
  {
    var v := WithPhase(w, id, q);
    UpdateFacts(w, id, Current(w.flows[id]).(phase := q));
    forall p | 1 <= p < |q.list| ensures EntryOk(v, id, q.list[p], q.seen) {
      var run := q.list[p];
      assert EntryOk(w, id, run, q.seen) && SameRun(w.flows[run.id], v.flows[run.id]);
    }
  }

  lemma ListedPair(z: Zone, w: World, id: nat, q: Phase, s: nat, j: nat)
    requires Inv(z, w) && IsRunning(w, id) && Current(w.flows[id]).phase.Ready?
    requires SameView(Current(w.flows[id]).phase, q) && Exists(w, s, j)
    requires q.Looking? && q.next == 0 && q.seen == AttemptCounts(w)
    ensures var v := WithPhase(w, id, q); var last := |w.flows[id].attempts| - 1;
            && Exists(v, id, last) && Exists(v, s, j)
            && ClearedIsDone(z, v, id, last, s, j) && LaterSees(v, id, last, s, j) && OneSees(v, id, last, s, j)
  {
    var v, last := WithPhase(w, id, q), |w.flows[id].attempts| - 1;
    UpdateFacts(w, id, Current(w.flows[id]).(phase := q));
    assert ContextOk(z, w, id, w.flows[id], At(w, id, last).phase.context);
    assert SameRun(w.flows[id], v.flows[id]) && SameRun(w.flows[s], v.flows[s]);
    if s != id && At(w, s, j).HasContext() {
      assert ContextOk(z, w, s, w.flows[s], At(w, s, j).phase.context);
      assert LaterSees(w, s, j, id, last);
    }
  }

  lemma ListedKeeps(z: Zone, w: World, id: nat, q: Phase)
    requires Inv(z, w) && IsRunning(w, id) && Current(w.flows[id]).phase.Ready?
    requires SameView(Current(w.flows[id]).phase, q)
    requires q.Looking? && q.next == 0 && q.seen == AttemptCounts(w)
    requires q.list != [] && q.list[0].id == id && forall p :: 1 <= p < |q.list| ==> EntryOk(w, id, q.list[p], q.seen)
    requires ListComplete(z, w, id, q.context, q.list, q.seen)
    ensures Inv(z, WithPhase(w, id, q))
  {
    var v, last := WithPhase(w, id, q), |w.flows[id].attempts| - 1;
    ListedView(z, w, id, q);
    MoverSingles(z, w, id, q);
    UpdateFacts(w, id, Current(w.flows[id]).(phase := q));
    hide Inv;
    hide ClearedIsDone;
    hide LaterSees;
    hide OneSees;
    hide ListComplete;
    hide EntryOk;
    forall s, j | Exists(v, s, j)
      ensures ClearedIsDone(z, v, id, last, s, j) && LaterSees(v, id, last, s, j) && OneSees(v, id, last, s, j)
    {
      ListedPair(z, w, id, q, s, j);
    }
    MoverPairs(z, w, id, q);
    InvOf(z, v);
  }

  lemma InvOf(z: Zone, w: World)
    requires Singles(z, w) && Pairs(z, w)
    ensures Inv(z, w)
  {
  }

  lemma ListKeeps(z: Zone, w: World, id: nat, runs: seq<Run>)
    requires MidnightOnce(z) && Inv(z, w) && IsRunning(w, id) && Current(w.flows[id]).phase.Ready?
    requires CompleteAnswer(w, Current(w.flows[id]).phase.context.dayStart, runs)
    ensures Inv(z, ListedWorld(z, w, id, runs))
  {
    hide Listing;
    var last := |w.flows[id].attempts| - 1;
    var p := At(w, id, last).phase;
    assert ContextOk(z, w, id, w.flows[id], p.context) && ViewOk(z, w, id, At(w, id, last));
    hide Inv;
    hide ListComplete;
    hide EntryOk;
    hide ContextOk;
    match Listing(z, p.context, p.current, runs)
    case Err(_) =>
      GiveUpKeeps(z, w, id);
    case Ok(list) =>
      ListingView(z, w, id, p.context, p.current, runs, list);
      ListedKeeps(z, w, id, Looking(p.context, list, 0, AttemptCounts(w)));
  }

  /** Success of an attempt is visible in its job. */
  lemma SuccessReported(a: Attempt)
    requires StepsOk(a) && a.Succeeded()
    ensures ReportsSuccess(JobOf(a)) && !OutOfOrder(JobOf(a))
  {
    var steps := StepsOf(JobOf(a));
    assert steps == [a.sync.value, a.marker.value];
    assert forall s :: s in steps && SyncSuccess(s) ==> s == a.sync.value;
  }

  lemma JobInList(f: Flow, j: nat)
    requires j < |f.attempts|
    ensures JobOf(f.attempts[j]) in JobsOf(f)
  {
    assert StartedJobs(f)[j] == JobOf(f.attempts[j]);
    assert JobsOf(f)[j] == StartedJobs(f)[j];
  }

  /** A job that counts as successful belongs to an attempt that succeeded, with its sync step. */
  lemma JobFromSuccess(z: Zone, c: Context, a: Attempt)
    requires StepsOk(a) && JobSucceeded(z, JobOf(a), c)
    ensures a.Succeeded() && forall s :: s in StepsOf(JobOf(a)) && SyncSuccess(s) ==> s == a.sync.value
  {
  }

  lemma OrdinaryStart(z: Zone, w: World, s: nat, i: nat, j: nat, c: Context)
    requires Inv(z, w) && Exists(w, s, i) && Exists(w, s, j) && At(w, s, j).Succeeded() && Ordinary(At(w, s, j))
    requires z.DayOf(w.flows[s].created) == c.day && RomeTime(z, c.day, PRIMARY) == Some(c.primaryAt)
    requires JobSucceeded(z, JobOf(At(w, s, i)), c)
    ensures forall t :: t in StepsOf(JobOf(At(w, s, i))) && SyncSuccess(t) && t.started.Some? ==>
              t.started.value >= c.primaryAt
  {
    hide JobSucceeded;
    assert StepsOk(At(w, s, i)) && StepsOk(At(w, s, j));
    JobFromSuccess(z, c, At(w, s, i));
    OneSuccessPerRun(z, w, s, i, j);
    assert ContextOk(z, w, s, w.flows[s], At(w, s, j).phase.context);
  }

  /** The run of an ordinary success never passes as an additional early one. */
  lemma NotAdditional(z: Zone, w: World, s: nat, j: nat, c: Context, run: Run)
    requires Inv(z, w) && Exists(w, s, j) && At(w, s, j).Succeeded() && Ordinary(At(w, s, j))
    requires z.DayOf(w.flows[s].created) == c.day && RomeTime(z, c.day, PRIMARY) == Some(c.primaryAt)
    ensures !AdditionalEarly(z, run, JobsOf(w.flows[s]), c)
  {
    hide JobSucceeded;
    hide Inv;
    hide RomeTime;
    var jobs := JobsOf(w.flows[s]);
    forall job | job in jobs && JobSucceeded(z, job, c)
      ensures forall t :: t in StepsOf(job) && SyncSuccess(t) && t.started.Some? ==> t.started.value >= c.primaryAt
    {
      var i :| 0 <= i < |jobs| && jobs[i] == job;
      if i < |w.flows[s].attempts| {
        assert job == StartedJobs(w.flows[s])[i];
        OrdinaryStart(z, w, s, i, j, c);
      } else {
        assert job == QUEUED;
      }
    }
  }

  /** Reading the jobs of a seen run and going on means that all its seen attempts are over. */
  lemma ReadClears(z: Zone, w: World, id: nat, j: nat)
    requires Inv(z, w) && Enabled(w, ReadJobs(id)) && NextOutcome(z, w, id).Continue?
    requires var p := Current(w.flows[id]).phase; var s := p.list[p.next].id;
             && p.next >= 1 && Ordinary(Current(w.flows[id])) && s in p.seen && j < p.seen[s]
             && z.DayOf(w.flows[s].created) == p.context.day
    ensures var p := Current(w.flows[id]).phase; var s := p.list[p.next].id;
            Exists(w, s, j) && Done(At(w, s, j))
  {
    var last := |w.flows[id].attempts| - 1;
    var x := At(w, id, last);
    var p := x.phase;
    var run := p.list[p.next];
    var s := run.id;
    assert ViewOk(z, w, id, x) && ContextOk(z, w, id, w.flows[id], p.context);
    assert EntryOk(w, id, run, p.seen);
    var y := At(w, s, j);
    JobInList(w.flows[s], j);
    assert StepsOk(y);
    if y.running {
      assert AnyRunning(JobsOf(w.flows[s]));
      RunningStops(z, p.context, run, JobsOf(w.flows[s]));
    }
    if y.Succeeded() && Ordinary(y) {
      NotAdditional(z, w, s, j, p.context, run);
      SuccessReported(y);
      ReportedSuccessStops(z, p.context, run, JobsOf(w.flows[s]), JobOf(y));
    }
  }

  /** Reading the jobs of the own run and going on means that no earlier attempt succeeded. */
  lemma OwnReadClears(z: Zone, w: World, id: nat, j: nat, c: Context, run: Run)
    requires Inv(z, w) && Exists(w, id, j) && run.id == id == c.runId
    requires Examine(z, c, run, JobsOf(w.flows[id])).Continue?
    ensures !At(w, id, j).Succeeded()
  {
    hide Examine;
    var y := At(w, id, j);
    assert StepsOk(y);
    hide Inv;
    JobInList(w.flows[id], j);
    hide JobsOf;
    if y.Succeeded() {
      SuccessReported(y);
      ReportedSuccessStops(z, c, run, JobsOf(w.flows[id]), JobOf(y));
    }
  }

  lemma SeenSame(z: Zone, w: World, id: nat, q: Phase, s: nat, j: nat)
    requires Inv(z, w) && IsRunning(w, id) && Current(w.flows[id]).phase.Looking?
    requires SameView(Current(w.flows[id]).phase, q) && Exists(w, s, j)
    ensures var v := WithPhase(w, id, q); var last := |w.flows[id].attempts| - 1;
            Exists(v, id, last) && Exists(v, s, j) && LaterSees(v, id, last, s, j) && OneSees(v, id, last, s, j)
  {
    var v, last := WithPhase(w, id, q), |w.flows[id].attempts| - 1;
    UpdateFacts(w, id, Current(w.flows[id]).(phase := q));
    assert SameRun(w.flows[id], v.flows[id]) && SameRun(w.flows[s], v.flows[s]);
    assert LaterSees(w, id, last, s, j) && OneSees(w, id, last, s, j);
  }

  lemma LookingView(z: Zone, w: World, id: nat, q: Phase)
    requires Inv(z, w) && IsRunning(w, id) && Current(w.flows[id]).phase.Looking?
    requires SameView(Current(w.flows[id]).phase, q)
    requires q.Looking? ==> q.list == Current(w.flows[id]).phase.list && q.next <= |q.list|
    ensures var v := WithPhase(w, id, q); var last := |w.flows[id].attempts| - 1;
            Exists(v, id, last) && ViewOk(z, v, id, At(v, id, last))
  {
    var v, last := WithPhase(w, id, q), |w.flows[id].attempts| - 1;
    UpdateFacts(w, id, Current(w.flows[id]).(phase := q));
    assert ViewOk(z, w, id, At(w, id, last));
    if q.Looking? {
      forall p | 1 <= p < |q.list| ensures EntryOk(v, id, q.list[p], q.seen) {
        var run := q.list[p];
        assert EntryOk(w, id, run, q.seen) && SameRun(w.flows[run.id], v.flows[run.id]);
      }
    }
  }

  lemma ReadPair(z: Zone, w: World, id: nat, s: nat, j: nat)
    requires Inv(z, w) && Enabled(w, ReadJobs(id)) && Exists(w, s, j)
    requires NextOutcome(z, w, id).Continue?
    ensures var p := Current(w.flows[id]).phase; var last := |w.flows[id].attempts| - 1;
            var v := WithPhase(w, id, p.(next := p.next + 1));
            Exists(v, id, last) && Exists(v, s, j) && ClearedIsDone(z, v, id, last, s, j)
  {
    hide NextOutcome;
    hide JobsOf;
    hide Singles;
    hide Zone.DayOf;
    hide Supportable;
    var last := |w.flows[id].attempts| - 1;
    var x := At(w, id, last);
    var p := x.phase;
    UpdateFacts(w, id, Current(w.flows[id]).(phase := p.(next := p.next + 1)));
    assert ClearedIsDone(z, w, id, last, s, j);
    if s != id && Ordinary(x) && Sees(x, s, j, w.flows[s].created) && z.DayOf(w.flows[s].created) == p.context.day {
      if p.list[p.next].id == s && p.next >= 1 {
        ReadClears(z, w, id, j);
      } else {
        assert InList(p.list, p.next + 1, s) ==> InList(p.list, p.next, s);
      }
    }
  }

  lemma ReadReplay(z: Zone, w: World, id: nat, j: nat)
    requires Inv(z, w) && Enabled(w, ReadJobs(id)) && Exists(w, id, j)
    requires NextOutcome(z, w, id).Continue?
    ensures var p := Current(w.flows[id]).phase; var last := |w.flows[id].attempts| - 1;
            var v := WithPhase(w, id, p.(next := p.next + 1));
            Exists(v, id, last) && Exists(v, id, j) && NoReplay(v, id, last, j)
  {
    var last := |w.flows[id].attempts| - 1;
    var p := At(w, id, last).phase;
    UpdateFacts(w, id, Current(w.flows[id]).(phase := p.(next := p.next + 1)));
    assert ViewOk(z, w, id, At(w, id, last)) && NoReplay(w, id, last, j);
    assert ContextOk(z, w, id, w.flows[id], p.context);
    if p.next == 0 {
      OwnReadClears(z, w, id, j, p.context, p.list[0]);
    }
  }

  lemma ReadOnKeeps(z: Zone, w: World, id: nat)
    requires Inv(z, w) && Enabled(w, ReadJobs(id))
    requires NextOutcome(z, w, id).Continue?
    ensures var p := Current(w.flows[id]).phase; Inv(z, WithPhase(w, id, p.(next := p.next + 1)))
  {
    hide Inv;
    hide ClearedIsDone;
    hide LaterSees;
    hide OneSees;
    hide NoReplay;
    hide NextOutcome;
    hide JobsOf;
    hide ViewOk;
    hide Pairs;
    hide Singles;
    var p, last := Current(w.flows[id]).phase, |w.flows[id].attempts| - 1;
    var q := p.(next := p.next + 1);
    var v := WithPhase(w, id, q);
    UpdateFacts(w, id, Current(w.flows[id]).(phase := q));
    LookingView(z, w, id, q);
    MoverSingles(z, w, id, q);
    forall s, j | Exists(v, s, j)
      ensures ClearedIsDone(z, v, id, last, s, j) && LaterSees(v, id, last, s, j) && OneSees(v, id, last, s, j)
    {
      ReadPair(z, w, id, s, j);
      SeenSame(z, w, id, q, s, j);
    }
    forall j | Exists(v, id, j) ensures NoReplay(v, id, last, j) {
      ReadReplay(z, w, id, j);
    }
    MoverPairs(z, w, id, q);
    InvOf(z, v);
  }

  lemma ConcludePair(z: Zone, w: World, id: nat, s: nat, j: nat)
    requires Inv(z, w) && Enabled(w, Conclude(id)) && Exists(w, s, j)
    ensures var p := Current(w.flows[id]).phase; var last := |w.flows[id].attempts| - 1;
            var v := WithPhase(w, id, Admitted(p.context, p.seen));
            && Exists(v, id, last) && Exists(v, s, j) && ClearedIsDone(z, v, id, last, s, j)
            && (s == id ==> NoReplay(v, id, last, j))
  {
    var last := |w.flows[id].attempts| - 1;
    var p := At(w, id, last).phase;
    var v := WithPhase(w, id, Admitted(p.context, p.seen));
    UpdateFacts(w, id, Current(w.flows[id]).(phase := Admitted(p.context, p.seen)));
    assert SameRun(w.flows[s], v.flows[s]);
    assert ViewOk(z, w, id, At(w, id, last)) && ClearedIsDone(z, w, id, last, s, j);
    if s == id {
      assert NoReplay(w, id, last, j);
    }
    hide Singles;
    hide Pairs;
    hide EntryOk;
    hide ListComplete;
  }

  lemma ConcludeKeeps(z: Zone, w: World, id: nat)
    requires Inv(z, w) && Enabled(w, Conclude(id))
    ensures Inv(z, Take(z, w, Conclude(id)))
  {
    var p, last := Current(w.flows[id]).phase, |w.flows[id].attempts| - 1;
    var q := Admitted(p.context, p.seen);
    var v := WithPhase(w, id, q);
    UpdateFacts(w, id, Current(w.flows[id]).(phase := q));
    LookingView(z, w, id, q);
    MoverSingles(z, w, id, q);
    hide Inv;
    hide ClearedIsDone;
    hide LaterSees;
    hide OneSees;
    hide NoReplay;
    forall s, j | Exists(v, s, j)
      ensures ClearedIsDone(z, v, id, last, s, j) && LaterSees(v, id, last, s, j) && OneSees(v, id, last, s, j)
      ensures s == id ==> NoReplay(v, id, last, j)
    {
      ConcludePair(z, w, id, s, j);
      SeenSame(z, w, id, q, s, j);
    }
    MoverPairs(z, w, id, q);
    InvOf(z, v);
  }

  // ---------- Every step, every run ----------

  lemma SyncStepsOk(z: Zone, w: World, id: nat)
    requires Inv(z, w) && IsRunning(w, id)
    ensures StepsOk(Current(w.flows[id]))
    ensures Current(w.flows[id]).phase.Admitted? ==> Current(w.flows[id]).phase.context.now <= w.clock
  {
    var last := |w.flows[id].attempts| - 1;
    assert StepsOk(At(w, id, last));
    if At(w, id, last).phase.Admitted? {
      assert ContextOk(z, w, id, w.flows[id], At(w, id, last).phase.context);
    }
  }

  lemma StepKeeps(z: Zone, w: World, m: Move)
    requires MidnightOnce(z) && Inv(z, w) && Enabled(w, m)
    ensures Inv(z, Take(z, w, m))
  {
    hide Singles;
    hide Pairs;
    match m
    case Tick(delta) => TickKeeps(z, w, delta);
    case Create(id, event, cron, recovery, technical, early) =>
      CreateKeeps(z, w, id, Flow(event, cron, recovery, technical, early, w.clock, Queued, false, [], false));
    case Requeue(id) =>
      Idle(z, w, id);
      TurnKeeps(z, w, id, Queued, w.flows[id].succeeded);
    case Start(id) =>
      Idle(z, w, id);
      TurnKeeps(z, w, id, InProgress, false);
    case Pick(id) => PickKeeps(z, w, id);
    case Cancel(id) => TurnKeeps(z, w, id, Completed, false);
    case Begin(id) => BeginKeeps(z, w, id);
    case ListRuns(id, runs) => ListKeeps(z, w, id, runs);
    case ReadJobs(id) =>
      if NextOutcome(z, w, id).Continue? {
        ReadOnKeeps(z, w, id);
      } else {
        GiveUpKeeps(z, w, id);
      }
    case Conclude(id) => ConcludeKeeps(z, w, id);
    case GiveUp(id) => GiveUpKeeps(z, w, id);
    case StartSync(id) =>
      SyncStepsOk(z, w, id);
      SamePhaseKeeps(z, w, id, Current(w.flows[id]).(sync := Some(Step(SyncStep, false, false, Some(w.clock), None))));
    case EndSync(id, ok) =>
      SyncStepsOk(z, w, id);
      var a := Current(w.flows[id]);
      SamePhaseKeeps(z, w, id,
        a.(sync := Some(a.sync.value.(completed := true, succeeded := ok, finished := Some(w.clock)))));
    case Mark(id, ok) =>
      SyncStepsOk(z, w, id);
      SamePhaseKeeps(z, w, id,
        Current(w.flows[id]).(marker := Some(Step(MarkerStep, true, ok, Some(w.clock), Some(w.clock)))));
    case End(id, ok) => EndKeeps(z, w, id, ok);
  }

  // ---------- The first state ----------

  ghost predicate Init(w: World) {
    w.flows == map[]
  }

  lemma InitInv(z: Zone, w: World)
    requires Init(w)
    ensures Inv(z, w)
  {
  }

  /** States reachable from the empty history by enabled steps. */
  ghost predicate Reaches(z: Zone, w: World, moves: seq<Move>, v: World)
    decreases |moves|
  {
    if moves == [] then v == w
    else Enabled(w, moves[0]) && Reaches(z, Take(z, w, moves[0]), moves[1..], v)
  }

  lemma {:induction false} ReachableInv(z: Zone, w: World, moves: seq<Move>, v: World)
    requires MidnightOnce(z) && Inv(z, w) && Reaches(z, w, moves, v)
    ensures Inv(z, v)
    decreases |moves|
  {
    hide Inv;
    if moves != [] {
      StepKeeps(z, w, moves[0]);
      ReachableInv(z, Take(z, w, moves[0]), moves[1..], v);
    }
  }

  /** What the guard takes for an ordinary attempt is what its run and the clock say. */
  lemma OrdinaryIff(z: Zone, w: World, r: nat, i: nat)
    requires Inv(z, w) && Exists(w, r, i) && At(w, r, i).HasContext()
    ensures Ordinary(At(w, r, i)) <==> Regular(z, w.flows[r], At(w, r, i))
  {
    var c := At(w, r, i).phase.context;
    assert ContextOk(z, w, r, w.flows[r], c) && StepsOk(At(w, r, i));
    RomeTimeIsLast(z, c.day, PRIMARY);
    hide Pairs;
    hide Zone.Local;
    hide RomeTime;
  }

  /** Safety over every interleaving: two distinct regular attempts of runs created on one Rome day never both
      complete sync and marker, whatever recovery and early runs do. */
  lemma AtMostOneSuccessPerDay(z: Zone, w0: World, moves: seq<Move>, w: World, r: nat, i: nat, s: nat, j: nat)
    requires MidnightOnce(z) && Init(w0) && Reaches(z, w0, moves, w)
    requires Exists(w, r, i) && Exists(w, s, j)
    requires Regular(z, w.flows[r], At(w, r, i)) && Regular(z, w.flows[s], At(w, s, j))
    requires At(w, r, i).Succeeded() && At(w, s, j).Succeeded()
    requires z.DayOf(w.flows[r].created) == z.DayOf(w.flows[s].created)
    ensures r == s && i == j
  {
    InitInv(z, w0);
    ReachableInv(z, w0, moves, w);
    assert StepsOk(At(w, r, i)) && StepsOk(At(w, s, j));
    hide Regular;
    OrdinaryIff(z, w, r, i);
    OrdinaryIff(z, w, s, j);
    if (r, i) != (s, j) {
      AdmittedPair(z, w, r, i, s, j);
    }
  }

  /** Of two admitted regular attempts of one day, one has already ended without success; so no two of them
      are ever running together. */
  lemma SecondAdmissionNeedsFailure(z: Zone, w0: World, moves: seq<Move>, w: World, r: nat, i: nat, s: nat, j: nat)
    requires MidnightOnce(z) && Init(w0) && Reaches(z, w0, moves, w)
    requires Exists(w, r, i) && Exists(w, s, j) && (r, i) != (s, j)
    requires Regular(z, w.flows[r], At(w, r, i)) && Regular(z, w.flows[s], At(w, s, j))
    requires At(w, r, i).phase.Admitted? && At(w, s, j).phase.Admitted?
    requires z.DayOf(w.flows[r].created) == z.DayOf(w.flows[s].created)
    ensures (!At(w, r, i).running && !At(w, r, i).Succeeded()) || (!At(w, s, j).running && !At(w, s, j).Succeeded())
  {
    InitInv(z, w0);
    ReachableInv(z, w0, moves, w);
    hide Inv;
    hide Regular;
    OrdinaryIff(z, w, r, i);
    OrdinaryIff(z, w, s, j);
    AdmittedPair(z, w, r, i, s, j);
  }
}
