/** Many workflow runs over one shared history. Each attempt of a run is marked in progress, then its guard
    reads the clock, lists the runs of the day and reads their jobs one by one, and any of these steps may be
    interleaved with the steps of other runs. */
module NightlyProtocol {
  import opened Wrappers
  import opened RomeClock
  import opened NightlyGuard

  /** Where the guard of an attempt is. `seen` records how many attempts of each run had started when the
      runs were listed; it is a history variable. */
  datatype Phase =
    | Fresh
    | Ready(context: Context, current: Run)
    | Looking(context: Context, list: seq<Run>, next: nat, seen: map<nat, nat>)
    | Admitted(context: Context, seen: map<nat, nat>)
    | Closed

  /** `begun` is what the clock showed when the guard of the attempt read it; it is a history variable. */
  datatype Attempt = Attempt(running: bool, succeeded: bool, phase: Phase, sync: Option<Step>, marker: Option<Step>,
                             begun: Option<int>) {
    predicate HasContext() {
      phase.Ready? || phase.Looking? || phase.Admitted?
    }

    predicate PastListing() {
      phase.Looking? || phase.Admitted?
    }

    /** The sync step and the completion marker both succeeded. */
    predicate Succeeded() {
      sync.Some? && SyncSuccess(sync.value) && marker.Some? && marker.value.succeeded
    }
  }

  /** `attempts` are those whose job has started; `waiting` says that one more job is queued. */
  datatype Flow = Flow(event: Event, cron: Cron, recovery: bool, technicalRecovery: bool, allowEarly: bool,
                       created: int, status: Status, succeeded: bool, attempts: seq<Attempt>, waiting: bool)

  datatype World = World(clock: int, flows: map<nat, Flow>)

  // ---------- What the history shows ----------

  function Listed(s: Option<Step>): seq<Step> {
    if s.Some? then [s.value] else []
  }

  function JobOf(a: Attempt): Job {
    Job(if a.running then InProgress else Completed, a.succeeded, Some(Listed(a.sync) + Listed(a.marker)))
  }

  function StartedJobs(f: Flow): seq<Job> {
    seq(|f.attempts|, k requires 0 <= k < |f.attempts| => JobOf(f.attempts[k]))
  }

  /** All attempts, as the job listing with filter=all returns them, and the queued job. */
  function JobsOf(f: Flow): seq<Job> {
    StartedJobs(f) + if f.waiting then [QUEUED] else []
  }

  const QUEUED: Job := Job(Queued, false, Some([]))

  /** A listing has one job for every attempt, at work or completed, with the steps that have run; and last the job that
      waits, which nothing has happened to. */
  lemma JobsRead(f: Flow, i: nat)
    ensures |JobsOf(f)| == |f.attempts| + if f.waiting then 1 else 0
    ensures i < |f.attempts| ==>
              var a, job := f.attempts[i], JobsOf(f)[i];
              && (job.status == InProgress <==> a.running) && (job.status == Completed <==> !a.running)
              && job.succeeded == a.succeeded && job.steps.Some?
              && multiset(job.steps.value)
                 == (if a.sync.Some? then multiset{a.sync.value} else multiset{})
                    + if a.marker.Some? then multiset{a.marker.value} else multiset{}
    ensures f.waiting ==>
              var job := JobsOf(f)[|f.attempts|];
              job.status == Queued && !job.succeeded && job.steps == Some([])
  {
    if i < |f.attempts| {
      var a := f.attempts[i];
      assert JobsOf(f)[i] == JobOf(a);
    }
  }

  function Snapshot(id: nat, f: Flow): Run {
    Run(id, true, f.event, f.cron, Some(f.created), f.status, f.succeeded)
  }

  function RequestOf(w: World, id: nat): Request
    requires id in w.flows
  {
    var f := w.flows[id];
    Request(w.clock, id, f.event, f.cron, f.recovery, f.technicalRecovery, f.allowEarly)
  }

  /** A complete answer to the listing of runs created since the start of the day. */
  ghost predicate CompleteAnswer(w: World, since: int, runs: seq<Run>) {
    && (forall run :: run in runs ==> run.id in w.flows && run == Snapshot(run.id, w.flows[run.id]))
    && forall id :: id in w.flows && w.flows[id].created >= since ==> Snapshot(id, w.flows[id]) in runs
  }

  // ---------- The steps ----------

  datatype Move =
    | Tick(delta: nat)
    | Create(id: nat, event: Event, cron: Cron, recovery: bool, technicalRecovery: bool, allowEarly: bool)
    | Requeue(id: nat)
    | Start(id: nat)
    | Pick(id: nat)
    | Cancel(id: nat)
    | Begin(id: nat)
    | ListRuns(id: nat, runs: seq<Run>)
    | ReadJobs(id: nat)
    | Conclude(id: nat)
    | GiveUp(id: nat)
    | StartSync(id: nat)
    | EndSync(id: nat, ok: bool)
    | Mark(id: nat, ok: bool)
    | End(id: nat, ok: bool)

  predicate IsRunning(w: World, id: nat) {
    id in w.flows && w.flows[id].attempts != [] && Current(w.flows[id]).running
  }

  function Current(f: Flow): Attempt
    requires f.attempts != []
  {
    f.attempts[|f.attempts| - 1]
  }

  function WithCurrent(w: World, id: nat, a: Attempt): World
    requires IsRunning(w, id)
  {
    var f := w.flows[id];
    w.(flows := w.flows[id := f.(attempts := f.attempts[|f.attempts| - 1 := a])])
  }

  function WithPhase(w: World, id: nat, p: Phase): World
    requires IsRunning(w, id)
  {
    WithCurrent(w, id, Current(w.flows[id]).(phase := p))
  }

  ghost predicate Enabled(w: World, m: Move) {
    match m
    case Tick(_) => true
    case Create(id, _, _, _, _, _) => id !in w.flows
    case Requeue(id) => id in w.flows && w.flows[id].status == Completed
    case Start(id) => id in w.flows && w.flows[id].status == Queued
    case Pick(id) => id in w.flows && w.flows[id].waiting
    case Cancel(id) => id in w.flows && w.flows[id].status != Completed && !IsRunning(w, id)
    case Begin(id) => IsRunning(w, id) && Current(w.flows[id]).phase.Fresh?
    case ListRuns(id, runs) =>
      && IsRunning(w, id) && Current(w.flows[id]).phase.Ready?
      && CompleteAnswer(w, Current(w.flows[id]).phase.context.dayStart, runs)
    case ReadJobs(id) =>
      && IsRunning(w, id) && Current(w.flows[id]).phase.Looking?
      && var p := Current(w.flows[id]).phase; p.next < |p.list| && p.list[p.next].id in w.flows
    case Conclude(id) =>
      && IsRunning(w, id) && Current(w.flows[id]).phase.Looking?
      && var p := Current(w.flows[id]).phase; p.next == |p.list|
    case GiveUp(id) => IsRunning(w, id) && !Current(w.flows[id]).phase.Admitted?
    case StartSync(id) => IsRunning(w, id) && Current(w.flows[id]).phase.Admitted? && Current(w.flows[id]).sync == None
    case EndSync(id, _) =>
      IsRunning(w, id) && Current(w.flows[id]).sync.Some? && !Current(w.flows[id]).sync.value.completed
    case Mark(id, _) =>
      && IsRunning(w, id) && Current(w.flows[id]).sync.Some? && SyncSuccess(Current(w.flows[id]).sync.value)
      && Current(w.flows[id]).marker == None
    case End(id, _) => IsRunning(w, id)
  }

  /** A run changes its state between attempts: queued, in progress with a queued job, or completed. */
  function Turned(w: World, id: nat, status: Status, succeeded: bool): World
    requires id in w.flows
  {
    var f := w.flows[id];
    w.(flows := w.flows[id := f.(status := status, succeeded := succeeded, waiting := status == InProgress)])
  }

  /** The queued job of a run starts. */
  function Picked(w: World, id: nat): World
    requires id in w.flows
  {
    var f := w.flows[id];
    var first := Attempt(true, false, Fresh, None, None, None);
    w.(flows := w.flows[id := f.(waiting := false, attempts := f.attempts + [first])])
  }

  function Ended(w: World, id: nat, ok: bool): World
    requires IsRunning(w, id)
  {
    var f := w.flows[id];
    var last := Current(f).(running := false, succeeded := ok);
    w.(flows := w.flows[id := f.(status := Completed, succeeded := ok,
                                 attempts := f.attempts[|f.attempts| - 1 := last])])
  }

  /** The guard reads the clock and its own run, and checks both. */
  function Begun(z: Zone, w: World, id: nat): World
    requires IsRunning(w, id)
  {
    var current := Snapshot(id, w.flows[id]);
    var a := Current(w.flows[id]).(begun := Some(w.clock));
    match CheckGate(z, RequestOf(w, id), current)
    case Open(c) => WithCurrent(w, id, a.(phase := Ready(c, current)))
    case Shut(_) => WithCurrent(w, id, a.(phase := Closed))
  }

  function AttemptCounts(w: World): map<nat, nat> {
    map s | s in w.flows :: |w.flows[s].attempts|
  }

  function ListedWorld(z: Zone, w: World, id: nat, runs: seq<Run>): World
    requires IsRunning(w, id) && Current(w.flows[id]).phase.Ready?
  {
    var p := Current(w.flows[id]).phase;
    match Listing(z, p.context, p.current, runs)
    case Ok(list) => WithPhase(w, id, Looking(p.context, list, 0, AttemptCounts(w)))
    case Err(_) => WithPhase(w, id, Closed)
  }

  /** What the next job request of the guard of a run makes of the present jobs. */
  function NextOutcome(z: Zone, w: World, id: nat): Outcome
    requires IsRunning(w, id) && Current(w.flows[id]).phase.Looking?
    requires var p := Current(w.flows[id]).phase; p.next < |p.list| && p.list[p.next].id in w.flows
  {
    var p := Current(w.flows[id]).phase;
    Examine(z, p.context, p.list[p.next], JobsOf(w.flows[p.list[p.next].id]))
  }

  /** A recovery or early run reads the active runs before it is admitted; that read can only refuse it,
      so both GiveUp and Conclude are steps of such a run. */
  ghost function Take(z: Zone, w: World, m: Move): World
    requires Enabled(w, m)
  {
    match m
    case Tick(delta) => w.(clock := w.clock + delta)
    case Create(id, event, cron, recovery, technical, early) =>
      w.(flows := w.flows[id := Flow(event, cron, recovery, technical, early, w.clock, Queued, false, [], false)])
    case Requeue(id) => Turned(w, id, Queued, w.flows[id].succeeded)
    case Start(id) => Turned(w, id, InProgress, false)
    case Pick(id) => Picked(w, id)
    case Cancel(id) => Turned(w, id, Completed, false)
    case Begin(id) => Begun(z, w, id)
    case ListRuns(id, runs) => ListedWorld(z, w, id, runs)
    case ReadJobs(id) =>
      var p := Current(w.flows[id]).phase;
      WithPhase(w, id, if NextOutcome(z, w, id).Continue? then p.(next := p.next + 1) else Closed)
    case Conclude(id) =>
      var p := Current(w.flows[id]).phase;
      WithPhase(w, id, Admitted(p.context, p.seen))
    case GiveUp(id) => WithPhase(w, id, Closed)
    case StartSync(id) =>
      WithCurrent(w, id, Current(w.flows[id]).(sync := Some(Step(SyncStep, false, false, Some(w.clock), None))))
    case EndSync(id, ok) =>
      var a := Current(w.flows[id]);
      WithCurrent(w, id, a.(sync := Some(a.sync.value.(completed := true, succeeded := ok, finished := Some(w.clock)))))
    case Mark(id, ok) =>
      var marker := Step(MarkerStep, true, ok, Some(w.clock), Some(w.clock));
      WithCurrent(w, id, Current(w.flows[id]).(marker := Some(marker)))
    case End(id, ok) => Ended(w, id, ok)
  }
}
