/** The admission decision of the nightly workflow guard, read by read. */
module NightlyGuard {
  import opened Wrappers
  import opened RomeClock
  import opened Sequences

  datatype Event = ScheduleEvent | DispatchEvent | OtherEvent

  /** The cron named in a run title: one of the three current ones, a legacy "0 H * * *", or none of these. */
  datatype Cron = NightlyCron(index: nat) | LegacyCron(utcHour: int) | UnknownCron

  datatype Status = Queued | InProgress | Completed

  /** Times are None when the metadata holds no valid timestamp. */
  datatype Run = Run(id: nat, identityValid: bool, event: Event, cron: Cron, created: Option<int>,
                     status: Status, succeeded: bool)

  datatype StepName = SyncStep | MarkerStep | OtherStep
  datatype Step = Step(name: StepName, completed: bool, succeeded: bool, started: Option<int>, finished: Option<int>)

  /** `steps` is None when the metadata has no list of steps. */
  datatype Job = Job(status: Status, succeeded: bool, steps: Option<seq<Step>>)

  datatype Request = Request(now: int, runId: nat, event: Event, cron: Cron,
                             recovery: bool, technicalRecovery: bool, allowEarly: bool)

  datatype Reason =
    | StaleCreatedDay | BeforePrimarySchedule | AlreadySucceeded | SyncInProgress | RecoveryRequiresSuccess

  datatype Failure =
    | RecoveryRequiresManual | EarlyRequiresManual | EarlyRecoveryConflict | IdentityInvalid | TriggerInvalid
    | HistoryIncomplete | ResponseInvalid | ScheduleUnavailable

  datatype Decision =
    | Admit(early: bool, afterSuccess: Option<nat>)
    | Refuse(reason: Reason, existing: Option<nat>)
    | Fail(failure: Failure)

  function StepsOf(job: Job): seq<Step> {
    if job.steps.Some? then job.steps.value else []
  }

  // ---------- Before the history is read ----------

  /** What the checks on the request and the run itself establish. */
  datatype Context = Context(now: int, runId: nat, day: int, primaryAt: int, dayStart: int,
                             recovery: bool, early: bool)

  datatype Gate = Open(context: Context) | Shut(decision: Decision)

  function CheckGate(z: Zone, q: Request, current: Run): Gate {
    if q.recovery && q.event != DispatchEvent then Shut(Fail(RecoveryRequiresManual))
    else if q.allowEarly && q.event != DispatchEvent then Shut(Fail(EarlyRequiresManual))
    else if q.allowEarly && (q.recovery || q.technicalRecovery) then Shut(Fail(EarlyRecoveryConflict))
    else if current.id != q.runId || !current.identityValid || current.event != q.event || current.created == None
            || current.created.value > q.now then Shut(Fail(IdentityInvalid))
    else
      var day := z.DayOf(current.created.value);
      var primary := RomeTime(z, day, PRIMARY);
      if primary == None then Shut(Fail(ScheduleUnavailable))
      else
        var early := q.allowEarly && q.now < primary.value;
        if day != z.DayOf(q.now) then Shut(Refuse(StaleCreatedDay, None))
        else if q.event == OtherEvent then Shut(Fail(TriggerInvalid))
        else if q.event == ScheduleEvent && (!q.cron.NightlyCron? || current.cron != q.cron) then
          Shut(Fail(TriggerInvalid))
        else if q.now < primary.value && !early then Shut(Refuse(BeforePrimarySchedule, None))
        else
          var midnight := RomeTime(z, day, 0);
          if midnight == None then Shut(Fail(ScheduleUnavailable))
          else Open(Context(q.now, q.runId, day, primary.value, midnight.value, q.recovery, early))
  }

  /** The flags of a request agree with its event and with each other. */
  predicate FlagsAgree(q: Request) {
    (q.recovery || q.allowEarly ==> q.event == DispatchEvent) && !(q.allowEarly && (q.recovery || q.technicalRecovery))
  }

  /** The run is the one that asks, and it was created by now. */
  predicate Identified(q: Request, run: Run) {
    && run.id == q.runId && run.identityValid && run.event == q.event
    && run.created.Some? && run.created.value <= q.now
  }

  /** A manual run, or a scheduled one whose title names the cron that started it. */
  predicate Triggered(q: Request, run: Run) {
    q.event == DispatchEvent || (q.event == ScheduleEvent && q.cron.NightlyCron? && run.cron == q.cron)
  }

  /** The gate opens exactly for such a run of today, from 03:07 on or by early admission, and the context it
      establishes is that of the request, its clock and its day. */
  lemma GateOpensIff(z: Zone, q: Request, run: Run, c: Context)
    ensures CheckGate(z, q, run) == Open(c) <==>
            && FlagsAgree(q) && Identified(q, run) && Triggered(q, run)
            && z.DayOf(run.created.value) == z.DayOf(q.now) == c.day
            && c.now == q.now && c.runId == q.runId && c.recovery == q.recovery
            && LastShows(z, c.day * 86_400_000 + 11_220_000, c.primaryAt)
            && LastShows(z, c.day * 86_400_000, c.dayStart)
            && (c.early <==> q.allowEarly && Awaited(z, c.day * 86_400_000 + 11_220_000, q.now))
            && (c.early || !Awaited(z, c.day * 86_400_000 + 11_220_000, q.now))
  {
    if LastShows(z, c.day * 86_400_000 + 11_220_000, c.primaryAt) {
      LastAwaited(z, c.day * 86_400_000 + 11_220_000, c.primaryAt, q.now);
    }
    hide Awaited;
    RomeTimeShows(z, c.day, PRIMARY, c.primaryAt);
    RomeTimeShows(z, c.day, 0, c.dayStart);
    hide RomeTime;
    hide Zone.DayOf;
    hide LastShows;
  }

  /** The gate refuses a run exactly when it is of another day, or of today before 03:07 without the early flag. */
  lemma GateRefusesIff(z: Zone, q: Request, run: Run)
    ensures CheckGate(z, q, run) == Shut(Refuse(StaleCreatedDay, None)) <==>
            && FlagsAgree(q) && Identified(q, run) && !z.Skipped(z.DayOf(run.created.value) * 86_400_000 + 11_220_000)
            && z.DayOf(run.created.value) != z.DayOf(q.now)
    ensures CheckGate(z, q, run) == Shut(Refuse(BeforePrimarySchedule, None)) <==>
            && FlagsAgree(q) && Identified(q, run) && Triggered(q, run)
            && z.DayOf(run.created.value) == z.DayOf(q.now) && !q.allowEarly
            && Awaited(z, z.DayOf(q.now) * 86_400_000 + 11_220_000, q.now)
  {
    if run.created.Some? {
      var day := z.DayOf(run.created.value);
      RomeTimeIsLast(z, day, PRIMARY);
      var primary := RomeTime(z, day, PRIMARY);
      if primary.Some? {
        RomeTimeShows(z, day, PRIMARY, primary.value);
        LastAwaited(z, day * 86_400_000 + 11_220_000, primary.value, q.now);
      }
    }
    hide LastShows;
    hide RomeTime;
    hide Zone.Local;
    hide Zone.DayOf;
    hide Zone.Skipped;
  }

  /** It fails for the first thing that is wrong: the flags, the run, a skipped 03:07, the trigger of a run of
      today, a skipped midnight. */
  lemma GateFailsIff(z: Zone, q: Request, run: Run)
    ensures var gate := CheckGate(z, q, run);
            && (gate == Shut(Fail(RecoveryRequiresManual)) <==> q.recovery && q.event != DispatchEvent)
            && (gate == Shut(Fail(EarlyRequiresManual)) <==> q.allowEarly && !q.recovery && q.event != DispatchEvent)
            && (gate == Shut(Fail(EarlyRecoveryConflict)) <==>
                q.allowEarly && (q.recovery || q.technicalRecovery) && q.event == DispatchEvent)
            && (gate == Shut(Fail(IdentityInvalid)) <==> FlagsAgree(q) && !Identified(q, run))
            && (gate == Shut(Fail(TriggerInvalid)) <==>
                && FlagsAgree(q) && Identified(q, run) && !Triggered(q, run)
                && !z.Skipped(z.DayOf(q.now) * 86_400_000 + 11_220_000)
                && z.DayOf(run.created.value) == z.DayOf(q.now))
    ensures CheckGate(z, q, run) == Shut(Fail(ScheduleUnavailable)) ==>
            && FlagsAgree(q) && Identified(q, run)
            && var day := z.DayOf(run.created.value);
               z.Skipped(day * 86_400_000 + 11_220_000) || z.Skipped(day * 86_400_000)
  {
    if run.created.Some? {
      RomeTimeIsLast(z, z.DayOf(run.created.value), PRIMARY);
      RomeTimeIsLast(z, z.DayOf(run.created.value), 0);
    }
    hide RomeTime;
    hide Zone.DayOf;
    hide Zone.Skipped;
    hide Resolve;
  }

  // ---------- The daily candidates ----------

  const LEGACY := TimeOfDay(3, 0)

  /** The legacy comparison asks the clock for 03:00, which may not exist. */
  predicate ClockFails(z: Zone, run: Run, now: int) {
    && run.created.Some? && run.created.value <= now
    && run.event == ScheduleEvent && !run.cron.NightlyCron?
    && RomeTime(z, z.DayOf(run.created.value), LEGACY) == None
  }

  predicate SupportedRun(z: Zone, run: Run, now: int) {
    && run.created.Some? && run.created.value <= now
    && (run.event == DispatchEvent
        || (run.event == ScheduleEvent
            && (run.cron.NightlyCron?
                || (run.cron.LegacyCron?
                    && var legacy := RomeTime(z, z.DayOf(run.created.value), LEGACY);
                       legacy.Some? && run.cron.utcHour == legacy.value % DAY / HOUR))))
  }

  predicate Candidate(z: Zone, run: Run, c: Context) {
    SupportedRun(z, run, c.now) && z.DayOf(run.created.value) == c.day
  }

  function IsCandidate(z: Zone, c: Context): Run -> bool {
    (run: Run) => Candidate(z, run, c)
  }

  function IsOther(c: Context): Run -> bool {
    (run: Run) => run.id != c.runId
  }

  predicate UncertainTime(run: Run, now: int) {
    run.event != OtherEvent && (run.created == None || run.created.value > now)
  }

  /** The runs whose jobs will be read, the current one first; or a failure of the listing. */
  function Listing(z: Zone, c: Context, current: Run, runs: seq<Run>): Result<seq<Run>, Failure> {
    if c.early && exists run :: run in runs && UncertainTime(run, c.now) then Err(ResponseInvalid)
    else if exists run :: run in runs && ClockFails(z, run, c.now) then Err(ScheduleUnavailable)
    else
      var candidates := Filter(runs, IsCandidate(z, c));
      if |candidates| > 12 then Err(HistoryIncomplete)
      else Ok([current] + Filter(candidates, IsOther(c)))
  }

  // ---------- One run and its jobs ----------

  predicate SyncSuccess(s: Step) {
    s.name == SyncStep && s.completed && s.succeeded
  }

  predicate WithinDay(z: Zone, at: Option<int>, c: Context) {
    at.Some? && at.value <= c.now && z.DayOf(at.value) == c.day
  }

  predicate CompletedAs(z: Zone, s: Step, name: StepName, c: Context) {
    s.name == name && s.completed && s.succeeded && WithinDay(z, s.finished, c)
  }

  /** The first step of that name that succeeded today. */
  function FirstCompleted(z: Zone, steps: seq<Step>, name: StepName, c: Context): (r: Option<Step>)
    ensures r.Some? ==> r.value in steps && CompletedAs(z, r.value, name, c)
    ensures r == None ==> forall s :: s in steps ==> !CompletedAs(z, s, name, c)
  {
    if steps == [] then None
    else if CompletedAs(z, steps[0], name, c) then Some(steps[0])
    else FirstCompleted(z, steps[1..], name, c)
  }

  predicate JobSucceeded(z: Zone, job: Job, c: Context) {
    var sync := FirstCompleted(z, StepsOf(job), SyncStep, c);
    var marker := FirstCompleted(z, StepsOf(job), MarkerStep, c);
    sync.Some? && marker.Some? && marker.value.finished.value >= sync.value.finished.value
  }

  predicate SuccessfulSync(z: Zone, jobs: seq<Job>, c: Context) {
    exists job :: job in jobs && JobSucceeded(z, job, c)
  }

  /** A reported success of the sync outside today or after now. */
  predicate BadSync(z: Zone, job: Job, c: Context) {
    exists s :: s in StepsOf(job) && SyncSuccess(s) && !WithinDay(z, s.finished, c)
  }

  /** A reported success of the marker that no earlier success of the sync in its job supports. */
  predicate BadMarker(z: Zone, job: Job, c: Context) {
    exists m :: m in StepsOf(job) && m.name == MarkerStep && m.succeeded
      && (!m.completed || !WithinDay(z, m.finished, c)
          || !exists s :: s in StepsOf(job) && SyncSuccess(s) && s.finished.Some?
                          && s.finished.value <= m.finished.value)
  }

  predicate CreatedEarly(run: Run, c: Context) {
    run.event == DispatchEvent && run.created.Some? && run.created.value < c.primaryAt
  }

  predicate BadStart(run: Run, job: Job) {
    exists s :: s in StepsOf(job) && SyncSuccess(s)
      && (s.started == None || run.created == None || s.started.value < run.created.value
          || s.finished == None || s.started.value > s.finished.value)
  }

  /** An early manual run whose sync really started before 03:07 is additional to the ordinary one. */
  predicate AdditionalEarly(z: Zone, run: Run, jobs: seq<Job>, c: Context) {
    && !c.early && CreatedEarly(run, c)
    && exists job :: job in jobs && JobSucceeded(z, job, c)
         && exists s :: s in StepsOf(job) && SyncSuccess(s) && s.started.Some? && s.started.value < c.primaryAt
  }

  predicate AnyRunning(jobs: seq<Job>) {
    exists job :: job in jobs && job.status == InProgress
  }

  function IsFinished(): Job -> bool {
    (job: Job) => job.status == Completed && job.succeeded
  }

  datatype Outcome = Continue(completedSuccess: bool) | Stop(decision: Decision)

  function Examine(z: Zone, c: Context, run: Run, jobs: seq<Job>): Outcome {
    var same := run.id == c.runId;
    if !run.identityValid then Stop(Fail(IdentityInvalid))
    else if run.status == Completed && run.succeeded
            && (jobs == [] || exists job :: job in jobs && job.steps == None) then Stop(Fail(HistoryIncomplete))
    else if exists job :: job in jobs && BadSync(z, job, c) then Stop(Fail(ResponseInvalid))
    else if exists job :: job in jobs && BadMarker(z, job, c) then Stop(Fail(ResponseInvalid))
    else
      var succeeded := SuccessfulSync(z, jobs, c);
      if CreatedEarly(run, c) && succeeded && exists job :: job in jobs && BadStart(run, job) then
        Stop(Fail(ResponseInvalid))
      else
        var additional := AdditionalEarly(z, run, jobs, c);
        if succeeded && (same || (!c.early && !c.recovery && !additional)) then
          Stop(Refuse(AlreadySucceeded, Some(run.id)))
        else if (c.recovery || c.early || CreatedEarly(run, c)) && !same
                && (run.status == InProgress || AnyRunning(jobs)) then
          Stop(Refuse(SyncInProgress, Some(run.id)))
        else if !same && run.status == InProgress && AnyRunning(jobs) then Stop(Refuse(SyncInProgress, Some(run.id)))
        else
          Continue(succeeded && !additional && !same && run.status == Completed && run.succeeded
                   && SuccessfulSync(z, Filter(jobs, IsFinished()), c))
  }

  // ---------- The scan ----------

  datatype Scan = Passed(firstSuccess: Option<nat>) | Stopped(decision: Decision)

  /** Runs are examined in order; the scan stops at the first refusal or failure. */
  function ScanRuns(z: Zone, c: Context, list: seq<Run>, answers: seq<seq<Job>>): Scan
    requires |list| == |answers|
  {
    if list == [] then Passed(None)
    else
      var n := |list| - 1;
      var before := ScanRuns(z, c, list[..n], answers[..n]);
      if before.Stopped? then before
      else match Examine(z, c, list[n], answers[n])
        case Stop(d) => Stopped(d)
        case Continue(success) =>
          if success && before.firstSuccess == None then Passed(Some(list[n].id)) else before
  }

  function FinishScan(c: Context, firstSuccess: Option<nat>, active: seq<Run>): Decision {
    if !c.recovery && !c.early then Admit(false, None)
    else if c.recovery && firstSuccess == None then Refuse(RecoveryRequiresSuccess, None)
    else if |active| > 12 then Fail(HistoryIncomplete)
    else FinishActive(c, firstSuccess, active)
  }

  /** Any active run but the current one blocks; an uncertain one fails. */
  function FinishActive(c: Context, firstSuccess: Option<nat>, active: seq<Run>): Decision {
    if active == [] then Admit(c.early, firstSuccess)
    else if active[0].id == c.runId then FinishActive(c, firstSuccess, active[1..])
    else if !active[0].identityValid || active[0].status != InProgress || active[0].created == None
            || active[0].created.value > c.now then Fail(IdentityInvalid)
    else Refuse(SyncInProgress, Some(active[0].id))
  }

  /** There is one answer for each listed run, if the guard gets as far as listing. */
  predicate Answered(z: Zone, q: Request, current: Run, runs: seq<Run>, answers: seq<seq<Job>>) {
    var gate := CheckGate(z, q, current);
    gate.Open? ==>
      var listing := Listing(z, gate.context, current, runs);
      listing.Ok? ==> |answers| == |listing.value|
  }

  /** Gates, then the listing, then the scan of its runs, then the checks of recovery and early runs. */
  function Decided(z: Zone, q: Request, current: Run, runs: seq<Run>, answers: seq<seq<Job>>,
                   active: seq<Run>): Decision
    requires Answered(z, q, current, runs, answers)
  {
    match CheckGate(z, q, current)
    case Shut(d) => d
    case Open(c) =>
      match Listing(z, c, current, runs)
      case Err(f) => Fail(f)
      case Ok(list) =>
        match ScanRuns(z, c, list, answers)
        case Stopped(d) => d
        case Passed(first) => FinishScan(c, first, active)
  }

  /** The guard. `answers[i]` is the answer to the i-th job request, in the order of the requests. */
  method GuardNightly(z: Zone, q: Request, current: Run, runs: seq<Run>, answers: seq<seq<Job>>, active: seq<Run>)
    returns (d: Decision)
    requires Answered(z, q, current, runs, answers)
    ensures d == Decided(z, q, current, runs, answers, active)
  {
    hide CheckGate;
    hide Listing;
    hide Examine;
    var gate := CheckGate(z, q, current);
    if gate.Shut? {
      return gate.decision;
    }
    var c := gate.context;
    var listing := Listing(z, c, current, runs);
    if listing.Err? {
      return Fail(listing.error);
    }
    var list := listing.value;
    var completedSuccess: Option<nat> := None;
    for i := 0 to |list|
      invariant ScanRuns(z, c, list[..i], answers[..i]) == Passed(completedSuccess)
    {
      assert list[..i + 1][..i] == list[..i] && answers[..i + 1][..i] == answers[..i];
      var outcome := Examine(z, c, list[i], answers[i]);
      if outcome.Stop? {
        ScanStops(z, c, list, answers, i + 1);
        return outcome.decision;
      }
      if outcome.completedSuccess && completedSuccess == None {
        completedSuccess := Some(list[i].id);
      }
    }
    assert list[..|list|] == list && answers[..|list|] == answers;
    if !c.recovery && !c.early {
      return Admit(false, None);
    }
    if c.recovery && completedSuccess == None {
      return Refuse(RecoveryRequiresSuccess, None);
    }
    if |active| > 12 {
      return Fail(HistoryIncomplete);
    }
    var k := 0;
    while k < |active|
      invariant k <= |active|
      invariant FinishActive(c, completedSuccess, active[k..]) == FinishActive(c, completedSuccess, active)
    {
      var run := active[k];
      if run.id != c.runId {
        if !run.identityValid || run.status != InProgress || run.created == None || run.created.value > c.now {
          return Fail(IdentityInvalid);
        }
        return Refuse(SyncInProgress, Some(run.id));
      }
      k := k + 1;
    }
    return Admit(c.early, completedSuccess);
  }

  lemma {:induction false} ScanStops(z: Zone, c: Context, list: seq<Run>, answers: seq<seq<Job>>, i: nat)
    requires |list| == |answers| && i <= |list| && ScanRuns(z, c, list[..i], answers[..i]).Stopped?
    ensures ScanRuns(z, c, list, answers) == ScanRuns(z, c, list[..i], answers[..i])
    decreases |list|
  {
    if i == |list| {
      assert list[..i] == list && answers[..i] == answers;
    } else {
      var n := |list| - 1;
      assert list[..n][..i] == list[..i] && answers[..n][..i] == answers[..i];
      ScanStops(z, c, list[..n], answers[..n], i);
    }
  }

  // ---------- What passing an examination means ----------

  predicate Successful(s: Step, name: StepName) {
    s.name == name && s.completed && s.succeeded
  }

  /** The first step of that name that is reported successful, whenever it finished. */
  function FirstSuccessful(steps: seq<Step>, name: StepName): (r: Option<Step>)
    ensures r.Some? ==> r.value in steps && Successful(r.value, name)
    ensures r == None <==> forall s :: s in steps ==> !Successful(s, name)
  {
    if steps == [] then None
    else if Successful(steps[0], name) then Some(steps[0])
    else FirstSuccessful(steps[1..], name)
  }

  /** The job metadata shows a successful sync and a successful marker. */
  predicate ReportsSuccess(job: Job) {
    FirstSuccessful(StepsOf(job), SyncStep).Some? && FirstSuccessful(StepsOf(job), MarkerStep).Some?
  }

  /** The first marker finished before the first sync, and after another sync. */
  predicate OutOfOrder(job: Job) {
    var sync, marker := FirstSuccessful(StepsOf(job), SyncStep), FirstSuccessful(StepsOf(job), MarkerStep);
    && sync.Some? && marker.Some? && sync.value.finished.Some? && marker.value.finished.Some?
    && exists s :: s in StepsOf(job) && SyncSuccess(s) && s.finished.Some?
                   && s.finished.value <= marker.value.finished.value < sync.value.finished.value
  }

  /** When every success of a name lies within the day, the search for it finds the first one. */
  lemma {:induction false} FirstIsToday(z: Zone, steps: seq<Step>, name: StepName, c: Context)
    requires forall s :: s in steps && Successful(s, name) ==> WithinDay(z, s.finished, c)
    ensures FirstCompleted(z, steps, name, c) == FirstSuccessful(steps, name)
  {
    hide WithinDay;
    if steps != [] {
      assert steps[0] in steps;
      assert forall s :: s in steps[1..] ==> s in steps;
      FirstIsToday(z, steps[1..], name, c);
    }
  }

  /** Among jobs that do not make the guard fail, exactly those are recognised that report a success in order. */
  lemma RecognisedIff(z: Zone, job: Job, c: Context)
    requires !BadSync(z, job, c) && !BadMarker(z, job, c)
    ensures JobSucceeded(z, job, c) <==> ReportsSuccess(job) && !OutOfOrder(job)
  {
    var steps := StepsOf(job);
    assert forall s :: s in steps && Successful(s, SyncStep) ==> SyncSuccess(s);
    FirstIsToday(z, steps, SyncStep, c);
    FirstIsToday(z, steps, MarkerStep, c);
    hide WithinDay;
  }

  /** So a reported success is recognised or makes the guard fail, unless it is out of order. */
  lemma ReportedSuccessStops(z: Zone, c: Context, run: Run, jobs: seq<Job>, job: Job)
    requires job in jobs && ReportsSuccess(job) && !OutOfOrder(job)
    requires run.id == c.runId || (!c.early && !c.recovery && !AdditionalEarly(z, run, jobs, c))
    ensures Examine(z, c, run, jobs).Stop? && !Examine(z, c, run, jobs).decision.Admit?
  {
    if !BadSync(z, job, c) && !BadMarker(z, job, c) {
      RecognisedIff(z, job, c);
    }
    hide JobSucceeded;
    hide BadSync;
    hide BadMarker;
    hide OutOfOrder;
  }

  /** A success out of order is overlooked: a job whose syncs finished at 10 and at 5, and its marker at 7. */
  lemma OutOfOrderContinues(z: Zone, c: Context, run: Run)
    requires c.now >= 10 && z.DayOf(5) == z.DayOf(7) == z.DayOf(10) == c.day
    requires run.identityValid && run.status == Completed && !run.succeeded && run.event == ScheduleEvent
    ensures var steps := [Step(SyncStep, true, true, Some(1), Some(10)), Step(SyncStep, true, true, Some(1), Some(5)),
                          Step(MarkerStep, true, true, Some(6), Some(7))];
            var job := Job(Completed, false, Some(steps));
            ReportsSuccess(job) && OutOfOrder(job) && Examine(z, c, run, [job]) == Continue(false)
  {
    var slow, quick := Step(SyncStep, true, true, Some(1), Some(10)), Step(SyncStep, true, true, Some(1), Some(5));
    var marker := Step(MarkerStep, true, true, Some(6), Some(7));
    var job := Job(Completed, false, Some([slow, quick, marker]));
    var steps := StepsOf(job);
    hide Zone.DayOf;
    assert forall s :: s in steps <==> s == slow || s == quick || s == marker;
    assert quick in steps && slow in steps;
    assert steps[1..] == [quick, marker] && steps[1..][1..] == [marker];
    assert FirstSuccessful(steps, SyncStep) == Some(slow);
    assert FirstSuccessful([marker], MarkerStep) == Some(marker);
    assert FirstSuccessful([quick, marker], MarkerStep) == Some(marker);
    assert FirstSuccessful(steps, MarkerStep) == Some(marker);
    assert OutOfOrder(job);
    assert !BadSync(z, job, c) && !BadMarker(z, job, c);
    RecognisedIff(z, job, c);
    assert forall j :: j in [job] ==> j == job;
    hide FirstSuccessful;
    hide OutOfOrder;
    hide BadSync;
    hide BadMarker;
    hide JobSucceeded;
  }

  /** A running job of another run that is listed in progress stops the scan. */
  lemma RunningStops(z: Zone, c: Context, run: Run, jobs: seq<Job>)
    requires run.id != c.runId && run.status == InProgress && AnyRunning(jobs)
    ensures Examine(z, c, run, jobs).Stop? && !Examine(z, c, run, jobs).decision.Admit?
  {
  }

  /** A scan that passes has let every run continue, and names a run whose own answer shows a finished success. */
  lemma {:induction false} PassedMeansAllContinue(z: Zone, c: Context, list: seq<Run>, answers: seq<seq<Job>>)
    requires |list| == |answers| && ScanRuns(z, c, list, answers).Passed?
    ensures forall i :: 0 <= i < |list| ==> Examine(z, c, list[i], answers[i]).Continue?
    ensures forall id :: ScanRuns(z, c, list, answers) == Passed(Some(id)) ==>
              exists i :: 0 <= i < |list| && list[i].id == id && Examine(z, c, list[i], answers[i]) == Continue(true)
  {
    if list != [] {
      var n := |list| - 1;
      PassedMeansAllContinue(z, c, list[..n], answers[..n]);
      forall i | 0 <= i < |list| ensures Examine(z, c, list[i], answers[i]).Continue? {
        assert i < n ==> list[..n][i] == list[i] && answers[..n][i] == answers[i];
      }
      forall id | ScanRuns(z, c, list, answers) == Passed(Some(id))
        ensures exists i :: 0 <= i < |list| && list[i].id == id && Examine(z, c, list[i], answers[i]) == Continue(true)
      {
        if ScanRuns(z, c, list[..n], answers[..n]) == Passed(Some(id)) {
          var i :| 0 <= i < n && list[..n][i].id == id
            && Examine(z, c, list[..n][i], answers[..n][i]) == Continue(true);
          assert list[i].id == id;
        }
      }
    }
  }

  lemma {:induction false} OnlyCurrentActive(c: Context, first: Option<nat>, active: seq<Run>)
    requires FinishActive(c, first, active).Admit?
    ensures forall run :: run in active ==> run.id == c.runId
    ensures FinishActive(c, first, active) == Admit(c.early, first)
  {
    if active != [] {
      OnlyCurrentActive(c, first, active[1..]);
    }
  }

  lemma RecoveryContinues(z: Zone, c: Context, run: Run, jobs: seq<Job>)
    requires c.recovery && Examine(z, c, run, jobs).Continue?
    ensures run.id != c.runId ==> run.status != InProgress && !AnyRunning(jobs)
    ensures Examine(z, c, run, jobs).completedSuccess ==>
              run.id != c.runId && run.status == Completed && run.succeeded
              && SuccessfulSync(z, Filter(jobs, IsFinished()), c)
  {
  }

  /** A recovery run is admitted only after the finished success of another run of the day, which it names,
      and only while no other run is active or shows a running job. */
  lemma RecoveryAdmission(z: Zone, c: Context, list: seq<Run>, answers: seq<seq<Job>>, active: seq<Run>,
                          first: Option<nat>)
    requires |list| == |answers| && c.recovery && ScanRuns(z, c, list, answers) == Passed(first)
    requires FinishScan(c, first, active).Admit?
    ensures first.Some? && FinishScan(c, first, active).afterSuccess == first && first.value != c.runId
    ensures exists i :: 0 <= i < |list| && list[i].id == first.value && list[i].status == Completed && list[i].succeeded
              && SuccessfulSync(z, Filter(answers[i], IsFinished()), c)
    ensures forall run :: run in active ==> run.id == c.runId
    ensures forall i :: 0 <= i < |list| && list[i].id != c.runId ==>
              list[i].status != InProgress && !AnyRunning(answers[i])
  {
    hide Examine;
    hide ScanRuns;
    hide SuccessfulSync;
    PassedMeansAllContinue(z, c, list, answers);
    OnlyCurrentActive(c, first, active);
    forall i | 0 <= i < |list| && list[i].id != c.runId
      ensures list[i].status != InProgress && !AnyRunning(answers[i])
    {
      RecoveryContinues(z, c, list[i], answers[i]);
    }
    var i :| 0 <= i < |list| && list[i].id == first.value && Examine(z, c, list[i], answers[i]) == Continue(true);
    RecoveryContinues(z, c, list[i], answers[i]);
  }
}
