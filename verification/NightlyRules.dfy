/** The rules of the guard, one verdict at a time: which runs it reads, what the jobs of one run make it answer,
    and how the answers end in a decision. */
module NightlyRules {
  import opened Wrappers
  import opened Sequences
  import opened RomeClock
  import opened NightlyGuard

  // ---------- The runs of the day ----------

  /** The UTC hour of 03:00 in Rome on the day of t. */
  ghost predicate LegacyHour(z: Zone, t: int, hour: int) {
    exists u :: LastShows(z, z.DayOf(t) * 86_400_000 + 10_800_000, u) && hour == u / 3_600_000 % 24
  }

  /** A manual run, a run of one of the three crons, or one of the cron that meant 03:00 on its day. */
  ghost predicate Supported(z: Zone, run: Run, t: int) {
    run.event == DispatchEvent
    || (run.event == ScheduleEvent
        && (run.cron.NightlyCron? || (run.cron.LegacyCron? && LegacyHour(z, t, run.cron.utcHour))))
  }

  /** Created by now on the day in question. */
  ghost predicate OfToday(z: Zone, run: Run, c: Context) {
    exists t :: run.created == Some(t) && t <= c.now && z.DayOf(t) == c.day && Supported(z, run, t)
  }

  /** Of a kind that counts, without a creation time that has passed. */
  predicate Untimed(run: Run, now: int) {
    (run.event == DispatchEvent || run.event == ScheduleEvent) && !(run.created.Some? && run.created.value <= now)
  }

  /** Of another cron, created by now on a day without 03:00. */
  ghost predicate Unclocked(z: Zone, run: Run, now: int) {
    && run.event == ScheduleEvent && !run.cron.NightlyCron? && run.created.Some? && run.created.value <= now
    && forall u :: z.Local(u) != z.DayOf(run.created.value) * 86_400_000 + 10_800_000
  }

  lemma HourOf(u: int)
    ensures u % DAY / HOUR == u / 3_600_000 % 24
  {
    var h := u / 3_600_000;
    assert h == 24 * (h / 24) + h % 24;
    assert u == 3_600_000 * h + u % 3_600_000;
    assert u == 86_400_000 * (h / 24) + (3_600_000 * (h % 24) + u % 3_600_000);
    Remainder(h / 24, 3_600_000 * (h % 24) + u % 3_600_000);
  }

  lemma Remainder(q: int, r: int)
    requires 0 <= r < 86_400_000
    ensures (86_400_000 * q + r) % 86_400_000 == r
  {
  }

  lemma SupportedIs(z: Zone, run: Run, now: int)
    requires run.created.Some?
    ensures SupportedRun(z, run, now) <==> run.created.value <= now && Supported(z, run, run.created.value)
  {
    var day := z.DayOf(run.created.value);
    var legacy := RomeTime(z, day, LEGACY);
    RomeTimeIsLast(z, day, LEGACY);
    forall u {
      RomeTimeShows(z, day, LEGACY, u);
    }
    if legacy.Some? {
      HourOf(legacy.value);
    }
    hide RomeTime;
    hide Zone.Local;
    hide Zone.DayOf;
    hide Zone.Skipped;
    hide Resolve;
  }

  ghost function Today(z: Zone, c: Context): Run -> bool {
    (run: Run) => OfToday(z, run, c)
  }

  ghost function OthersToday(z: Zone, c: Context): Run -> bool {
    (run: Run) => OfToday(z, run, c) && run.id != c.runId
  }

  lemma CandidateIs(z: Zone, run: Run, c: Context)
    ensures Candidate(z, run, c) <==> OfToday(z, run, c)
    ensures ClockFails(z, run, c.now) <==> Unclocked(z, run, c.now)
    ensures UncertainTime(run, c.now) <==> Untimed(run, c.now)
  {
    if run.created.Some? {
      SupportedIs(z, run, c.now);
      RomeTimeIsLast(z, z.DayOf(run.created.value), LEGACY);
      ClockFailsIs(z, run, c.now);
    }
    hide Supported;
    hide SupportedRun;
    hide RomeTime;
    hide Zone.Local;
    hide Zone.DayOf;
    hide Unclocked;
    hide ClockFails;
  }

  lemma ClockFailsIs(z: Zone, run: Run, now: int)
    requires run.created.Some?
    ensures ClockFails(z, run, now) <==> Unclocked(z, run, now)
  {
    RomeTimeIsLast(z, z.DayOf(run.created.value), LEGACY);
    hide RomeTime;
    hide Zone.Local;
    hide Zone.DayOf;
  }

  /** An early run needs every creation time; the rest of the guard needs 03:00 on the days of other crons, and at
      most twelve runs of today. It reads its own run first, then the others in the order of the listing. */
  lemma ListingReads(z: Zone, c: Context, current: Run, runs: seq<Run>)
    ensures var untimed := c.early && exists run :: run in runs && Untimed(run, c.now);
            var unclocked := exists run :: run in runs && Unclocked(z, run, c.now);
            var many := |Filter(runs, Today(z, c))| > 12;
            && (untimed ==> Listing(z, c, current, runs) == Err(ResponseInvalid))
            && (!untimed && unclocked ==> Listing(z, c, current, runs) == Err(ScheduleUnavailable))
            && (!untimed && !unclocked && many ==> Listing(z, c, current, runs) == Err(HistoryIncomplete))
            && (!untimed && !unclocked && !many ==>
                  Listing(z, c, current, runs) == Ok([current] + Filter(runs, OthersToday(z, c))))
  {
    forall run {
      CandidateIs(z, run, c);
    }
    hide Candidate;
    hide OfToday;
    hide ClockFails;
    hide Unclocked;
    hide UncertainTime;
    hide Untimed;
    FilterCong(runs, IsCandidate(z, c), Today(z, c));
    FilterTwice(runs, IsCandidate(z, c), IsOther(c), OthersToday(z, c));
    hide Filter;
  }

  // ---------- The jobs of one run ----------

  predicate Done(s: Step, name: StepName) {
    s.name == name && s.completed && s.succeeded
  }

  ghost predicate Timely(z: Zone, at: Option<int>, c: Context) {
    exists t :: at == Some(t) && t <= c.now && z.DayOf(t) == c.day
  }

  /** A finished sync has its end today; a successful marker too, with a finished sync of its job before it. */
  ghost predicate Trustworthy(z: Zone, job: Job, c: Context) {
    && (forall s :: s in StepsOf(job) && Done(s, SyncStep) ==> Timely(z, s.finished, c))
    && forall m :: m in StepsOf(job) && m.name == MarkerStep && m.succeeded ==>
         && m.completed && Timely(z, m.finished, c)
         && exists s :: s in StepsOf(job) && Done(s, SyncStep) && s.finished.Some? && m.finished.Some?
                        && s.finished.value <= m.finished.value
  }

  ghost predicate Achieved(job: Job) {
    ReportsSuccess(job) && !OutOfOrder(job)
  }

  lemma TrustworthyIs(z: Zone, job: Job, c: Context)
    ensures Trustworthy(z, job, c) <==> !BadSync(z, job, c) && !BadMarker(z, job, c)
    ensures Trustworthy(z, job, c) ==> (JobSucceeded(z, job, c) <==> Achieved(job))
  {
    if !BadSync(z, job, c) && !BadMarker(z, job, c) {
      RecognisedIff(z, job, c);
    }
    hide ReportsSuccess;
    hide OutOfOrder;
    hide JobSucceeded;
    hide Zone.DayOf;
  }

  /** A manual run created before 03:07. */
  predicate EarlyBird(run: Run, c: Context) {
    run.event == DispatchEvent && run.created.Some? && c.primaryAt > run.created.value
  }

  /** A sync that started between the creation of its run and its own end. */
  predicate Started(run: Run, s: Step) {
    && run.created.Some? && s.started.Some? && s.finished.Some?
    && run.created.value <= s.started.value && s.started.value <= s.finished.value
  }

  lemma StartsIs(run: Run, job: Job)
    ensures BadStart(run, job) <==> exists s :: s in StepsOf(job) && Done(s, SyncStep) && !Started(run, s)
  {
  }

  /** For an ordinary or recovery guard: the run completed a sync that had started before 03:07. */
  ghost predicate Extra(run: Run, jobs: seq<Job>, c: Context) {
    && !c.early && EarlyBird(run, c)
    && exists job, s :: job in jobs && Achieved(job) && s in StepsOf(job) && Done(s, SyncStep)
                        && s.started.Some? && s.started.value < c.primaryAt
  }

  lemma ExtraIs(z: Zone, run: Run, jobs: seq<Job>, c: Context)
    requires forall job :: job in jobs ==> Trustworthy(z, job, c)
    ensures AdditionalEarly(z, run, jobs, c) <==> Extra(run, jobs, c)
    ensures SuccessfulSync(z, jobs, c) <==> exists job :: job in jobs && Achieved(job)
  {
    forall job | job in jobs ensures JobSucceeded(z, job, c) <==> Achieved(job) {
      TrustworthyIs(z, job, c);
    }
    hide JobSucceeded;
    hide Achieved;
    hide Trustworthy;
  }

  // ---------- The verdict on one run ----------

  /** A successful run whose jobs are missing, or have no steps. */
  predicate Incomplete(run: Run, jobs: seq<Job>) {
    && run.status == Completed && run.succeeded
    && (jobs == [] || exists job :: job in jobs && job.steps == None)
  }

  /** What the guard cannot use: untrustworthy jobs, or the impossible start of a success created before 03:07. */
  ghost predicate Unusable(z: Zone, c: Context, run: Run, jobs: seq<Job>) {
    (exists job :: job in jobs && !Trustworthy(z, job, c))
    || (EarlyBird(run, c) && (exists job :: job in jobs && Achieved(job))
        && exists job, s :: job in jobs && s in StepsOf(job) && Done(s, SyncStep) && !Started(run, s))
  }

  /** The day is done: by this very run, or, for an ordinary guard, by another one that was not extra. */
  ghost predicate Succeeded(c: Context, run: Run, jobs: seq<Job>) {
    && (exists job :: job in jobs && Achieved(job))
    && (run.id == c.runId || (!c.early && !c.recovery && !Extra(run, jobs, c)))
  }

  /** Another run is at work. An ordinary guard needs both signs, unless that run was created early. */
  predicate AtWork(c: Context, run: Run, jobs: seq<Job>) {
    && run.id != c.runId
    && ((run.status == InProgress && exists job :: job in jobs && job.status == InProgress)
        || ((c.recovery || c.early || EarlyBird(run, c))
            && (run.status == InProgress || exists job :: job in jobs && job.status == InProgress)))
  }

  /** Another successful run of the day with a successful job of its own, for a recovery to build on. */
  ghost predicate Finished(z: Zone, c: Context, run: Run, jobs: seq<Job>) {
    && run.id != c.runId && run.status == Completed && run.succeeded && !Extra(run, jobs, c)
    && exists job :: job in jobs && job.status == Completed && job.succeeded && Achieved(job)
  }

  lemma FinishedJobs(z: Zone, c: Context, jobs: seq<Job>)
    requires forall job :: job in jobs ==> Trustworthy(z, job, c)
    ensures SuccessfulSync(z, Filter(jobs, IsFinished()), c)
       <==> exists job :: job in jobs && job.status == Completed && job.succeeded && Achieved(job)
  {
    FilterMembers(jobs, IsFinished());
    forall job | job in jobs ensures JobSucceeded(z, job, c) <==> Achieved(job) {
      TrustworthyIs(z, job, c);
    }
    hide JobSucceeded;
    hide Achieved;
    hide Trustworthy;
    hide Filter;
  }

  lemma UnusableIs(z: Zone, c: Context, run: Run, jobs: seq<Job>)
    ensures Unusable(z, c, run, jobs)
       <==> (exists job :: job in jobs && BadSync(z, job, c)) || (exists job :: job in jobs && BadMarker(z, job, c))
            || (CreatedEarly(run, c) && SuccessfulSync(z, jobs, c) && exists job :: job in jobs && BadStart(run, job))
    ensures !Unusable(z, c, run, jobs) ==> forall job :: job in jobs ==> Trustworthy(z, job, c)
  {
    hide *;
    forall job | job in jobs ensures Trustworthy(z, job, c) <==> !BadSync(z, job, c) && !BadMarker(z, job, c) {
      TrustworthyIs(z, job, c);
    }
    EarlyBirdIs(run, c);
    StartsOf(run, jobs);
    if forall job :: job in jobs ==> Trustworthy(z, job, c) {
      ExtraIs(z, run, jobs, c);
    }
    UnusableParts(z, c, run, jobs);
  }

  lemma EarlyBirdIs(run: Run, c: Context)
    ensures EarlyBird(run, c) <==> CreatedEarly(run, c)
  {
  }

  lemma StartsOf(run: Run, jobs: seq<Job>)
    ensures (exists job :: job in jobs && BadStart(run, job))
       <==> exists job, s :: job in jobs && s in StepsOf(job) && Done(s, SyncStep) && !Started(run, s)
  {
    forall job | job in jobs
      ensures BadStart(run, job) <==> exists s :: s in StepsOf(job) && Done(s, SyncStep) && !Started(run, s)
    {
      StartsIs(run, job);
    }
    hide BadStart;
    hide Done;
    hide Started;
    hide StepsOf;
  }

  lemma UnusableParts(z: Zone, c: Context, run: Run, jobs: seq<Job>)
    ensures Unusable(z, c, run, jobs)
       <==> (exists job :: job in jobs && !Trustworthy(z, job, c))
            || (EarlyBird(run, c) && (exists job :: job in jobs && Achieved(job))
                && exists job, s :: job in jobs && s in StepsOf(job) && Done(s, SyncStep) && !Started(run, s))
  {
    hide Trustworthy;
    hide Achieved;
    hide Done;
    hide Started;
    hide StepsOf;
    hide EarlyBird;
  }

  /** With usable jobs, what the guard makes of them. */
  lemma UsableReads(z: Zone, c: Context, run: Run, jobs: seq<Job>)
    requires !Unusable(z, c, run, jobs)
    ensures var done, extra := SuccessfulSync(z, jobs, c), AdditionalEarly(z, run, jobs, c);
            && (Succeeded(c, run, jobs) <==> done && (run.id == c.runId || (!c.early && !c.recovery && !extra)))
            && (Finished(z, c, run, jobs) <==>
                run.id != c.runId && run.status == Completed && run.succeeded && !extra
                && SuccessfulSync(z, Filter(jobs, IsFinished()), c))
    ensures SuccessfulSync(z, Filter(jobs, IsFinished()), c) ==> SuccessfulSync(z, jobs, c)
  {
    UnusableIs(z, c, run, jobs);
    ExtraIs(z, run, jobs, c);
    FinishedJobs(z, c, jobs);
    hide Trustworthy;
    hide Achieved;
    hide SuccessfulSync;
    hide AdditionalEarly;
    hide Extra;
    hide Unusable;
    hide Filter;
  }

  lemma AtWorkIs(c: Context, run: Run, jobs: seq<Job>)
    ensures AtWork(c, run, jobs) <==>
              run.id != c.runId
              && (((c.recovery || c.early || CreatedEarly(run, c)) && (run.status == InProgress || AnyRunning(jobs)))
                  || (run.status == InProgress && AnyRunning(jobs)))
  {
  }

  /** The verdict is the first of these that applies. */
  lemma ExamineReads(z: Zone, c: Context, run: Run, jobs: seq<Job>)
    ensures Examine(z, c, run, jobs)
         == if !run.identityValid then Stop(Fail(IdentityInvalid))
            else if Incomplete(run, jobs) then Stop(Fail(HistoryIncomplete))
            else if Unusable(z, c, run, jobs) then Stop(Fail(ResponseInvalid))
            else if Succeeded(c, run, jobs) then Stop(Refuse(AlreadySucceeded, Some(run.id)))
            else if AtWork(c, run, jobs) then Stop(Refuse(SyncInProgress, Some(run.id)))
            else Continue(Finished(z, c, run, jobs))
  {
    UnusableIs(z, c, run, jobs);
    AtWorkIs(c, run, jobs);
    if !Unusable(z, c, run, jobs) {
      UsableReads(z, c, run, jobs);
    }
    hide BadSync;
    hide BadMarker;
    hide BadStart;
    hide AnyRunning;
    hide CreatedEarly;
    hide Trustworthy;
    hide SuccessfulSync;
    hide AdditionalEarly;
    hide Unusable;
    hide Succeeded;
    hide AtWork;
    hide Finished;
    hide Filter;
  }

  // ---------- From the verdicts to the decision ----------

  /** The verdict on the i-th run, after runs that let the guard continue. */
  ghost predicate FirstStop(z: Zone, c: Context, list: seq<Run>, answers: seq<seq<Job>>, i: nat, d: Decision)
    requires |list| == |answers|
  {
    && i < |list| && Examine(z, c, list[i], answers[i]) == Stop(d)
    && forall k :: 0 <= k < i ==> Examine(z, c, list[k], answers[k]).Continue?
  }

  /** The i-th run is finished, and none before it. */
  ghost predicate FirstFinished(z: Zone, c: Context, list: seq<Run>, answers: seq<seq<Job>>, i: nat)
    requires |list| == |answers|
  {
    && i < |list| && Examine(z, c, list[i], answers[i]) == Continue(true)
    && forall k :: 0 <= k < i ==> Examine(z, c, list[k], answers[k]) == Continue(false)
  }

  /** All runs let the guard continue; if `none`, without one that is finished. */
  ghost predicate AllContinue(z: Zone, c: Context, list: seq<Run>, answers: seq<seq<Job>>, none: bool)
    requires |list| == |answers|
  {
    forall k :: 0 <= k < |list| ==>
      Examine(z, c, list[k], answers[k]).Continue? && (none ==> !Examine(z, c, list[k], answers[k]).completedSuccess)
  }

  /** The scan ends with the first verdict that stops it, or passes and names the first finished run. */
  lemma {:induction false} ScanReads(z: Zone, c: Context, list: seq<Run>, answers: seq<seq<Job>>)
    requires |list| == |answers|
    ensures ScanIs(z, c, list, answers, ScanRuns(z, c, list, answers))
  {
    if list != [] {
      var n := |list| - 1;
      ScanReads(z, c, list[..n], answers[..n]);
      ScanStep(z, c, list, answers);
    }
    hide Examine;
  }

  ghost predicate ScanIs(z: Zone, c: Context, list: seq<Run>, answers: seq<seq<Job>>, scan: Scan)
    requires |list| == |answers|
  {
    && (scan.Stopped? ==> exists i: nat :: FirstStop(z, c, list, answers, i, scan.decision) && i < |list|)
    && (scan.Passed? ==> AllContinue(z, c, list, answers, scan.firstSuccess == None))
    && (scan.Passed? && scan.firstSuccess.Some? ==>
          exists i: nat ::
            FirstFinished(z, c, list, answers, i) && i < |list| && list[i].id == scan.firstSuccess.value)
  }

  lemma Extends(z: Zone, c: Context, list: seq<Run>, answers: seq<seq<Job>>, i: nat, d: Decision)
    requires |list| == |answers| && list != [] && i < |list| - 1
    ensures var n := |list| - 1;
            && list[..n][i] == list[i]
            && (FirstStop(z, c, list[..n], answers[..n], i, d) ==> FirstStop(z, c, list, answers, i, d))
            && (FirstFinished(z, c, list[..n], answers[..n], i) ==> FirstFinished(z, c, list, answers, i))
  {
    hide Examine;
  }

  lemma LastOf(z: Zone, c: Context, list: seq<Run>, answers: seq<seq<Job>>, none: bool)
    requires |list| == |answers| && list != [] && AllContinue(z, c, list[..|list| - 1], answers[..|list| - 1], none)
    ensures var n := |list| - 1; var last := Examine(z, c, list[n], answers[n]);
            && (last.Stop? ==> FirstStop(z, c, list, answers, n, last.decision))
            && (none && last == Continue(true) ==> FirstFinished(z, c, list, answers, n))
            && (last.Continue? ==> AllContinue(z, c, list, answers, none && !last.completedSuccess))
  {
    hide Examine;
    var n := |list| - 1;
    forall k | 0 <= k < n ensures list[..n][k] == list[k] && answers[..n][k] == answers[k] {
    }
  }

  lemma ScanStep(z: Zone, c: Context, list: seq<Run>, answers: seq<seq<Job>>)
    requires |list| == |answers| && list != []
    requires var n := |list| - 1; ScanIs(z, c, list[..n], answers[..n], ScanRuns(z, c, list[..n], answers[..n]))
    ensures ScanIs(z, c, list, answers, ScanRuns(z, c, list, answers))
  {
    var n := |list| - 1;
    var before := ScanRuns(z, c, list[..n], answers[..n]);
    hide Examine;
    hide FirstStop;
    hide FirstFinished;
    hide AllContinue;
    if before.Stopped? {
      var i: nat :| FirstStop(z, c, list[..n], answers[..n], i, before.decision) && i < n;
      Extends(z, c, list, answers, i, before.decision);
    } else {
      LastOf(z, c, list, answers, before.firstSuccess == None);
      if before.firstSuccess.Some? {
        var i: nat :| FirstFinished(z, c, list[..n], answers[..n], i) && i < n
          && list[..n][i].id == before.firstSuccess.value;
        Extends(z, c, list, answers, i, Admit(false, None));
      }
    }
  }

  /** A recovery or early guard that has read all runs looks for another active run: the first one refuses it, or
      makes it fail when it is not a run in progress created by now. */
  lemma {:induction false} ActiveReads(c: Context, first: Option<nat>, active: seq<Run>, i: nat)
    requires i <= |active| && forall k :: 0 <= k < i ==> active[k].id == c.runId
    ensures i == |active| ==> FinishActive(c, first, active) == Admit(c.early, first)
    ensures i < |active| && active[i].id != c.runId ==>
              var run := active[i];
              FinishActive(c, first, active)
              == if run.identityValid && run.status == InProgress && run.created.Some? && run.created.value <= c.now
                 then Refuse(SyncInProgress, Some(run.id)) else Fail(IdentityInvalid)
    decreases |active|
  {
    if i > 0 {
      ActiveReads(c, first, active[1..], i - 1);
    }
  }

  /** An ordinary guard that passes the scan is admitted; a recovery must name a finished run; a recovery or early
      guard reads at most twelve active runs. */
  lemma FinishReads(c: Context, first: Option<nat>, active: seq<Run>)
    ensures !c.recovery && !c.early ==> FinishScan(c, first, active) == Admit(false, None)
    ensures c.recovery && first == None ==> FinishScan(c, first, active) == Refuse(RecoveryRequiresSuccess, None)
    ensures (c.recovery && first.Some?) || (c.early && !c.recovery) ==>
              FinishScan(c, first, active)
              == if |active| >= 13 then Fail(HistoryIncomplete) else FinishActive(c, first, active)
  {
  }

  /** From 03:07 on the flag for an early run changes nothing: a manual run that carries it is decided as one that
      does not. */
  lemma LateFlagIdle(z: Zone, q: Request, current: Run, runs: seq<Run>, answers: seq<seq<Job>>, active: seq<Run>)
    requires q.event == DispatchEvent && !q.recovery && !q.technicalRecovery
    requires !Awaited(z, z.DayOf(q.now) * 86_400_000 + 11_220_000, q.now)
    requires Answered(z, q, current, runs, answers)
    ensures Answered(z, q.(allowEarly := !q.allowEarly), current, runs, answers)
    ensures Decided(z, q.(allowEarly := !q.allowEarly), current, runs, answers, active)
         == Decided(z, q, current, runs, answers, active)
  {
    var p := q.(allowEarly := !q.allowEarly);
    if current.created.Some? {
      RomeTimeIsLast(z, z.DayOf(current.created.value), PRIMARY);
    }
    assert CheckGate(z, p, current) == CheckGate(z, q, current);
    hide CheckGate;
    hide Listing;
    hide ScanRuns;
  }
}
