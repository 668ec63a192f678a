/** What the guard of one attempt reads during a history, interleaved with anything, and the decision of the
    guard as one procedure on these reads. */
module NightlyReads {
  import opened Wrappers
  import opened RomeClock
  import opened NightlyGuard
  import opened NightlyProtocol
  import opened NightlySafety

  /** The clock and own run of the first read, the listing, the jobs of the listed runs so far. */
  datatype Reads = Reads(opening: Option<(Request, Run)>, runs: Option<seq<Run>>, answers: seq<seq<Job>>)

  const NOTHING := Reads(None, None, [])

  function ReadBy(w: World, id: nat, m: Move, read: Reads): Reads
    requires IsRunning(w, id)
  {
    match m
    case Begin(r) => if r != id then read else read.(opening := Some((RequestOf(w, id), Snapshot(id, w.flows[id]))))
    case ListRuns(r, runs) => if r != id then read else read.(runs := Some(runs))
    case ReadJobs(r) =>
      if r != id then read
      else
        var p := Current(w.flows[id]).phase;
        if p.Looking? && p.next < |p.list| && p.list[p.next].id in w.flows then
          read.(answers := read.answers + [JobsOf(w.flows[p.list[p.next].id])])
        else read
    case _ => read
  }

  /** The attempt is neither ended, given up nor replaced. */
  predicate Leaves(id: nat, m: Move) {
    match m
    case Requeue(r) => r != id
    case Start(r) => r != id
    case Pick(r) => r != id
    case Cancel(r) => r != id
    case GiveUp(r) => r != id
    case End(r, _) => r != id
    case _ => true
  }

  /** A history that leaves the attempt alone, and the reads its guard ends with. */
  ghost predicate ReadsAlong(z: Zone, w: World, id: nat, before: Reads, moves: seq<Move>, v: World, after: Reads)
    decreases |moves|
  {
    if moves == [] then v == w && after == before
    else
      && IsRunning(w, id) && Enabled(w, moves[0]) && Leaves(id, moves[0])
      && ReadsAlong(z, Take(z, w, moves[0]), id, ReadBy(w, id, moves[0], before), moves[1..], v, after)
  }

  /** The gate opened on the first read, and the listing succeeded. */
  ghost predicate Opened(z: Zone, read: Reads, c: Context) {
    read.opening.Some? && CheckGate(z, read.opening.value.0, read.opening.value.1) == Open(c)
  }

  ghost predicate ListedAs(z: Zone, read: Reads, c: Context, list: seq<Run>) {
    && Opened(z, read, c) && read.runs.Some?
    && Listing(z, c, read.opening.value.1, read.runs.value) == Ok(list)
  }

  ghost predicate ScannedTo(z: Zone, read: Reads, c: Context, list: seq<Run>, n: nat) {
    && ListedAs(z, read, c, list) && |read.answers| == n <= |list|
    && ScanRuns(z, c, list[..n], read.answers).Passed?
  }

  /** The reads that made a guard close. */
  ghost predicate Refused(z: Zone, read: Reads) {
    && read.opening.Some?
    && match CheckGate(z, read.opening.value.0, read.opening.value.1)
       case Shut(d) => !d.Admit?
       case Open(c) =>
         && read.runs.Some?
         && match Listing(z, c, read.opening.value.1, read.runs.value)
            case Err(_) => true
            case Ok(list) =>
              |read.answers| <= |list| && ScanRuns(z, c, list[..|read.answers|], read.answers).Stopped?
  }

  /** The phase of the guard is what its reads make of it. */
  ghost predicate Tracks(z: Zone, p: Phase, read: Reads) {
    match p
    case Fresh => read == NOTHING
    case Ready(c, current) =>
      Opened(z, read, c) && current == read.opening.value.1 && read.runs == None && read.answers == []
    case Looking(c, list, next, _) => ScannedTo(z, read, c, list, next)
    case Admitted(c, _) => exists list :: ScannedTo(z, read, c, list, |list|)
    case Closed => Refused(z, read)
  }

  // ---------- One step ----------

  lemma PhaseOfOthers(z: Zone, w: World, id: nat, m: Move)
    requires IsRunning(w, id) && Enabled(w, m) && Leaves(id, m)
    ensures IsRunning(Take(z, w, m), id)
    ensures ((m.Begin? || m.ListRuns? || m.ReadJobs? || m.Conclude?) && m.id == id)
            || Current(Take(z, w, m).flows[id]).phase == Current(w.flows[id]).phase
  {
    hide CheckGate;
    hide Listing;
    hide Examine;
    hide CompleteAnswer;
  }

  lemma ShutNeverAdmits(z: Zone, q: Request, current: Run)
    ensures var gate := CheckGate(z, q, current); gate.Shut? ==> !gate.decision.Admit?
  {
  }

  lemma BeginTracks(z: Zone, w: World, id: nat, read: Reads)
    requires IsRunning(w, id) && Enabled(w, Begin(id)) && Tracks(z, Current(w.flows[id]).phase, read)
    ensures Tracks(z, Current(Take(z, w, Begin(id)).flows[id]).phase, ReadBy(w, id, Begin(id), read))
  {
    ShutNeverAdmits(z, RequestOf(w, id), Snapshot(id, w.flows[id]));
    BegunPhase(z, w, id);
    hide CheckGate;
    hide Listing;
    hide ScanRuns;
    hide JobsOf;
    hide RequestOf;
    hide Snapshot;
    hide ScannedTo;
    hide Begun;
    hide Current;
  }

  lemma BegunPhase(z: Zone, w: World, id: nat)
    requires IsRunning(w, id)
    ensures IsRunning(Begun(z, w, id), id)
    ensures Current(Begun(z, w, id).flows[id]).phase
         == match CheckGate(z, RequestOf(w, id), Snapshot(id, w.flows[id]))
            case Open(c) => Ready(c, Snapshot(id, w.flows[id]))
            case Shut(_) => Closed
  {
    hide CheckGate;
    hide RequestOf;
    hide Snapshot;
  }

  /** What the listing makes of a guard that is ready. */
  function Next(z: Zone, p: Phase, runs: seq<Run>, seen: map<nat, nat>): Phase
    requires p.Ready?
  {
    match Listing(z, p.context, p.current, runs)
    case Ok(list) => Looking(p.context, list, 0, seen)
    case Err(_) => Closed
  }

  lemma ListRead(z: Zone, p: Phase, read: Reads, runs: seq<Run>, seen: map<nat, nat>)
    requires p.Ready? && Tracks(z, p, read)
    ensures Tracks(z, Next(z, p, runs, seen), read.(runs := Some(runs)))
  {
    hide CheckGate;
    hide Listing;
  }

  lemma ListTracks(z: Zone, w: World, id: nat, runs: seq<Run>, read: Reads)
    requires IsRunning(w, id) && Enabled(w, ListRuns(id, runs)) && Tracks(z, Current(w.flows[id]).phase, read)
    ensures Tracks(z, Current(Take(z, w, ListRuns(id, runs)).flows[id]).phase, ReadBy(w, id, ListRuns(id, runs), read))
  {
    hide Listing;
    hide CompleteAnswer;
    hide AttemptCounts;
    hide Tracks;
    ListRead(z, Current(w.flows[id]).phase, read, runs, AttemptCounts(w));
  }

  /** One more answer extends the scan. */
  lemma ScanExtends(z: Zone, c: Context, list: seq<Run>, n: nat, answers: seq<seq<Job>>, jobs: seq<Job>)
    requires n < |list| && |answers| == n && ScanRuns(z, c, list[..n], answers).Passed?
    ensures ScanRuns(z, c, list[..n + 1], answers + [jobs]).Passed? <==> Examine(z, c, list[n], jobs).Continue?
  {
    assert list[..n + 1][..n] == list[..n] && (answers + [jobs])[..n] == answers;
  }

  lemma JobsTrack(z: Zone, w: World, id: nat, read: Reads)
    requires IsRunning(w, id) && Enabled(w, ReadJobs(id)) && Tracks(z, Current(w.flows[id]).phase, read)
    ensures Tracks(z, Current(Take(z, w, ReadJobs(id)).flows[id]).phase, ReadBy(w, id, ReadJobs(id), read))
  {
    var p := Current(w.flows[id]).phase;
    var jobs := JobsOf(w.flows[p.list[p.next].id]);
    hide CheckGate;
    hide Listing;
    hide Examine;
    hide JobsOf;
    JobsRead(z, p, read, jobs);
    hide ScanRuns;
    hide Tracks;
    hide Refused;
    hide ScannedTo;
  }

  /** One more answer, as the guard takes it. */
  lemma JobsRead(z: Zone, p: Phase, read: Reads, jobs: seq<Job>)
    requires p.Looking? && p.next < |p.list| && Tracks(z, p, read)
    ensures Tracks(z, if Examine(z, p.context, p.list[p.next], jobs).Continue? then p.(next := p.next + 1) else Closed,
                   read.(answers := read.answers + [jobs]))
  {
    ScanExtends(z, p.context, p.list, p.next, read.answers, jobs);
    hide CheckGate;
    hide Listing;
    hide Examine;
    hide ScanRuns;
  }

  lemma ConcludeTracks(z: Zone, w: World, id: nat, read: Reads)
    requires IsRunning(w, id) && Enabled(w, Conclude(id)) && Tracks(z, Current(w.flows[id]).phase, read)
    ensures Tracks(z, Current(Take(z, w, Conclude(id)).flows[id]).phase, read)
  {
    var p := Current(w.flows[id]).phase;
    assert ScannedTo(z, read, p.context, p.list, |p.list|);
    hide ScannedTo;
  }

  lemma StepTracks(z: Zone, w: World, id: nat, m: Move, read: Reads)
    requires IsRunning(w, id) && Enabled(w, m) && Leaves(id, m) && Tracks(z, Current(w.flows[id]).phase, read)
    ensures IsRunning(Take(z, w, m), id)
    ensures Tracks(z, Current(Take(z, w, m).flows[id]).phase, ReadBy(w, id, m, read))
  {
    PhaseOfOthers(z, w, id, m);
    hide Take;
    hide Enabled;
    hide Tracks;
    match m
    case Begin(r) => if r == id { BeginTracks(z, w, id, read); }
    case ListRuns(r, runs) => if r == id { ListTracks(z, w, id, runs, read); }
    case ReadJobs(r) => if r == id { JobsTrack(z, w, id, read); }
    case Conclude(r) => if r == id { ConcludeTracks(z, w, id, read); }
    case _ =>
  }

  // ---------- Whole histories ----------

  lemma {:induction false} ReadsTrack(z: Zone, w: World, id: nat, before: Reads, moves: seq<Move>, v: World,
                                      after: Reads)
    requires IsRunning(w, id) && Tracks(z, Current(w.flows[id]).phase, before)
    requires ReadsAlong(z, w, id, before, moves, v, after)
    ensures IsRunning(v, id) && Tracks(z, Current(v.flows[id]).phase, after)
    decreases |moves|
  {
    hide Take;
    hide Enabled;
    hide Tracks;
    hide ReadBy;
    if moves != [] {
      StepTracks(z, w, id, moves[0], before);
      ReadsTrack(z, Take(z, w, moves[0]), id, ReadBy(w, id, moves[0], before), moves[1..], v, after);
    }
  }

  /** Every history that leaves the attempt alone has its reads. */
  lemma {:induction false} ReadsExist(z: Zone, w: World, id: nat, before: Reads, moves: seq<Move>, v: World)
    returns (after: Reads)
    requires IsRunning(w, id) && Reaches(z, w, moves, v) && forall m :: m in moves ==> Leaves(id, m)
    ensures ReadsAlong(z, w, id, before, moves, v, after)
    decreases |moves|
  {
    if moves == [] {
      after := before;
    } else {
      PhaseOfOthers(z, w, id, moves[0]);
      hide Take;
      hide Enabled;
      hide Leaves;
      assert forall m :: m in moves[1..] ==> m in moves;
      after := ReadsExist(z, Take(z, w, moves[0]), id, ReadBy(w, id, moves[0], before), moves[1..], v);
    }
  }

  /** Answers that a guard could get in full: its reads so far, and anything after them. */
  ghost predicate Continues(read: Reads, runs: seq<Run>, answers: seq<seq<Job>>) {
    (read.runs.Some? ==> runs == read.runs.value) && read.answers <= answers
  }

  lemma RefusedIsFinal(z: Zone, read: Reads, runs: seq<Run>, answers: seq<seq<Job>>, active: seq<Run>)
    requires Refused(z, read) && Continues(read, runs, answers)
    requires Answered(z, read.opening.value.0, read.opening.value.1, runs, answers)
    ensures !Decided(z, read.opening.value.0, read.opening.value.1, runs, answers, active).Admit?
  {
    var q, current := read.opening.value.0, read.opening.value.1;
    match CheckGate(z, q, current)
    case Shut(_) =>
    case Open(c) =>
      match Listing(z, c, current, runs)
      case Err(_) =>
      case Ok(list) =>
        var n := |read.answers|;
        assert answers[..n] == read.answers;
        ScanStops(z, c, list, answers, n);
        StopsWithoutAdmission(z, c, list, answers);
  }

  lemma {:induction false} StopsWithoutAdmission(z: Zone, c: Context, list: seq<Run>, answers: seq<seq<Job>>)
    requires |list| == |answers|
    ensures ScanRuns(z, c, list, answers).Stopped? ==> !ScanRuns(z, c, list, answers).decision.Admit?
    decreases |list|
  {
    if list != [] {
      StopsWithoutAdmission(z, c, list[..|list| - 1], answers[..|list| - 1]);
    }
  }

  /** The attempt has started and its guard has not read anything. */
  ghost predicate Unread(w: World, id: nat) {
    IsRunning(w, id) && Current(w.flows[id]).phase.Fresh?
  }

  /** In any history, the guard of an attempt that is left alone admits an ordinary attempt exactly when the
      procedure admits it on the same reads; no continuation of the reads of a closed guard is admitted. */
  lemma AdmittedIffDecided(z: Zone, w: World, id: nat, moves: seq<Move>, v: World, read: Reads,
                           runs: seq<Run>, answers: seq<seq<Job>>, active: seq<Run>)
    requires Unread(w, id) && ReadsAlong(z, w, id, NOTHING, moves, v, read)
    requires !w.flows[id].recovery && !w.flows[id].allowEarly
    requires IsRunning(v, id) && (Current(v.flows[id]).phase.Admitted? || Current(v.flows[id]).phase.Closed?)
    requires Continues(read, runs, answers)
    requires read.opening.Some? ==> Answered(z, read.opening.value.0, read.opening.value.1, runs, answers)
    ensures read.opening.Some?
    ensures Current(v.flows[id]).phase.Admitted? <==>
            Decided(z, read.opening.value.0, read.opening.value.1, runs, answers, active) == Admit(false, None)
  {
    ReadsTrack(z, w, id, NOTHING, moves, v, read);
    OpeningRequest(z, w, id, NOTHING, moves, v, read);
    hide ReadsAlong;
    if Current(v.flows[id]).phase.Closed? {
      RefusedIsFinal(z, read, runs, answers, active);
    } else {
      var c := Current(v.flows[id]).phase.context;
      var list :| ScannedTo(z, read, c, list, |list|);
      PassedIsAdmitted(z, read, c, list, runs, answers, active);
    }
  }

  /** So in every history that reaches a state, whatever the other runs do: the guard of an undisturbed ordinary
      attempt has read something, and it admits exactly when the procedure does on these reads. */
  lemma HistoryDecides(z: Zone, w: World, id: nat, moves: seq<Move>, v: World) returns (read: Reads)
    requires Unread(w, id) && !w.flows[id].recovery && !w.flows[id].allowEarly
    requires Reaches(z, w, moves, v) && forall m :: m in moves ==> Leaves(id, m)
    requires IsRunning(v, id) && (Current(v.flows[id]).phase.Admitted? || Current(v.flows[id]).phase.Closed?)
    ensures ReadsAlong(z, w, id, NOTHING, moves, v, read) && read.opening.Some?
    ensures forall runs, answers, active ::
              Continues(read, runs, answers)
              && Answered(z, read.opening.value.0, read.opening.value.1, runs, answers) ==>
                (Current(v.flows[id]).phase.Admitted? <==>
                 Decided(z, read.opening.value.0, read.opening.value.1, runs, answers, active) == Admit(false, None))
  {
    read := ReadsExist(z, w, id, NOTHING, moves, v);
    ReadsTrack(z, w, id, NOTHING, moves, v, read);
    hide ReadsAlong;
    hide Reaches;
    hide Decided;
    hide Answered;
    hide Leaves;
    forall runs, answers, active |
        Continues(read, runs, answers) && Answered(z, read.opening.value.0, read.opening.value.1, runs, answers)
      ensures Current(v.flows[id]).phase.Admitted? <==>
              Decided(z, read.opening.value.0, read.opening.value.1, runs, answers, active) == Admit(false, None)
    {
      AdmittedIffDecided(z, w, id, moves, v, read, runs, answers, active);
    }
  }

  lemma PassedIsAdmitted(z: Zone, read: Reads, c: Context, list: seq<Run>, runs: seq<Run>, answers: seq<seq<Job>>,
                         active: seq<Run>)
    requires ScannedTo(z, read, c, list, |list|) && Continues(read, runs, answers)
    requires Answered(z, read.opening.value.0, read.opening.value.1, runs, answers)
    requires !read.opening.value.0.recovery && !read.opening.value.0.allowEarly
    ensures Decided(z, read.opening.value.0, read.opening.value.1, runs, answers, active) == Admit(false, None)
  {
    assert answers == read.answers;
    assert list[..|list|] == list;
    OrdinaryGate(z, read.opening.value.0, read.opening.value.1, c);
    hide CheckGate;
    hide Listing;
    hide ScanRuns;
  }

  lemma OrdinaryGate(z: Zone, q: Request, current: Run, c: Context)
    requires CheckGate(z, q, current) == Open(c) && !q.recovery && !q.allowEarly
    ensures !c.recovery && !c.early
  {
  }

  /** The request that a guard reads carries the flags of its run. */
  lemma {:induction false} OpeningRequest(z: Zone, w: World, id: nat, before: Reads, moves: seq<Move>, v: World,
                                          after: Reads)
    requires IsRunning(w, id) && ReadsAlong(z, w, id, before, moves, v, after)
    requires !w.flows[id].recovery && !w.flows[id].allowEarly
    requires before.opening.Some? ==> !before.opening.value.0.recovery && !before.opening.value.0.allowEarly
    ensures after.opening.Some? ==> !after.opening.value.0.recovery && !after.opening.value.0.allowEarly
    decreases |moves|
  {
    if moves != [] {
      FlagsStay(z, w, id, moves[0]);
      PhaseOfOthers(z, w, id, moves[0]);
      hide Take;
      hide Enabled;
      OpeningRequest(z, Take(z, w, moves[0]), id, ReadBy(w, id, moves[0], before), moves[1..], v, after);
    }
  }

  lemma FlagsStay(z: Zone, w: World, id: nat, m: Move)
    requires IsRunning(w, id) && Enabled(w, m)
    ensures id in Take(z, w, m).flows
    ensures Take(z, w, m).flows[id].recovery == w.flows[id].recovery
    ensures Take(z, w, m).flows[id].allowEarly == w.flows[id].allowEarly
  {
    hide CheckGate;
    hide Listing;
    hide Examine;
    hide CompleteAnswer;
  }
}
