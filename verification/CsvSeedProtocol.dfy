/** Any number of seed runs on one cache, interleaved read by read and transaction by transaction. */
module CsvSeedProtocol {
  import opened Wrappers
  import opened Sequences
  import opened CsvSeed

  /** How far a run is. The first inspection reads the attempts and the snapshots in two requests. */
  datatype Phase = Starting | SawAttempts(prior: seq<Attempt>) | Ready | Finished(outcome: Outcome)

  /** `log` lists the runs that have written, in order. */
  datatype World = World(cache: Cache, phases: seq<Phase>, log: seq<nat>)

  datatype Move = ReadAttempts(run: nat) | ReadSnapshots(run: nat) | Transact(run: nat) | Fail(run: nat)

  ghost predicate Jobs(jobs: seq<Job>) {
    forall i :: 0 <= i < |jobs| ==> jobs[i].Valid()
  }

  ghost predicate Init(jobs: seq<Job>, w: World) {
    && Jobs(jobs) && ValidCache(w.cache) && |w.phases| == |jobs| && w.log == []
    && forall i :: 0 <= i < |jobs| ==> w.phases[i] == Starting
  }

  predicate Enabled(jobs: seq<Job>, w: World, m: Move) {
    && m.run < |w.phases|
    && match m
       case ReadAttempts(i) => w.phases[i] == Starting
       case ReadSnapshots(i) => w.phases[i].SawAttempts?
       case Transact(i) => w.phases[i] == Ready
       case Fail(i) => !w.phases[i].Finished?
  }

  /** What a run does after its first inspection. */
  function Inspected(j: Job, action: Option<Action>): Phase
    requires |j.capture.csvs| == |CODES|
  {
    match action
    case None => Finished(Failed)
    case Some(act) =>
      var content := ContentOf(j, act);
      if j.expected == None then Finished(PlanOnly(content))
      else if !Approved(j, content) then Finished(Failed)
      else if act == AlreadyPresent then Finished(Present)
      else Ready
  }

  ghost function Take(jobs: seq<Job>, w: World, m: Move): World
    requires Jobs(jobs) && |w.phases| == |jobs| && Enabled(jobs, w, m)
  {
    var i := m.run;
    match m
    case ReadAttempts(_) => w.(phases := w.phases[i := SawAttempts(Prior(w.cache, jobs[i]))])
    case ReadSnapshots(_) =>
      w.(phases := w.phases[i := Inspected(jobs[i], Decide(w.phases[i].prior, w.cache, jobs[i]))])
    case Transact(_) =>
      var outcome := TransactionOutcome(w.cache, jobs[i]);
      var done := w.(phases := w.phases[i := Finished(outcome)]);
      if outcome == Wrote then done.(cache := Inserted(w.cache, jobs[i]), log := w.log + [i]) else done
    case Fail(_) => w.(phases := w.phases[i := Finished(Failed)])
  }

  ghost predicate Reaches(jobs: seq<Job>, w: World, moves: seq<Move>, v: World)
    requires Jobs(jobs)
    decreases |moves|
  {
    if moves == [] then v == w
    else |w.phases| == |jobs| && Enabled(jobs, w, moves[0]) && Reaches(jobs, Take(jobs, w, moves[0]), moves[1..], v)
  }

  // ---------- The invariant ----------

  /** The cache holds exactly this capture under its key. */
  ghost predicate Holds(c: Cache, j: Job)
    requires j.Valid()
  {
    var prior := Prior(c, j);
    Sound(prior, j) && RowsMatch(RowsOf(c, prior[0].id), j)
  }

  ghost predicate SameCapture(a: Job, b: Job) {
    a.season == b.season && a.capture == b.capture
  }

  ghost predicate LogInv(jobs: seq<Job>, start: Cache, w: World)
    requires Jobs(jobs) && |w.phases| == |jobs|
  {
    && (forall k :: 0 <= k < |w.log| ==> w.log[k] < |jobs| && w.phases[w.log[k]] == Finished(Wrote))
    && (forall i :: 0 <= i < |jobs| && w.phases[i] == Finished(Wrote) ==> i in w.log)
    && (forall a, b :: 0 <= a < b < |w.log| ==> jobs[w.log[a]].Key() != jobs[w.log[b]].Key())
    && (forall k :: 0 <= k < |w.log| ==> Prior(start, jobs[w.log[k]]) == [])
  }

  /** Attempts and snapshots are those of the start, then those of the logged runs. */
  ghost function Replay(jobs: seq<Job>, start: Cache, log: seq<nat>): Cache
    requires Jobs(jobs) && forall k :: 0 <= k < |log| ==> log[k] < |jobs|
  {
    if log == [] then start
    else Inserted(Replay(jobs, start, log[..|log| - 1]), jobs[log[|log| - 1]])
  }

  ghost predicate PhaseInv(jobs: seq<Job>, w: World, i: nat)
    requires Jobs(jobs) && |w.phases| == |jobs| && i < |jobs|
  {
    match w.phases[i]
    case SawAttempts(prior) => prior != [] ==> prior == Prior(w.cache, jobs[i])
    case Ready => jobs[i].expected == Some(ContentOf(jobs[i], Insert))
    case Finished(outcome) => outcome in {Present, Wrote} ==> Holds(w.cache, jobs[i])
    case Starting => true
  }

  ghost predicate Inv(jobs: seq<Job>, start: Cache, w: World)
    requires Jobs(jobs)
  {
    && |w.phases| == |jobs| && ValidCache(w.cache) && LogInv(jobs, start, w)
    && w.cache == Replay(jobs, start, w.log)
    && forall i: nat :: i < |jobs| ==> PhaseInv(jobs, w, i)
  }

  // ---------- One insert ----------

  lemma PriorInserted(c: Cache, j: Job, k: Job)
    requires j.Valid()
    ensures Prior(Inserted(c, j), k) ==
            if j.Key() == k.Key() then Prior(c, k) + [NewAttempt(c.next, j)] else Prior(c, k)
  {
    var a := NewAttempt(c.next, j);
    assert (c.attempts + [a])[..|c.attempts|] == c.attempts;
  }

  lemma RowsInserted(c: Cache, j: Job, id: nat)
    requires j.Valid() && ValidCache(c)
    ensures id < c.next ==> RowsOf(Inserted(c, j), id) == RowsOf(c, id)
    ensures RowsOf(Inserted(c, j), c.next) == Five(c.next, j)
  {
    var five := Five(c.next, j);
    FilterAppend(c.snapshots, five, OfAttempt(id));
    FilterAppend(c.snapshots, five, OfAttempt(c.next));
    if id < c.next {
      FilterNone(five, OfAttempt(id));
    }
    FilterNone(c.snapshots, OfAttempt(c.next));
    FilterAll(five, OfAttempt(c.next));
  }

  lemma FiveOneCode(id: nat, j: Job, i: nat)
    requires j.Valid() && i < |CODES|
    ensures Filter(Five(id, j), OfCode(CODES[i])) == [NewSnapshot(id, j, i)]
  {
    hide Filter;
    var five, p := Five(id, j), OfCode(CODES[i]);
    CodesDistinct(i);
    assert five == five[..i] + ([five[i]] + five[i + 1..]);
    FilterAppend(five[..i], [five[i]] + five[i + 1..], p);
    FilterAppend([five[i]], five[i + 1..], p);
    FilterNone(five[..i], p);
    FilterNone(five[i + 1..], p);
    FilterAll([five[i]], p);
  }

  lemma CodesDistinct(i: nat)
    requires i < |CODES|
    ensures forall k :: 0 <= k < |CODES| && k != i ==> CODES[k] != CODES[i]
  {
  }

  lemma FiveMatch(id: nat, j: Job)
    requires j.Valid()
    ensures RowsMatch(Five(id, j), j)
  {
    forall i: nat | i < |CODES| ensures FileMatches(Five(id, j), j, i) {
      FiveOneCode(id, j, i);
    }
  }

  lemma InsertHolds(c: Cache, j: Job)
    requires j.Valid() && ValidCache(c) && Prior(c, j) == []
    ensures Holds(Inserted(c, j), j) && ValidCache(Inserted(c, j))
    ensures Prior(Inserted(c, j), j) == [NewAttempt(c.next, j)]
    ensures RowsOf(Inserted(c, j), c.next) == Five(c.next, j)
  {
    PriorInserted(c, j, j);
    RowsInserted(c, j, c.next);
    FiveMatch(c.next, j);
  }

  lemma HoldsKept(c: Cache, j: Job, k: Job)
    requires j.Valid() && k.Valid() && ValidCache(c) && Holds(c, k) && Prior(c, j) == []
    ensures Holds(Inserted(c, j), k)
  {
    PriorKey(c, j, k);
    PriorInserted(c, j, k);
    var a := Prior(c, k)[0];
    FilterMembers(c.attempts, OfJob(k));
    assert a in Prior(c, k);
    RowsInserted(c, j, a.id);
  }

  lemma PriorKey(c: Cache, j: Job, k: Job)
    ensures j.Key() == k.Key() ==> Prior(c, j) == Prior(c, k)
  {
    if j.Key() == k.Key() {
      FilterCong(c.attempts, OfJob(j), OfJob(k));
    }
  }

  // ---------- The invariant is kept ----------

  lemma InitInv(jobs: seq<Job>, w: World)
    requires Init(jobs, w)
    ensures Inv(jobs, w.cache, w)
  {
    assert forall i: nat :: i < |jobs| ==> PhaseInv(jobs, w, i);
  }

  /** A step that leaves the cache alone and moves one run to a phase that did not write. */
  lemma QuietStep(jobs: seq<Job>, start: Cache, w: World, i: nat, p: Phase)
    requires Jobs(jobs) && Inv(jobs, start, w) && i < |jobs| && !w.phases[i].Finished? && p != Finished(Wrote)
    requires PhaseInv(jobs, w.(phases := w.phases[i := p]), i)
    ensures Inv(jobs, start, w.(phases := w.phases[i := p]))
  {
    hide Replay;
    hide Holds;
    hide Prior;
    hide Job.Valid;
    var v := w.(phases := w.phases[i := p]);
    forall k: nat | k < |jobs| ensures PhaseInv(jobs, v, k) {
      assert PhaseInv(jobs, w, k);
    }
    assert LogInv(jobs, start, v);
  }

  lemma DecideHolds(c: Cache, j: Job)
    requires j.Valid() && Decide(Prior(c, j), c, j) == Some(AlreadyPresent)
    ensures Holds(c, j)
  {
    hide Prior;
    hide RowsMatch;
  }

  lemma InspectedInv(jobs: seq<Job>, start: Cache, w: World, i: nat)
    requires Jobs(jobs) && Inv(jobs, start, w) && i < |jobs| && w.phases[i].SawAttempts?
    ensures var p := Inspected(jobs[i], Decide(w.phases[i].prior, w.cache, jobs[i]));
            p != Finished(Wrote) && PhaseInv(jobs, w.(phases := w.phases[i := p]), i)
  {
    assert PhaseInv(jobs, w, i);
    var prior := w.phases[i].prior;
    hide Prior;
    hide RowsOf;
    hide RowsMatch;
    hide Replay;
    hide LogInv;
    if prior != [] && Decide(prior, w.cache, jobs[i]) == Some(AlreadyPresent) {
      DecideHolds(w.cache, jobs[i]);
    }
    hide Holds;
  }

  lemma {:induction false} NoneAtStart(jobs: seq<Job>, start: Cache, log: seq<nat>, j: Job)
    requires Jobs(jobs) && (forall k :: 0 <= k < |log| ==> log[k] < |jobs|) && Prior(Replay(jobs, start, log), j) == []
    ensures Prior(start, j) == []
  {
    hide Prior;
    if log != [] {
      var n := |log| - 1;
      PriorInserted(Replay(jobs, start, log[..n]), jobs[log[n]], j);
      NoneAtStart(jobs, start, log[..n], j);
    }
  }

  /** A run whose key is in the cache is not the run that may write now. */
  lemma OtherKey(c: Cache, j: Job, k: Job)
    requires Prior(c, j) == [] && Prior(c, k) != []
    ensures j.Key() != k.Key()
  {
    hide Prior;
    PriorKey(c, j, k);
  }

  lemma HoldsPrior(c: Cache, j: Job)
    requires j.Valid() && Holds(c, j)
    ensures Prior(c, j) != []
  {
    hide Prior;
    hide RowsMatch;
  }

  lemma PhaseAfterInsert(jobs: seq<Job>, w: World, v: World, i: nat, k: nat)
    requires Jobs(jobs) && |w.phases| == |v.phases| == |jobs| && i < |jobs| && k < |jobs|
    requires ValidCache(w.cache) && Prior(w.cache, jobs[i]) == [] && PhaseInv(jobs, w, k)
    requires v.cache == Inserted(w.cache, jobs[i]) && v.phases == w.phases[i := Finished(Wrote)]
    ensures PhaseInv(jobs, v, k)
  {
    hide Prior;
    hide Holds;
    hide Inserted;
    if k == i {
      InsertHolds(w.cache, jobs[i]);
    } else if w.phases[k].SawAttempts? && w.phases[k].prior != [] {
      OtherKey(w.cache, jobs[i], jobs[k]);
      PriorInserted(w.cache, jobs[i], jobs[k]);
    } else if w.phases[k].Finished? && w.phases[k].outcome in {Present, Wrote} {
      HoldsKept(w.cache, jobs[i], jobs[k]);
    }
  }

  lemma LoggedKeysDiffer(jobs: seq<Job>, start: Cache, w: World, j: Job)
    requires Jobs(jobs) && Inv(jobs, start, w) && Prior(w.cache, j) == []
    ensures forall k :: 0 <= k < |w.log| ==> jobs[w.log[k]].Key() != j.Key()
  {
    hide Prior;
    hide Holds;
    hide Replay;
    hide ValidCache;
    hide Job.Key;
    forall k | 0 <= k < |w.log| ensures jobs[w.log[k]].Key() != j.Key() {
      assert PhaseInv(jobs, w, w.log[k]);
      HoldsPrior(w.cache, jobs[w.log[k]]);
      OtherKey(w.cache, j, jobs[w.log[k]]);
    }
  }

  lemma ReplayStep(jobs: seq<Job>, start: Cache, log: seq<nat>, i: nat)
    requires Jobs(jobs) && i < |jobs| && (forall k :: 0 <= k < |log| ==> log[k] < |jobs|)
    ensures Replay(jobs, start, log + [i]) == Inserted(Replay(jobs, start, log), jobs[i])
  {
    hide Inserted;
    assert (log + [i])[..|log|] == log;
  }

  lemma LogAfterInsert(jobs: seq<Job>, start: Cache, w: World, v: World, i: nat)
    requires Jobs(jobs) && Inv(jobs, start, w) && i < |jobs| && Prior(w.cache, jobs[i]) == []
    requires v.phases == w.phases[i := Finished(Wrote)] && v.log == w.log + [i]
    ensures LogInv(jobs, start, v)
    ensures Replay(jobs, start, v.log) == Inserted(w.cache, jobs[i])
  {
    hide Prior;
    hide PhaseInv;
    hide Inserted;
    hide ValidCache;
    hide Job.Key;
    hide Replay;
    NoneAtStart(jobs, start, w.log, jobs[i]);
    LoggedKeysDiffer(jobs, start, w, jobs[i]);
    ReplayStep(jobs, start, w.log, i);
  }

  lemma TransactInv(jobs: seq<Job>, start: Cache, w: World, i: nat)
    requires Jobs(jobs) && Inv(jobs, start, w) && i < |jobs| && w.phases[i] == Ready
    requires TransactionOutcome(w.cache, jobs[i]) == Wrote
    ensures Inv(jobs, start, Take(jobs, w, Transact(i)))
  {
    var v := Take(jobs, w, Transact(i));
    assert Prior(w.cache, jobs[i]) == [] by {
      hide Prior;
    }
    hide Prior;
    hide PhaseInv;
    hide LogInv;
    hide Replay;
    InsertHolds(w.cache, jobs[i]);
    LogAfterInsert(jobs, start, w, v, i);
    forall k: nat | k < |jobs| ensures PhaseInv(jobs, v, k) {
      PhaseAfterInsert(jobs, w, v, i, k);
    }
  }

  lemma StepKeeps(jobs: seq<Job>, start: Cache, w: World, m: Move)
    requires Jobs(jobs) && Inv(jobs, start, w) && Enabled(jobs, w, m)
    ensures Inv(jobs, start, Take(jobs, w, m))
  {
    hide Inserted;
    hide Replay;
    hide LogInv;
    hide Holds;
    hide Prior;
    var i := m.run;
    match m
    case ReadAttempts(_) => QuietStep(jobs, start, w, i, SawAttempts(Prior(w.cache, jobs[i])));
    case ReadSnapshots(_) =>
      InspectedInv(jobs, start, w, i);
      QuietStep(jobs, start, w, i, Inspected(jobs[i], Decide(w.phases[i].prior, w.cache, jobs[i])));
    case Transact(_) =>
      var outcome := TransactionOutcome(w.cache, jobs[i]);
      if outcome == Wrote {
        TransactInv(jobs, start, w, i);
      } else {
        if outcome == Present {
          DecideHolds(w.cache, jobs[i]);
        }
        QuietStep(jobs, start, w, i, Finished(outcome));
      }
    case Fail(_) => QuietStep(jobs, start, w, i, Finished(Failed));
  }

  lemma {:induction false} ReachableInv(jobs: seq<Job>, start: Cache, w: World, moves: seq<Move>, v: World)
    requires Jobs(jobs) && Inv(jobs, start, w) && Reaches(jobs, w, moves, v)
    ensures Inv(jobs, start, v)
    decreases |moves|
  {
    hide Inv;
    hide Take;
    if moves != [] {
      StepKeeps(jobs, start, w, moves[0]);
      ReachableInv(jobs, start, Take(jobs, w, moves[0]), moves[1..], v);
    }
  }

  // ---------- Results over every interleaving ----------

  ghost predicate Ended(w: World, i: nat, outcome: Outcome) {
    i < |w.phases| && w.phases[i] == Finished(outcome)
  }

  /** Two runs with one season and acquisition time never both write, whatever their captures. */
  lemma AtMostOneInsert(jobs: seq<Job>, w0: World, moves: seq<Move>, w: World, i: nat, k: nat)
    requires Init(jobs, w0) && Reaches(jobs, w0, moves, w) && i < |jobs| && k < |jobs|
    requires Ended(w, i, Wrote) && Ended(w, k, Wrote) && jobs[i].Key() == jobs[k].Key()
    ensures i == k
  {
    InitInv(jobs, w0);
    ReachableInv(jobs, w0.cache, w0, moves, w);
    hide Replay;
    hide Prior;
    hide PhaseInv;
    var a :| 0 <= a < |w.log| && w.log[a] == i;
    var b :| 0 <= b < |w.log| && w.log[b] == k;
  }

  lemma FreshRows(c: Cache, j: Job)
    requires j.Valid() && ValidCache(c)
    ensures ValidCache(Inserted(c, j))
  {
  }

  lemma {:induction false} ReplayValid(jobs: seq<Job>, start: Cache, log: seq<nat>)
    requires Jobs(jobs) && ValidCache(start) && (forall k :: 0 <= k < |log| ==> log[k] < |jobs|)
    ensures ValidCache(Replay(jobs, start, log))
  {
    hide ValidCache;
    hide Inserted;
    if log != [] {
      var n := |log| - 1;
      ReplayValid(jobs, start, log[..n]);
      FreshRows(Replay(jobs, start, log[..n]), jobs[log[n]]);
    }
  }

  lemma {:induction false} NoWriter(jobs: seq<Job>, start: Cache, log: seq<nat>, j: Job)
    requires Jobs(jobs) && (forall k :: 0 <= k < |log| ==> log[k] < |jobs| && jobs[log[k]].Key() != j.Key())
    ensures Prior(Replay(jobs, start, log), j) == Prior(start, j)
  {
    hide Prior;
    hide Inserted;
    if log != [] {
      var n := |log| - 1;
      NoWriter(jobs, start, log[..n], j);
      PriorInserted(Replay(jobs, start, log[..n]), jobs[log[n]], j);
    }
  }

  /** Under the key of j the cache holds one attempt and the five snapshots of this writer. */
  ghost predicate WrittenBy(c: Cache, j: Job, writer: Job, id: nat)
    requires writer.Valid()
  {
    id < c.next && Prior(c, j) == [NewAttempt(id, writer)] && RowsOf(c, id) == Five(id, writer)
  }

  lemma {:induction false} WriterContents(jobs: seq<Job>, start: Cache, log: seq<nat>, k: nat, j: Job) returns (id: nat)
    requires Jobs(jobs) && ValidCache(start) && (forall q :: 0 <= q < |log| ==> log[q] < |jobs|)
    requires forall a, b :: 0 <= a < b < |log| ==> jobs[log[a]].Key() != jobs[log[b]].Key()
    requires k < |log| && jobs[log[k]].Key() == j.Key() && Prior(start, j) == []
    ensures WrittenBy(Replay(jobs, start, log), j, jobs[log[k]], id)
    decreases |log|
  {
    hide Prior;
    hide RowsOf;
    hide Five;
    hide Inserted;
    var n := |log| - 1;
    var c, last := Replay(jobs, start, log[..n]), jobs[log[n]];
    ReplayValid(jobs, start, log[..n]);
    PriorInserted(c, last, j);
    if k == n {
      NoWriter(jobs, start, log[..n], j);
      id := c.next;
      RowsInserted(c, last, id);
    } else {
      id := WriterContents(jobs, start, log[..n], k, j);
      RowsInserted(c, last, id);
    }
    NextAfter(c, last);
  }

  lemma NextAfter(c: Cache, j: Job)
    requires j.Valid()
    ensures Inserted(c, j).next == c.next + 1
  {
  }

  /** Once a run has completed successfully, exactly one run has written under its key, and the cache holds one
      attempt for the key with the five snapshots of the writer, whose files are those of the completed run. */
  lemma OneAttemptFiveSnapshots(jobs: seq<Job>, w0: World, moves: seq<Move>, w: World, i: nat)
    returns (writer: nat, id: nat)
    requires Init(jobs, w0) && Reaches(jobs, w0, moves, w) && i < |jobs|
    requires Ended(w, i, Wrote) || Ended(w, i, Present)
    requires Prior(w0.cache, jobs[i]) == []
    ensures writer < |jobs| && Ended(w, writer, Wrote) && SameCapture(jobs[writer], jobs[i])
    ensures WrittenBy(w.cache, jobs[i], jobs[writer], id)
  {
    InitInv(jobs, w0);
    ReachableInv(jobs, w0.cache, w0, moves, w);
    assert PhaseInv(jobs, w, i);
    HoldsPrior(w.cache, jobs[i]);
    hide Prior;
    hide Replay;
    hide RowsOf;
    hide Five;
    hide PhaseInv;
    if forall k :: 0 <= k < |w.log| ==> jobs[w.log[k]].Key() != jobs[i].Key() {
      NoWriter(jobs, w0.cache, w.log, jobs[i]);
      assert false;
    }
    var k :| 0 <= k < |w.log| && jobs[w.log[k]].Key() == jobs[i].Key();
    writer := w.log[k];
    id := WriterContents(jobs, w0.cache, w.log, k, jobs[i]);
    SameFiles(w.cache, jobs[i], jobs[writer], id);
  }

  /** Five snapshots of one writer match another capture only if its files are the same. */
  lemma SameFiles(c: Cache, j: Job, writer: Job, id: nat)
    requires j.Valid() && writer.Valid() && Holds(c, j) && WrittenBy(c, j, writer, id) && j.Key() == writer.Key()
    ensures SameCapture(writer, j)
  {
    forall i: nat | i < |CODES| ensures writer.capture.csvs[i] == j.capture.csvs[i] {
      assert FileMatches(Five(id, writer), j, i);
      FiveOneCode(id, writer, i);
    }
    assert writer.capture.csvs == j.capture.csvs;
  }

  /** A different capture under an occupied key cannot complete: its transaction is a conflict. */
  lemma DifferentCaptureConflicts(c: Cache, j: Job, writer: Job, id: nat)
    requires j.Valid() && writer.Valid() && WrittenBy(c, j, writer, id) && j.Key() == writer.Key()
             && !SameCapture(writer, j)
    ensures Decide(Prior(c, j), c, j) == None && TransactionOutcome(c, j) == Failed
  {
    if Decide(Prior(c, j), c, j) == Some(AlreadyPresent) {
      DecideHolds(c, j);
      SameFiles(c, j, writer, id);
    }
  }

  /** The same capture under an occupied key is found: an approved run ends without writing. */
  lemma SameCaptureFound(c: Cache, j: Job, writer: Job, id: nat)
    requires j.Valid() && writer.Valid() && WrittenBy(c, j, writer, id) && SameCapture(writer, j)
    requires j.expected.Some? && Approved(j, ContentOf(j, AlreadyPresent))
    ensures Inspected(j, Decide(Prior(c, j), c, j)) == Finished(Present) && TransactionOutcome(c, j) == Present
  {
    FiveMatch(id, writer);
    assert RowsMatch(Five(id, writer), j) by {
      forall i: nat | i < |CODES| ensures FileMatches(Five(id, writer), j, i) {
        assert FileMatches(Five(id, writer), writer, i);
      }
    }
  }

  /** No step removes or changes what the cache held. */
  lemma NeverOverwritten(jobs: seq<Job>, w: World, m: Move)
    requires Jobs(jobs) && |w.phases| == |jobs| && Enabled(jobs, w, m)
    ensures w.cache.attempts <= Take(jobs, w, m).cache.attempts && w.cache.snapshots <= Take(jobs, w, m).cache.snapshots
  {
  }

  /** Two approved runs of one capture, interleaved so that both plan before either writes: one writes, the other
      finds the capture present. */
  lemma RaceReachable(j: Job, w0: World) returns (moves: seq<Move>, w: World)
    requires j.Valid() && Init([j, j], w0) && Prior(w0.cache, j) == [] && j.expected == Some(ContentOf(j, Insert))
    ensures Reaches([j, j], w0, moves, w) && Ended(w, 0, Wrote) && Ended(w, 1, Present)
  {
    hide *;
    var jobs := [j, j];
    moves := [ReadAttempts(0), ReadAttempts(1), ReadSnapshots(0), ReadSnapshots(1), Transact(0), Transact(1)];
    var c, saw := w0.cache, SawAttempts([]);
    StartOf(jobs, w0);
    FirstTransaction(c, j);
    SecondTransaction(c, j);
    var w1 := World(c, [saw, Starting], []);
    var w2 := World(c, [saw, saw], []);
    var w3 := World(c, [Ready, saw], []);
    var w4 := World(c, [Ready, Ready], []);
    var w5 := World(Inserted(c, j), [Finished(Wrote), Ready], [0]);
    w := World(Inserted(c, j), [Finished(Wrote), Finished(Present)], [0]);
    ReadStep(jobs, w0, 0, w1);
    ReadStep(jobs, w1, 1, w2);
    PlanStep(jobs, w2, 0, w3);
    PlanStep(jobs, w3, 1, w4);
    WriteStep(jobs, w4, 0, w5);
    FindStep(jobs, w5, 1, w);
    ReachesSix(jobs, w0, moves, w1, w2, w3, w4, w5, w);
    EndedAs(w, 0, Wrote);
    EndedAs(w, 1, Present);
  }

  lemma EndedAs(w: World, i: nat, outcome: Outcome)
    requires i < |w.phases| && w.phases[i] == Finished(outcome)
    ensures Ended(w, i, outcome)
  {
  }

  lemma StartOf(jobs: seq<Job>, w: World)
    requires |jobs| == 2 && Init(jobs, w)
    ensures Jobs(jobs) && ValidCache(w.cache) && w == World(w.cache, [Starting, Starting], [])
    ensures |jobs[0].capture.csvs| == |CODES|
  {
  }

  lemma ReadStep(jobs: seq<Job>, w: World, i: nat, v: World)
    requires Jobs(jobs) && i < |w.phases| == |jobs| && w.phases[i] == Starting && Prior(w.cache, jobs[i]) == []
    requires v == w.(phases := w.phases[i := SawAttempts([])])
    ensures Enabled(jobs, w, ReadAttempts(i)) && v == Take(jobs, w, ReadAttempts(i))
  {
  }

  lemma PlanStep(jobs: seq<Job>, w: World, i: nat, v: World)
    requires Jobs(jobs) && i < |w.phases| == |jobs| && w.phases[i] == SawAttempts([])
    requires Inspected(jobs[i], Decide([], w.cache, jobs[i])) == Ready && v == w.(phases := w.phases[i := Ready])
    ensures Enabled(jobs, w, ReadSnapshots(i)) && v == Take(jobs, w, ReadSnapshots(i))
  {
    hide Decide;
    hide Inspected;
  }

  lemma WriteStep(jobs: seq<Job>, w: World, i: nat, v: World)
    requires Jobs(jobs) && i < |w.phases| == |jobs| && w.phases[i] == Ready
             && TransactionOutcome(w.cache, jobs[i]) == Wrote
    requires v == World(Inserted(w.cache, jobs[i]), w.phases[i := Finished(Wrote)], w.log + [i])
    ensures Enabled(jobs, w, Transact(i)) && v == Take(jobs, w, Transact(i))
  {
    hide TransactionOutcome;
    hide Inserted;
  }

  lemma FindStep(jobs: seq<Job>, w: World, i: nat, v: World)
    requires Jobs(jobs) && i < |w.phases| == |jobs| && w.phases[i] == Ready
             && TransactionOutcome(w.cache, jobs[i]) == Present
    requires v == w.(phases := w.phases[i := Finished(Present)])
    ensures Enabled(jobs, w, Transact(i)) && v == Take(jobs, w, Transact(i))
  {
    hide TransactionOutcome;
  }

  lemma FirstTransaction(c: Cache, j: Job)
    requires j.Valid() && Prior(c, j) == [] && j.expected == Some(ContentOf(j, Insert))
    ensures TransactionOutcome(c, j) == Wrote && Inspected(j, Decide([], c, j)) == Ready
  {
    hide Prior;
    hide ContentOf;
  }

  lemma SecondTransaction(c: Cache, j: Job)
    requires j.Valid() && ValidCache(c) && Prior(c, j) == [] && j.expected == Some(ContentOf(j, Insert))
    ensures TransactionOutcome(Inserted(c, j), j) == Present
  {
    InsertHolds(c, j);
    NextAfter(c, j);
    assert ContentOf(j, AlreadyPresent).(action := Insert) == ContentOf(j, Insert);
    hide Prior;
    hide RowsOf;
    hide Inserted;
    hide ContentOf;
    SameCaptureFound(Inserted(c, j), j, j, c.next);
  }

  lemma ReachesSix(jobs: seq<Job>, w0: World, m: seq<Move>, w1: World, w2: World, w3: World, w4: World, w5: World,
                   w: World)
    requires Jobs(jobs) && |m| == 6
             && |w0.phases| == |w1.phases| == |w2.phases| == |w3.phases| == |w4.phases| == |w5.phases| == |jobs|
    requires Enabled(jobs, w0, m[0]) && w1 == Take(jobs, w0, m[0])
    requires Enabled(jobs, w1, m[1]) && w2 == Take(jobs, w1, m[1])
    requires Enabled(jobs, w2, m[2]) && w3 == Take(jobs, w2, m[2])
    requires Enabled(jobs, w3, m[3]) && w4 == Take(jobs, w3, m[3])
    requires Enabled(jobs, w4, m[4]) && w5 == Take(jobs, w4, m[4])
    requires Enabled(jobs, w5, m[5]) && w == Take(jobs, w5, m[5])
    ensures Reaches(jobs, w0, m, w)
  {
    hide Take;
    hide Enabled;
    var t := m[5..];
    assert t[1..] == [] && Reaches(jobs, w5, t, w);
    assert m[4..][1..] == t && Reaches(jobs, w4, m[4..], w);
    assert m[3..][1..] == m[4..] && Reaches(jobs, w3, m[3..], w);
    assert m[2..][1..] == m[3..] && Reaches(jobs, w2, m[2..], w);
    assert m[1..][1..] == m[2..] && Reaches(jobs, w1, m[1..], w);
  }
}
