/** What a seed run looks for in the cache, what it writes, and which approval it needs, file by file. */
module CsvReading {
  import opened Wrappers
  import opened Sequences
  import opened CsvSeed
  import opened CsvSeedProtocol

  // ---------- The files ----------

  const FILES: seq<Code> := [I1, E0, SP1, D1, F1]

  lemma FiveCodes()
    ensures CODES == FILES && |FILES| == 5
  {
  }

  /** The stored file of one league, under an attempt: the text of the capture with its hash. */
  predicate Stores(s: Snapshot, attempt: nat, code: Code, acquiredAt: int, text: string) {
    s.attempt == attempt && s.code == code && s.acquiredAt == acquiredAt && s.csv == text && s.sha == Sha(text)
  }

  // ---------- The write ----------

  /** A write adds one finished attempt at the time of the capture, and under it the five files in their order. */
  lemma InsertReads(c: Cache, j: Job)
    requires |j.capture.csvs| == 5
    ensures var d := Inserted(c, j); var n := |c.attempts|; var m := |c.snapshots|;
            && |d.attempts| == n + 1 && d.attempts[..n] == c.attempts && d.next == c.next + 1
            && d.attempts[n].id == c.next && d.attempts[n].season == j.season
            && d.attempts[n].requestedAt == j.capture.acquiredAt
            && d.attempts[n].finishedAt == Some(j.capture.acquiredAt) && d.attempts[n].status == Success
            && |d.snapshots| == m + 5 && d.snapshots[..m] == c.snapshots
            && forall i :: 0 <= i < 5 ==>
                 Stores(d.snapshots[m + i], c.next, FILES[i], j.capture.acquiredAt, j.capture.csvs[i])
  {
  }

  // ---------- The inspection ----------

  function Asked(season: int, at: int): Attempt -> bool {
    (a: Attempt) => a.season == season && a.requestedAt == at
  }

  /** Exactly one row of that league, and it is the stored file. */
  predicate HasFile(rows: seq<Snapshot>, code: Code, acquiredAt: int, text: string) {
    var found := Filter(rows, (s: Snapshot) => s.code == code);
    |found| == 1 && found[0].acquiredAt == acquiredAt && found[0].csv == text && found[0].sha == Sha(text)
  }

  /** The five files of the capture and no other row. */
  predicate HasCapture(rows: seq<Snapshot>, acquiredAt: int, csvs: seq<string>)
    requires |csvs| == 5
  {
    && |rows| == 5
    && HasFile(rows, I1, acquiredAt, csvs[0]) && HasFile(rows, E0, acquiredAt, csvs[1])
    && HasFile(rows, SP1, acquiredAt, csvs[2]) && HasFile(rows, D1, acquiredAt, csvs[3])
    && HasFile(rows, F1, acquiredAt, csvs[4])
  }

  lemma FileReads(rows: seq<Snapshot>, j: Job, i: nat)
    requires |j.capture.csvs| == 5 && i < 5
    ensures FileMatches(rows, j, i) <==> HasFile(rows, FILES[i], j.capture.acquiredAt, j.capture.csvs[i])
  {
    FilterCong(rows, OfCode(CODES[i]), (s: Snapshot) => s.code == FILES[i]);
    hide Filter;
  }

  lemma RowsRead(rows: seq<Snapshot>, j: Job)
    requires |j.capture.csvs| == 5
    ensures RowsMatch(rows, j) <==> HasCapture(rows, j.capture.acquiredAt, j.capture.csvs)
  {
    FiveCodes();
    FileReads(rows, j, 0);
    FileReads(rows, j, 1);
    FileReads(rows, j, 2);
    FileReads(rows, j, 3);
    FileReads(rows, j, 4);
    assert FILES[0] == I1 && FILES[1] == E0 && FILES[2] == SP1 && FILES[3] == D1 && FILES[4] == F1;
    hide FileMatches;
    hide HasFile;
  }

  /** One attempt for the season and time of the capture, finished then with success, with the files of the capture. */
  predicate StoredOnce(c: Cache, season: int, at: int, csvs: seq<string>)
    requires |csvs| == 5
  {
    var asked := Filter(c.attempts, Asked(season, at));
    && |asked| == 1 && asked[0].status == Success && asked[0].finishedAt == Some(at)
    && HasCapture(Filter(c.snapshots, (s: Snapshot) => s.attempt == asked[0].id), at, csvs)
  }

  /** A run inserts when nothing was asked for its season and time, leaves the cache when it is stored once, and
      conflicts with anything else. */
  lemma DecideReads(c: Cache, j: Job)
    requires |j.capture.csvs| == 5
    ensures var decision := Decide(Prior(c, j), c, j); var at := j.capture.acquiredAt;
            var unasked := forall a :: a in c.attempts ==> !(a.season == j.season && a.requestedAt == at);
            && (decision == Some(Insert) <==> unasked)
            && (decision == Some(AlreadyPresent) <==> StoredOnce(c, j.season, at, j.capture.csvs))
            && (decision == None <==> !unasked && !StoredOnce(c, j.season, at, j.capture.csvs))
  {
    var prior := Prior(c, j);
    FilterMembers(c.attempts, OfJob(j));
    FilterCong(c.attempts, OfJob(j), Asked(j.season, j.capture.acquiredAt));
    assert prior != [] ==> prior[0] in prior;
    if |prior| == 1 {
      var id := prior[0].id;
      FilterCong(c.snapshots, OfAttempt(id), (s: Snapshot) => s.attempt == id);
      RowsRead(RowsOf(c, id), j);
    }
    hide Filter;
    hide RowsMatch;
    hide HasCapture;
  }

  // ---------- The approval ----------

  /** The approved plan names this run: its target and receipt, its season and time, and the five hashes. */
  predicate Names(content: Content, j: Job, action: Action)
    requires |j.capture.csvs| == 5
  {
    && content.action == action && content.target == j.target && content.receipt == j.receipt
    && content.season == j.season && content.acquiredAt == j.capture.acquiredAt
    && content.files == [(I1, Sha(j.capture.csvs[0])), (E0, Sha(j.capture.csvs[1])), (SP1, Sha(j.capture.csvs[2])),
                         (D1, Sha(j.capture.csvs[3])), (F1, Sha(j.capture.csvs[4]))]
  }

  lemma ContentReads(j: Job, action: Action, content: Content)
    requires |j.capture.csvs| == 5
    ensures content == ContentOf(j, action) <==> Names(content, j, action)
  {
    var files := ContentOf(j, action).files;
    assert files == [(I1, Sha(j.capture.csvs[0])), (E0, Sha(j.capture.csvs[1])), (SP1, Sha(j.capture.csvs[2])),
                     (D1, Sha(j.capture.csvs[3])), (F1, Sha(j.capture.csvs[4]))];
  }

  /** An insert needs a plan of the insert; a capture that is present may have been planned either way. */
  lemma ApprovalReads(j: Job)
    requires |j.capture.csvs| == 5
    ensures Approved(j, ContentOf(j, Insert)) <==> j.expected.Some? && Names(j.expected.value, j, Insert)
    ensures Approved(j, ContentOf(j, AlreadyPresent))
       <==> j.expected.Some? && (Names(j.expected.value, j, Insert) || Names(j.expected.value, j, AlreadyPresent))
  {
    if j.expected.Some? {
      ContentReads(j, Insert, j.expected.value);
      ContentReads(j, AlreadyPresent, j.expected.value);
    }
    assert ContentOf(j, AlreadyPresent).(action := Insert) == ContentOf(j, Insert);
    hide Names;
  }

  /** What becomes of a run after its first inspection: a planning run ends with the plan, an approved one ends where
      its capture is present and goes on to write where nothing was asked; the rest fail. */
  lemma InspectedReads(j: Job, action: Option<Action>)
    requires |j.capture.csvs| == 5
    ensures var phase, plan := Inspected(j, action), j.expected;
            var present := action == Some(AlreadyPresent) && plan.Some?
                           && (Names(plan.value, j, Insert) || Names(plan.value, j, AlreadyPresent));
            var write := action == Some(Insert) && plan.Some? && Names(plan.value, j, Insert);
            && (phase.Finished? && phase.outcome.PlanOnly? <==> action.Some? && plan == None)
            && (phase.Finished? && phase.outcome.PlanOnly? ==> Names(phase.outcome.content, j, action.value))
            && (phase == Finished(Present) <==> present) && (phase == Ready <==> write)
            && (phase == Finished(Failed) <==> action == None || (plan.Some? && !present && !write))
  {
    ApprovalReads(j);
    if action.Some? {
      ContentReads(j, action.value, ContentOf(j, action.value));
    }
    hide Names;
    hide Approved;
  }
}
