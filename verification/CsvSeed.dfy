/** Seeding the nightly CSV cache with one verified capture: plan, recheck under the write lock, insert. */
module CsvSeed {
  import opened Wrappers
  import opened Sequences

  // ---------- The cache and the capture ----------

  /** An ideal hash: equal digests mean equal texts. */
  datatype Digest = Sha(text: string)

  datatype Code = I1 | E0 | SP1 | D1 | F1
  const CODES: seq<Code> := [I1, E0, SP1, D1, F1]

  datatype Status = Pending | Success | Partial | Failure

  /** Times are instants; an absent finish is None. */
  datatype Attempt = Attempt(id: nat, season: int, requestedAt: int, finishedAt: Option<int>, status: Status)
  datatype Snapshot = Snapshot(attempt: nat, code: Code, acquiredAt: int, sha: Digest, csv: string)

  /** Both tables in insertion order; `next` is the next automatic id. */
  datatype Cache = Cache(attempts: seq<Attempt>, snapshots: seq<Snapshot>, next: nat)

  /** The five files of a receipt, in the order of the codes, each with the declared hash. */
  datatype Capture = Capture(acquiredAt: int, csvs: seq<string>)

  datatype Action = Insert | AlreadyPresent
  datatype Content = Content(action: Action, target: Digest, receipt: Digest, season: int, acquiredAt: int,
                             files: seq<(Code, Digest)>)

  /** The command line of a run; `expected` is the content of the approved plan, None for a planning run. */
  datatype Job = Job(season: int, target: Digest, receipt: Digest, capture: Capture, expected: Option<Content>) {
    ghost predicate Valid() {
      |capture.csvs| == |CODES|
    }

    function Key(): (int, int) {
      (season, capture.acquiredAt)
    }
  }

  /** What the tables guarantee: automatic ids are fresh and unique, and snapshots belong to attempts. */
  ghost predicate ValidCache(c: Cache) {
    && (forall a :: a in c.attempts ==> a.id < c.next)
    && (forall s :: s in c.snapshots ==> s.attempt < c.next)
  }

  function OfJob(j: Job): Attempt -> bool {
    (a: Attempt) => a.season == j.season && a.requestedAt == j.capture.acquiredAt
  }

  function OfAttempt(id: nat): Snapshot -> bool {
    (s: Snapshot) => s.attempt == id
  }

  function Prior(c: Cache, j: Job): seq<Attempt> {
    Filter(c.attempts, OfJob(j))
  }

  function RowsOf(c: Cache, id: nat): seq<Snapshot> {
    Filter(c.snapshots, OfAttempt(id))
  }

  // ---------- Inspection and approval ----------

  function ContentOf(j: Job, action: Action): Content
    requires |j.capture.csvs| == |CODES|
  {
    Content(action, j.target, j.receipt, j.season, j.capture.acquiredAt,
            seq(|CODES|, i requires 0 <= i < |CODES| => (CODES[i], Sha(j.capture.csvs[i]))))
  }

  function OfCode(code: Code): Snapshot -> bool {
    (s: Snapshot) => s.code == code
  }

  predicate FileMatches(rows: seq<Snapshot>, j: Job, i: nat)
    requires |j.capture.csvs| == |CODES| && i < |CODES|
  {
    var matches := Filter(rows, OfCode(CODES[i]));
    && |matches| == 1 && matches[0].acquiredAt == j.capture.acquiredAt
    && matches[0].sha == Sha(j.capture.csvs[i]) && Sha(matches[0].csv) == Sha(j.capture.csvs[i])
  }

  /** The snapshots are those of the capture, file by file. */
  predicate RowsMatch(rows: seq<Snapshot>, j: Job)
    requires |j.capture.csvs| == |CODES|
  {
    |rows| == 5 && forall i: nat :: i < |CODES| ==> FileMatches(rows, j, i)
  }

  predicate Sound(prior: seq<Attempt>, j: Job) {
    |prior| == 1 && prior[0].status == Success && prior[0].finishedAt == Some(j.capture.acquiredAt)
  }

  /** The action of an inspection that read these attempts and, if it needed them, these snapshots;
      None for a conflict. */
  function Decide(prior: seq<Attempt>, c: Cache, j: Job): Option<Action>
    requires |j.capture.csvs| == |CODES|
  {
    if prior == [] then Some(Insert)
    else if !Sound(prior, j) then None
    else if !RowsMatch(RowsOf(c, prior[0].id), j) then None
    else Some(AlreadyPresent)
  }

  predicate Approved(j: Job, content: Content) {
    j.expected == Some(content)
    || (content.action == AlreadyPresent && j.expected == Some(content.(action := Insert)))
  }

  // ---------- The write ----------

  function NewAttempt(id: nat, j: Job): Attempt {
    Attempt(id, j.season, j.capture.acquiredAt, Some(j.capture.acquiredAt), Success)
  }

  function NewSnapshot(id: nat, j: Job, i: nat): Snapshot
    requires |j.capture.csvs| == |CODES| && i < |CODES|
  {
    Snapshot(id, CODES[i], j.capture.acquiredAt, Sha(j.capture.csvs[i]), j.capture.csvs[i])
  }

  function Five(id: nat, j: Job): seq<Snapshot>
    requires |j.capture.csvs| == |CODES|
  {
    seq(|CODES|, i requires 0 <= i < |CODES| => NewSnapshot(id, j, i))
  }

  /** The cache after the transaction of a job has inserted its attempt and snapshots. */
  function Inserted(c: Cache, j: Job): Cache
    requires |j.capture.csvs| == |CODES|
  {
    Cache(c.attempts + [NewAttempt(c.next, j)], c.snapshots + Five(c.next, j), c.next + 1)
  }

  datatype Outcome = PlanOnly(content: Content) | Present | Wrote | Failed

  /** A transaction on the database: `shown` is what the transaction sees, `committed` what others see. */
  class Transaction {
    var shown: Cache
    var committed: Cache

    /** The recheck under the write lock, the insert of one attempt and its five files, and the commit. */
    method Execute(j: Job, plan: Content) returns (outcome: Outcome)
      requires j.Valid() && shown == committed && plan == ContentOf(j, Insert)
      modifies this
      ensures outcome == TransactionOutcome(old(committed), j)
      ensures committed == if outcome == Wrote then Inserted(old(committed), j) else old(committed)
      ensures shown == committed
    {
      var action := Decide(Prior(shown, j), shown, j);
      if action == None {
        return Failed;
      }
      if action == Some(AlreadyPresent) && Approved(j, ContentOf(j, AlreadyPresent)) {
        return Present;
      }
      if ContentOf(j, action.value) != plan {
        return Failed;
      }
      var id := shown.next;
      ghost var before := shown;
      shown := shown.(attempts := shown.attempts + [NewAttempt(id, j)], next := id + 1);
      for i := 0 to |CODES|
        invariant committed == before && shown.attempts == before.attempts + [NewAttempt(id, j)] && shown.next == id + 1
        invariant shown.snapshots == before.snapshots + Five(id, j)[..i]
      {
        shown := shown.(snapshots := shown.snapshots + [NewSnapshot(id, j, i)]);
      }
      committed := shown;
      return Wrote;
    }
  }

  /** Outcome of a transaction that is not interrupted. */
  function TransactionOutcome(c: Cache, j: Job): Outcome
    requires |j.capture.csvs| == |CODES|
  {
    match Decide(Prior(c, j), c, j)
    case None => Failed
    case Some(Insert) => Wrote
    case Some(AlreadyPresent) => if Approved(j, ContentOf(j, AlreadyPresent)) then Present else Failed
  }
}
