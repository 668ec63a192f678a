/** Pairing prospective forecasts with their latest final evidence. */
module ResultMonitoring {
  import opened Wrappers
  import opened Integers
  import opened Sequences
  import opened Tallies

  /** A fixture as its match id and kickoff instant. */
  datatype Key = Key(matchId: string, kickoff: int)

  datatype Stamp = Stamp(observed: int, recorded: int, evidenceId: string)

  datatype Forecast = Forecast(id: string, key: Key)
  datatype Final = Final(stamp: Stamp, key: Key, home: int, away: int)
  datatype Observation = Observation(stamp: Stamp, key: Key, status: string, reason: string,
                                     home: Option<int>, away: Option<int>)

  // ---------- Latest wins ----------

  /** Observed time, then recorded time, then evidence id. */
  predicate Later(a: Stamp, b: Stamp) {
    || a.observed > b.observed
    || (a.observed == b.observed
        && (a.recorded > b.recorded
            || (a.recorded == b.recorded && a.evidenceId != b.evidenceId && TextLe(b.evidenceId, a.evidenceId))))
  }

  /** The map that the loop builds: a row replaces the stored one of its key when it is later. */
  function Latest<T>(rows: seq<T>, key: T -> Key, stamp: T -> Stamp): map<Key, T> {
    if rows == [] then map[]
    else
      var before, row := Latest(rows[..|rows| - 1], key, stamp), rows[|rows| - 1];
      if key(row) !in before || Later(stamp(row), stamp(before[key(row)])) then before[key(row) := row] else before
  }

  lemma LaterOrder(a: Stamp, b: Stamp, c: Stamp)
    ensures a.evidenceId != b.evidenceId ==> Later(a, b) || Later(b, a)
    ensures !(Later(a, b) && Later(b, a)) && !Later(a, a)
    ensures Later(a, b) && Later(b, c) ==> Later(a, c)
  {
    TextTotal(a.evidenceId, b.evidenceId);
    TextTotal(a.evidenceId, c.evidenceId);
    if TextLe(b.evidenceId, a.evidenceId) && TextLe(c.evidenceId, b.evidenceId) {
      TextTransitive(c.evidenceId, b.evidenceId, a.evidenceId);
    }
  }

  /** A row of its key that no row of the key is later than. */
  ghost predicate IsLatest<T(!new)>(rows: seq<T>, key: T -> Key, stamp: T -> Stamp, k: Key, row: T) {
    row in rows && key(row) == k && forall x :: x in rows && key(x) == k ==> !Later(stamp(x), stamp(row))
  }

  ghost predicate DistinctIds<T(!new)>(rows: seq<T>, stamp: T -> Stamp) {
    forall x, y :: x in rows && y in rows && stamp(x).evidenceId == stamp(y).evidenceId ==> x == y
  }

  lemma {:induction false} LatestIsLatest<T(!new)>(rows: seq<T>, key: T -> Key, stamp: T -> Stamp)
    ensures forall k :: k in Latest(rows, key, stamp) <==> exists x :: x in rows && key(x) == k
    ensures forall k :: k in Latest(rows, key, stamp) ==> IsLatest(rows, key, stamp, k, Latest(rows, key, stamp)[k])
  {
    if rows != [] {
      var n := |rows| - 1;
      LatestIsLatest(rows[..n], key, stamp);
      assert rows == rows[..n] + [rows[n]];
      var before, after := Latest(rows[..n], key, stamp), Latest(rows, key, stamp);
      assert rows[n] in rows;
      forall k | k in after ensures IsLatest(rows, key, stamp, k, after[k]) {
        LatestStep(rows, key, stamp, k, before, after);
      }
    }
  }

  lemma LatestStep<T(!new)>(rows: seq<T>, key: T -> Key, stamp: T -> Stamp, k: Key, before: map<Key, T>,
                            after: map<Key, T>)
    requires rows != [] && k in after
    requires var n := |rows| - 1; var row := rows[n];
             && (forall q :: q in before <==> exists x :: x in rows[..n] && key(x) == q)
             && (forall q :: q in before ==> IsLatest(rows[..n], key, stamp, q, before[q]))
             && after == if key(row) !in before || Later(stamp(row), stamp(before[key(row)]))
                         then before[key(row) := row] else before
    ensures IsLatest(rows, key, stamp, k, after[k])
  {
    var n := |rows| - 1;
    var row := rows[n];
    assert rows == rows[..n] + [row];
    if k in before {
      var kept := before[k];
      assert IsLatest(rows[..n], key, stamp, k, kept);
      forall x | x in rows && key(x) == k ensures !Later(stamp(x), stamp(after[k])) {
        LaterOrder(stamp(x), stamp(row), stamp(kept));
      }
    } else {
      LaterOrder(stamp(row), stamp(row), stamp(row));
    }
  }

  /** With distinct evidence ids, the latest rows do not depend on the order of reading. */
  lemma LatestOrderIndependent<T(!new)>(a: seq<T>, b: seq<T>, key: T -> Key, stamp: T -> Stamp)
    requires (forall x :: x in a <==> x in b) && DistinctIds(a, stamp)
    ensures Latest(a, key, stamp) == Latest(b, key, stamp)
  {
    LatestIsLatest(a, key, stamp);
    LatestIsLatest(b, key, stamp);
    var m, n := Latest(a, key, stamp), Latest(b, key, stamp);
    hide Latest;
    forall k | k in m ensures k in n && m[k] == n[k] {
      LaterOrder(stamp(m[k]), stamp(n[k]), stamp(m[k]));
    }
    assert m.Keys == n.Keys;
  }

  function KeyOfFinal(): Final -> Key {
    (r: Final) => r.key
  }

  function StampOfFinal(): Final -> Stamp {
    (r: Final) => r.stamp
  }

  function KeyOfObservation(): Observation -> Key {
    (r: Observation) => r.key
  }

  function StampOfObservation(): Observation -> Stamp {
    (r: Observation) => r.stamp
  }

  // ---------- The measurement ----------

  function ForecastKeys(forecasts: seq<Forecast>): set<Key> {
    set f | f in forecasts :: f.key
  }

  function OfKeys(keys: set<Key>): Observation -> bool {
    (r: Observation) => r.key in keys
  }

  function LatestFinals(results: seq<Final>): map<Key, Final> {
    Latest(results, KeyOfFinal(), StampOfFinal())
  }

  /** Only observations of forecast fixtures count. */
  function LatestLifecycle(forecasts: seq<Forecast>, observations: Option<seq<Observation>>): map<Key, Observation> {
    match observations
    case None => map[]
    case Some(rows) => Latest(Filter(rows, OfKeys(ForecastKeys(forecasts))), KeyOfObservation(), StampOfObservation())
  }

  predicate Dropped(status: string) {
    status == "canceled" || status == "postponed"
  }

  function ExcludedKeys(lifecycle: map<Key, Observation>, ledger: seq<Key>): set<Key> {
    (set k | k in ledger) + set k | k in lifecycle && Dropped(lifecycle[k].status)
  }

  /** A fixture whose final evidence stands: not excluded, and not contradicted by a later lifecycle record. */
  predicate Pairable(k: Key, finals: map<Key, Final>, lifecycle: map<Key, Observation>, excluded: set<Key>) {
    && k in finals && k !in excluded
    && (k in lifecycle ==>
          && lifecycle[k].status == "final" && lifecycle[k].stamp.observed <= finals[k].stamp.observed
          && lifecycle[k].home == Some(finals[k].home) && lifecycle[k].away == Some(finals[k].away))
  }

  function Linked(finals: map<Key, Final>, lifecycle: map<Key, Observation>, excluded: set<Key>): Forecast -> bool {
    (f: Forecast) => Pairable(f.key, finals, lifecycle, excluded)
  }

  function Waiting(finals: map<Key, Final>, lifecycle: map<Key, Observation>, excluded: set<Key>,
                   cutoff: int): Forecast -> bool
  {
    (f: Forecast) => f.key.kickoff <= cutoff && !Pairable(f.key, finals, lifecycle, excluded) && f.key !in excluded
  }

  function Statuses(lifecycle: map<Key, Observation>): map<Key, string> {
    map k | k in lifecycle :: lifecycle[k].status
  }

  function Reasons(lifecycle: map<Key, Observation>): map<Key, string> {
    map k | k in lifecycle :: lifecycle[k].reason
  }

  /** Latest lifecycle records of forecast fixtures that have final evidence which they do not let stand. */
  function Invalidated(finals: map<Key, Final>, lifecycle: map<Key, Observation>,
                       excluded: set<Key>): map<Key, string>
  {
    map k | k in lifecycle && k in finals && !Pairable(k, finals, lifecycle, excluded) :: lifecycle[k].status
  }

  /** The observed times of lifecycle records. */
  function ObservedTimes(lifecycle: map<Key, Observation>): map<Key, int> {
    map k | k in lifecycle :: lifecycle[k].stamp.observed
  }

  /** A value of the map that no other exceeds. */
  ghost predicate IsLast(times: map<Key, int>, t: int) {
    t in times.Values && forall u :: u in times.Values ==> u <= t
  }

  ghost predicate LastOf(times: map<Key, int>, last: Option<int>) {
    if times == map[] then last == None else last.Some? && IsLast(times, last.value)
  }

  ghost function LastTime(times: map<Key, int>): (last: Option<int>)
    ensures LastOf(times, last)
  {
    if times == map[] then None
    else
      LastExists(times);
      var t :| IsLast(times, t);
      Some(t)
  }

  lemma {:induction false} LastExists(times: map<Key, int>)
    requires times != map[]
    ensures exists t :: IsLast(times, t)
    decreases |times|
  {
    var k :| k in times;
    var rest := times - {k};
    assert times == rest[k := times[k]];
    ValuesAdd(rest, k, times[k]);
    if rest == map[] {
      assert IsLast(times, times[k]);
    } else {
      LastExists(rest);
      var t :| IsLast(rest, t);
      assert IsLast(times, if t < times[k] then times[k] else t);
    }
  }

  function Kickoffs(pending: seq<Forecast>): seq<int> {
    seq(|pending|, i requires 0 <= i < |pending| => pending[i].key.kickoff)
  }

  /** `lastObserved` is over the latest lifecycle records, `oldest` over the pending kickoffs. */
  datatype Report = Report(preserved: nat, linked: nat, pending: seq<Forecast>, oldest: Option<int>,
                           lifecycle: Option<map<string, nat>>, reasons: Option<map<string, nat>>,
                           lastObserved: Option<int>, invalidated: nat, invalidationReasons: map<string, nat>,
                           excludedFixtures: Option<nat>, unassociated: Option<nat>, orphans: Option<nat>,
                           excludedKeys: set<Key>)

  function ExcludedFixtures(calendar: map<string, int>, excluded: set<Key>): nat {
    |set id | id in calendar && Key(id, calendar[id]) in excluded|
  }

  function Unassociated(calendar: map<string, int>, keys: set<Key>): Final -> bool {
    (r: Final) => r.key.matchId in calendar && calendar[r.key.matchId] == r.key.kickoff && r.key !in keys
  }

  function Orphan(calendar: map<string, int>): Forecast -> bool {
    (f: Forecast) => f.key.matchId !in calendar || calendar[f.key.matchId] != f.key.kickoff
  }

  ghost function Measured(forecasts: seq<Forecast>, results: seq<Final>, observations: Option<seq<Observation>>,
                    calendar: Option<map<string, int>>, cutoff: int, ledger: seq<Key>): Report {
    var finals, lifecycle := LatestFinals(results), LatestLifecycle(forecasts, observations);
    var excluded := ExcludedKeys(lifecycle, ledger);
    var invalid := Invalidated(finals, lifecycle, excluded);
    var pending := Filter(forecasts, Waiting(finals, lifecycle, excluded, cutoff));
    Report(|results|, |Filter(forecasts, Linked(finals, lifecycle, excluded))|,
           pending, if pending == [] then None else Some(MinOf(Kickoffs(pending))),
           if observations == None then None else Some(Counts(Statuses(lifecycle))),
           if observations == None then None else Some(Counts(Reasons(lifecycle))),
           LastTime(ObservedTimes(lifecycle)), |invalid|, Counts(invalid),
           if calendar == None then None else Some(ExcludedFixtures(calendar.value, excluded)),
           if calendar == None then None
           else Some(|Filter(results, Unassociated(calendar.value, ForecastKeys(forecasts)))|),
           if calendar == None then None else Some(|Filter(forecasts, Orphan(calendar.value))|),
           excluded)
  }

  // ---------- The loops ----------

  method CollectFinals(results: seq<Final>) returns (latest: map<Key, Final>)
    ensures latest == LatestFinals(results)
  {
    latest := map[];
    for i := 0 to |results|
      invariant latest == LatestFinals(results[..i])
    {
      var row := results[i];
      assert results[..i + 1][..i] == results[..i];
      if row.key !in latest || Later(row.stamp, latest[row.key].stamp) {
        latest := latest[row.key := row];
      }
    }
    assert results[..|results|] == results;
  }

  method CollectLifecycle(forecasts: seq<Forecast>, rows: seq<Observation>) returns (latest: map<Key, Observation>)
    ensures latest == LatestLifecycle(forecasts, Some(rows))
  {
    var keys := ForecastKeys(forecasts);
    latest := map[];
    for i := 0 to |rows|
      invariant latest == LatestLifecycle(forecasts, Some(rows[..i]))
    {
      var row := rows[i];
      var kept := Filter(rows[..i], OfKeys(keys));
      assert rows[..i + 1][..i] == rows[..i];
      assert (kept + [row])[..|kept|] == kept;
      if row.key in keys && (row.key !in latest || Later(row.stamp, latest[row.key].stamp)) {
        latest := latest[row.key := row];
      }
    }
    assert rows[..|rows|] == rows;
  }

  ghost predicate Counted(finals: map<Key, Final>, lifecycle: map<Key, Observation>, excluded: set<Key>, seen: set<Key>,
                          statuses: map<string, nat>, reasons: map<string, nat>, invalidated: nat,
                          invalidationReasons: map<string, nat>) {
    && statuses == Counts(Restrict(Statuses(lifecycle), seen)) && reasons == Counts(Restrict(Reasons(lifecycle), seen))
    && invalidated == |Restrict(Invalidated(finals, lifecycle, excluded), seen)|
    && invalidationReasons == Counts(Restrict(Invalidated(finals, lifecycle, excluded), seen))
  }

  method CountLifecycle(finals: map<Key, Final>, lifecycle: map<Key, Observation>, excluded: set<Key>)
    returns (statuses: map<string, nat>, reasons: map<string, nat>, last: Option<int>,
             invalidated: nat, invalidationReasons: map<string, nat>)
    ensures statuses == Counts(Statuses(lifecycle)) && reasons == Counts(Reasons(lifecycle))
    ensures last == LastTime(ObservedTimes(lifecycle))
    ensures invalidated == |Invalidated(finals, lifecycle, excluded)|
    ensures invalidationReasons == Counts(Invalidated(finals, lifecycle, excluded))
  {
    hide *;
    statuses, reasons, last, invalidated, invalidationReasons := map[], map[], None, 0, map[];
    CountedStart(finals, lifecycle, excluded);
    LastStart(lifecycle);
    var seen: set<Key>, todo := {}, lifecycle.Keys;
    while todo != {}
      invariant seen + todo == lifecycle.Keys && seen !! todo
      invariant Counted(finals, lifecycle, excluded, seen, statuses, reasons, invalidated, invalidationReasons)
      invariant LastOf(Restrict(ObservedTimes(lifecycle), seen), last)
      decreases todo
    {
      var k :| k in todo;
      var row := lifecycle[k];
      CountedStep(finals, lifecycle, excluded, seen, statuses, reasons, invalidated, invalidationReasons, k);
      LastStep(lifecycle, seen, last, k);
      statuses, reasons := Bump(statuses, row.status), Bump(reasons, row.reason);
      if last == None || row.stamp.observed > last.value {
        last := Some(row.stamp.observed);
      }
      if k in finals && !Pairable(k, finals, lifecycle, excluded) {
        invalidated, invalidationReasons := invalidated + 1, Bump(invalidationReasons, row.status);
      }
      todo, seen := todo - {k}, seen + {k};
    }
    assert seen == lifecycle.Keys;
    CountedEnd(finals, lifecycle, excluded, seen, statuses, reasons, invalidated, invalidationReasons);
    LastEnd(lifecycle, seen, last);
  }

  lemma LastStart(lifecycle: map<Key, Observation>)
    ensures LastOf(Restrict(ObservedTimes(lifecycle), {}), None)
  {
  }

  lemma LastStep(lifecycle: map<Key, Observation>, seen: set<Key>, last: Option<int>, k: Key)
    requires k in lifecycle && k !in seen && LastOf(Restrict(ObservedTimes(lifecycle), seen), last)
    ensures var at := lifecycle[k].stamp.observed;
            LastOf(Restrict(ObservedTimes(lifecycle), seen + {k}),
                   if last == None || at > last.value then Some(at) else last)
  {
    var times := ObservedTimes(lifecycle);
    var before, after := Restrict(times, seen), Restrict(times, seen + {k});
    RestrictStep(times, seen, k);
    ValuesAdd(before, k, times[k]);
  }

  lemma LastEnd(lifecycle: map<Key, Observation>, seen: set<Key>, last: Option<int>)
    requires seen == lifecycle.Keys && LastOf(Restrict(ObservedTimes(lifecycle), seen), last)
    ensures last == LastTime(ObservedTimes(lifecycle))
  {
    var times := ObservedTimes(lifecycle);
    assert times.Keys == lifecycle.Keys;
    RestrictAll(times, seen);
  }

  lemma CountedStart(finals: map<Key, Final>, lifecycle: map<Key, Observation>, excluded: set<Key>)
    ensures Counted(finals, lifecycle, excluded, {}, map[], map[], 0, map[])
  {
    hide Counts;
    hide Statuses;
    hide Reasons;
    hide Invalidated;
    StartCounts(Statuses(lifecycle), Reasons(lifecycle), Invalidated(finals, lifecycle, excluded));
  }

  lemma CountedStep(finals: map<Key, Final>, lifecycle: map<Key, Observation>, excluded: set<Key>, seen: set<Key>,
                    statuses: map<string, nat>, reasons: map<string, nat>, invalidated: nat,
                    invalidationReasons: map<string, nat>, k: Key)
    requires Counted(finals, lifecycle, excluded, seen, statuses, reasons, invalidated, invalidationReasons)
    requires k in lifecycle && k !in seen
    ensures var row := lifecycle[k];
            var fails := k in finals && !Pairable(k, finals, lifecycle, excluded);
            Counted(finals, lifecycle, excluded, seen + {k}, Bump(statuses, row.status), Bump(reasons, row.reason),
                    if fails then invalidated + 1 else invalidated,
                    if fails then Bump(invalidationReasons, row.status) else invalidationReasons)
  {
    hide Counts;
    hide Statuses;
    hide Reasons;
    hide Invalidated;
    hide Bump;
    hide Restrict;
    hide Pairable;
    var all, why, bad := Statuses(lifecycle), Reasons(lifecycle), Invalidated(finals, lifecycle, excluded);
    var row := lifecycle[k];
    LabelsAt(finals, lifecycle, excluded, k);
    RestrictStep(all, seen, k);
    RestrictStep(why, seen, k);
    CountsStep(Restrict(all, seen), k, row.status);
    CountsStep(Restrict(why, seen), k, row.reason);
    if k in bad {
      RestrictStep(bad, seen, k);
      CountsStep(Restrict(bad, seen), k, row.status);
    } else {
      RestrictSkip(bad, seen, k);
    }
  }

  lemma CountedEnd(finals: map<Key, Final>, lifecycle: map<Key, Observation>, excluded: set<Key>, seen: set<Key>,
                   statuses: map<string, nat>, reasons: map<string, nat>, invalidated: nat,
                   invalidationReasons: map<string, nat>)
    requires Counted(finals, lifecycle, excluded, seen, statuses, reasons, invalidated, invalidationReasons)
    requires seen == lifecycle.Keys
    ensures statuses == Counts(Statuses(lifecycle)) && reasons == Counts(Reasons(lifecycle))
    ensures invalidated == |Invalidated(finals, lifecycle, excluded)|
    ensures invalidationReasons == Counts(Invalidated(finals, lifecycle, excluded))
  {
    LabelKeys(finals, lifecycle, excluded);
    hide Counts;
    hide Statuses;
    hide Reasons;
    hide Invalidated;
    hide Restrict;
    RestrictAll(Statuses(lifecycle), seen);
    RestrictAll(Reasons(lifecycle), seen);
    RestrictAll(Invalidated(finals, lifecycle, excluded), seen);
  }

  lemma StartCounts(a: map<Key, string>, b: map<Key, string>, c: map<Key, string>)
    ensures Counts(Restrict(a, {})) == map[] && Counts(Restrict(b, {})) == map[]
    ensures Restrict(c, {}) == map[] && Counts(Restrict(c, {})) == map[]
  {
    assert Restrict(a, {}) == map[] && Restrict(b, {}) == map[] && Restrict(c, {}) == map[];
  }

  lemma LabelsAt(finals: map<Key, Final>, lifecycle: map<Key, Observation>, excluded: set<Key>, k: Key)
    requires k in lifecycle
    ensures k in Statuses(lifecycle) && Statuses(lifecycle)[k] == lifecycle[k].status
    ensures k in Reasons(lifecycle) && Reasons(lifecycle)[k] == lifecycle[k].reason
    ensures k in Invalidated(finals, lifecycle, excluded) <==> k in finals && !Pairable(k, finals, lifecycle, excluded)
    ensures k in Invalidated(finals, lifecycle, excluded) ==>
              Invalidated(finals, lifecycle, excluded)[k] == lifecycle[k].status
  {
  }

  lemma LabelKeys(finals: map<Key, Final>, lifecycle: map<Key, Observation>, excluded: set<Key>)
    ensures Statuses(lifecycle).Keys == lifecycle.Keys && Reasons(lifecycle).Keys == lifecycle.Keys
    ensures Invalidated(finals, lifecycle, excluded).Keys <= lifecycle.Keys
  {
  }

  method MeasureResults(forecasts: seq<Forecast>, results: seq<Final>, observations: Option<seq<Observation>>,
                        calendar: Option<map<string, int>>, cutoff: int, ledger: seq<Key>) returns (report: Report)
    ensures report == Measured(forecasts, results, observations, calendar, cutoff, ledger)
  {
    var finals := CollectFinals(results);
    var lifecycle: map<Key, Observation> := map[];
    if observations.Some? {
      lifecycle := CollectLifecycle(forecasts, observations.value);
    }
    var excluded := ExcludedKeys(lifecycle, ledger);
    var pending := Filter(forecasts, Waiting(finals, lifecycle, excluded, cutoff));
    var statuses, reasons, last, invalidated, invalidationReasons := CountLifecycle(finals, lifecycle, excluded);
    var kickoffs := Kickoffs(pending);
    hide *;
    var linked := |Filter(forecasts, Linked(finals, lifecycle, excluded))|;
    report := Report(|results|, linked, pending,
                     if pending == [] then None else Some(MinOf(kickoffs)),
                     if observations == None then None else Some(statuses),
                     if observations == None then None else Some(reasons),
                     last, invalidated, invalidationReasons,
                     if calendar == None then None else Some(ExcludedFixtures(calendar.value, excluded)),
                     if calendar == None then None
                     else Some(|Filter(results, Unassociated(calendar.value, ForecastKeys(forecasts)))|),
                     if calendar == None then None else Some(|Filter(forecasts, Orphan(calendar.value))|),
                     excluded);
  }

  // ---------- Independence of the reading order ----------

  lemma {:induction false} FilterCount<T>(s: seq<T>, p: T -> bool, x: T)
    ensures multiset(Filter(s, p))[x] == if p(x) then multiset(s)[x] else 0
  {
    if s != [] {
      var n := |s| - 1;
      FilterCount(s[..n], p, x);
      assert s == s[..n] + [s[n]];
    }
  }

  lemma FilterPermutation<T(!new)>(a: seq<T>, b: seq<T>, p: T -> bool)
    requires multiset(a) == multiset(b)
    ensures multiset(Filter(a, p)) == multiset(Filter(b, p)) && |Filter(a, p)| == |Filter(b, p)|
  {
    forall x ensures multiset(Filter(a, p))[x] == multiset(Filter(b, p))[x] {
      FilterCount(a, p, x);
      FilterCount(b, p, x);
    }
    assert multiset(Filter(a, p)) == multiset(Filter(b, p));
    assert |multiset(Filter(a, p))| == |Filter(a, p)| && |multiset(Filter(b, p))| == |Filter(b, p)|;
  }

  lemma SameMembers<T(!new)>(a: seq<T>, b: seq<T>)
    requires multiset(a) == multiset(b)
    ensures forall x :: x in a <==> x in b
  {
    forall x ensures x in a <==> x in b {
      assert x in a <==> x in multiset(a);
      assert x in b <==> x in multiset(b);
    }
  }

  lemma LifecycleOrderIndependent(forecasts: seq<Forecast>, a: seq<Observation>, b: seq<Observation>)
    requires multiset(a) == multiset(b) && DistinctIds(a, StampOfObservation())
    ensures LatestLifecycle(forecasts, Some(a)) == LatestLifecycle(forecasts, Some(b))
  {
    var p := OfKeys(ForecastKeys(forecasts));
    FilterPermutation(a, b, p);
    SameMembers(Filter(a, p), Filter(b, p));
    FilterMembers(a, p);
    hide Filter;
    LatestOrderIndependent(Filter(a, p), Filter(b, p), KeyOfObservation(), StampOfObservation());
  }

  /** The whole report is the same for any order of the results and of the observations. */
  lemma MeasuredOrderIndependent(forecasts: seq<Forecast>, results: seq<Final>, results': seq<Final>,
                                 observations: Option<seq<Observation>>, observations': Option<seq<Observation>>,
                                 calendar: Option<map<string, int>>, cutoff: int, ledger: seq<Key>)
    requires multiset(results) == multiset(results') && DistinctIds(results, StampOfFinal())
    requires observations.Some? == observations'.Some?
    requires observations.Some? ==>
               multiset(observations.value) == multiset(observations'.value)
                 && DistinctIds(observations.value, StampOfObservation())
    ensures Measured(forecasts, results, observations, calendar, cutoff, ledger)
         == Measured(forecasts, results', observations', calendar, cutoff, ledger)
  {
    SameMembers(results, results');
    LatestOrderIndependent(results, results', KeyOfFinal(), StampOfFinal());
    assert |results| == |multiset(results)| == |multiset(results')| == |results'|;
    if observations.Some? {
      LifecycleOrderIndependent(forecasts, observations.value, observations'.value);
    }
    if calendar.Some? {
      FilterPermutation(results, results', Unassociated(calendar.value, ForecastKeys(forecasts)));
    }
    hide Filter;
    hide Latest;
    hide Counts;
    hide Invalidated;
    hide ExcludedFixtures;
    hide ExcludedKeys;
  }

  // ---------- Conservation ----------

  function Past(cutoff: int): Forecast -> bool {
    (f: Forecast) => f.key.kickoff <= cutoff
  }

  function PastExcluded(excluded: set<Key>, cutoff: int): Forecast -> bool {
    (f: Forecast) => f.key.kickoff <= cutoff && f.key in excluded
  }

  function LinkedEarly(finals: map<Key, Final>, lifecycle: map<Key, Observation>, excluded: set<Key>,
                       cutoff: int): Forecast -> bool
  {
    (f: Forecast) => f.key.kickoff > cutoff && Pairable(f.key, finals, lifecycle, excluded)
  }

  /** Linked, pending and excluded forecasts make up the past ones, but for links before kickoff. */
  lemma {:induction false} SplitCounts(forecasts: seq<Forecast>, finals: map<Key, Final>,
                                       lifecycle: map<Key, Observation>,
                                       excluded: set<Key>, cutoff: int)
    ensures |Filter(forecasts, Linked(finals, lifecycle, excluded))|
          + |Filter(forecasts, Waiting(finals, lifecycle, excluded, cutoff))|
          + |Filter(forecasts, PastExcluded(excluded, cutoff))|
         == |Filter(forecasts, Past(cutoff))| + |Filter(forecasts, LinkedEarly(finals, lifecycle, excluded, cutoff))|
  {
    if forecasts != [] {
      SplitCounts(forecasts[..|forecasts| - 1], finals, lifecycle, excluded, cutoff);
    }
  }

  /** The split is exact if and only if no fixture after the cutoff is linked to a final result. */
  lemma PastSplitsIff(forecasts: seq<Forecast>, results: seq<Final>, observations: Option<seq<Observation>>,
                      calendar: Option<map<string, int>>, cutoff: int, ledger: seq<Key>)
    ensures var report := Measured(forecasts, results, observations, calendar, cutoff, ledger);
            var finals, lifecycle := LatestFinals(results), LatestLifecycle(forecasts, observations);
            |Filter(forecasts, Past(cutoff))|
              == report.linked + |report.pending| + |Filter(forecasts, PastExcluded(report.excludedKeys, cutoff))|
            <==> forall f :: f in forecasts && f.key.kickoff > cutoff ==>
                   !Pairable(f.key, finals, lifecycle, report.excludedKeys)
  {
    var finals, lifecycle := LatestFinals(results), LatestLifecycle(forecasts, observations);
    var excluded := ExcludedKeys(lifecycle, ledger);
    var early := LinkedEarly(finals, lifecycle, excluded, cutoff);
    SplitCounts(forecasts, finals, lifecycle, excluded, cutoff);
    FilterMembers(forecasts, early);
    hide Filter;
    hide Latest;
    hide LatestFinals;
    hide LatestLifecycle;
    hide ExcludedKeys;
    hide Pairable;
    hide Counts;
    if Filter(forecasts, early) != [] {
      var f := Filter(forecasts, early)[0];
      assert f in Filter(forecasts, early);
    } else {
      assert forall f :: f in forecasts ==> f !in Filter(forecasts, early);
    }
  }

  // ---------- Admitted evidence ----------

  /** A stored row; None for a value that cannot be read. */
  datatype StoredFinal = StoredFinal(evidenceId: string, matchId: string, kickoff: Option<int>, observed: Option<int>,
                                     recorded: Option<int>, home: Option<int>, away: Option<int>)

  predicate ValidStored(r: StoredFinal) {
    && r.kickoff.Some? && r.observed.Some? && r.recorded.Some?
    && r.observed.value > r.kickoff.value && r.recorded.value >= r.observed.value
    && r.home.Some? && r.home.value >= 0 && r.away.Some? && r.away.value >= 0
  }

  function Loaded(r: StoredFinal): Final
    requires ValidStored(r)
  {
    Final(Stamp(r.observed.value, r.recorded.value, r.evidenceId), Key(r.matchId, r.kickoff.value), r.home.value,
          r.away.value)
  }

  predicate Admissible(r: StoredFinal, cutoff: int) {
    ValidStored(r) && r.observed.value <= cutoff && r.recorded.value <= cutoff
  }

  /** The admissible rows, in order. */
  function Admitted(rows: seq<StoredFinal>, cutoff: int): seq<Final> {
    if rows == [] then []
    else
      var before, row := Admitted(rows[..|rows| - 1], cutoff), rows[|rows| - 1];
      if Admissible(row, cutoff) then before + [Loaded(row)] else before
  }

  method AdmitFinals(rows: seq<StoredFinal>, cutoff: int) returns (results: seq<Final>, invalid: nat)
    ensures results == Admitted(rows, cutoff)
    ensures forall f :: f in results ==> f.key.kickoff < f.stamp.observed <= f.stamp.recorded <= cutoff
    ensures invalid == |Filter(rows, (r: StoredFinal) => !ValidStored(r))|
  {
    results, invalid := [], 0;
    ghost var bad := (r: StoredFinal) => !ValidStored(r);
    for i := 0 to |rows|
      invariant results == Admitted(rows[..i], cutoff) && invalid == |Filter(rows[..i], bad)|
      invariant forall f :: f in results ==> f.key.kickoff < f.stamp.observed <= f.stamp.recorded <= cutoff
    {
      var row := rows[i];
      assert rows[..i + 1][..i] == rows[..i];
      if !ValidStored(row) {
        invalid := invalid + 1;
        continue;
      }
      if row.observed.value <= cutoff && row.recorded.value <= cutoff {
        results := results + [Loaded(row)];
      }
    }
    assert rows[..|rows|] == rows;
  }

  /** With admitted evidence the split of past forecasts is exact. */
  lemma AdmittedSplit(forecasts: seq<Forecast>, results: seq<Final>, observations: Option<seq<Observation>>,
                      calendar: Option<map<string, int>>, cutoff: int, ledger: seq<Key>)
    requires forall f :: f in results ==> f.key.kickoff < f.stamp.observed <= cutoff
    ensures var report := Measured(forecasts, results, observations, calendar, cutoff, ledger);
            |Filter(forecasts, Past(cutoff))|
              == report.linked + |report.pending| + |Filter(forecasts, PastExcluded(report.excludedKeys, cutoff))|
  {
    PastSplitsIff(forecasts, results, observations, calendar, cutoff, ledger);
    LatestIsLatest(results, KeyOfFinal(), StampOfFinal());
    var finals := LatestFinals(results);
    forall k | k in finals ensures k.kickoff <= cutoff {
      assert finals[k] in results && finals[k].key == k;
    }
    hide Latest;
    hide Filter;
    hide LatestLifecycle;
    hide Counts;
  }

  // ---------- Counter totals ----------

  /** Lifecycle statuses and reasons each sum to the forecast fixtures with a lifecycle record, and invalidation
      reasons to the invalidated finals. */
  lemma CountersSum(forecasts: seq<Forecast>, results: seq<Final>, observations: Option<seq<Observation>>,
                    calendar: Option<map<string, int>>, cutoff: int, ledger: seq<Key>)
    ensures var report := Measured(forecasts, results, observations, calendar, cutoff, ledger);
            && Total(report.invalidationReasons) == report.invalidated
            && (observations.Some? ==>
                  && Total(report.lifecycle.value) == |LatestLifecycle(forecasts, observations)|
                  && Total(report.reasons.value) == |LatestLifecycle(forecasts, observations)|)
  {
    var finals, lifecycle := LatestFinals(results), LatestLifecycle(forecasts, observations);
    var excluded := ExcludedKeys(lifecycle, ledger);
    CountsTotal(Statuses(lifecycle));
    CountsTotal(Reasons(lifecycle));
    CountsTotal(Invalidated(finals, lifecycle, excluded));
    LabelKeys(finals, lifecycle, excluded);
    hide Counts;
    hide Statuses;
    hide Reasons;
    hide Invalidated;
    hide Filter;
    hide Latest;
    assert |Statuses(lifecycle)| == |Statuses(lifecycle).Keys| && |Reasons(lifecycle)| == |Reasons(lifecycle).Keys|;
    assert |lifecycle| == |lifecycle.Keys|;
  }
}
