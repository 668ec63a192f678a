/** What a monitoring report says about each fixture, told from the stored rows. */
module ResultOutcome {
  import opened Wrappers
  import opened Integers
  import opened Sequences
  import opened ResultMonitoring
  import opened Tallies

  // ---------- The newest row ----------

  /** A row of the key, observed last; of those recorded last; of those with the greatest evidence id. */
  ghost predicate Newest<T(!new)>(rows: seq<T>, key: T -> Key, stamp: T -> Stamp, k: Key, row: T) {
    && row in rows && key(row) == k
    && forall x :: x in rows && key(x) == k ==>
         && stamp(x).observed <= stamp(row).observed
         && (stamp(x).observed == stamp(row).observed ==>
               && stamp(x).recorded <= stamp(row).recorded
               && (stamp(x).recorded == stamp(row).recorded ==> TextLe(stamp(x).evidenceId, stamp(row).evidenceId)))
  }

  lemma LatestIsNewest<T(!new)>(rows: seq<T>, key: T -> Key, stamp: T -> Stamp, k: Key)
    ensures k in Latest(rows, key, stamp) <==> exists x :: x in rows && key(x) == k
    ensures k in Latest(rows, key, stamp) ==> Newest(rows, key, stamp, k, Latest(rows, key, stamp)[k])
  {
    LatestIsLatest(rows, key, stamp);
    hide Latest;
    if k in Latest(rows, key, stamp) {
      var row := Latest(rows, key, stamp)[k];
      forall x | x in rows && key(x) == k
        ensures !Later(stamp(x), stamp(row))
        ensures TextLe(stamp(x).evidenceId, stamp(row).evidenceId) || TextLe(stamp(row).evidenceId, stamp(x).evidenceId)
        ensures TextLe(stamp(x).evidenceId, stamp(x).evidenceId)
      {
        TextTotal(stamp(x).evidenceId, stamp(row).evidenceId);
        TextTotal(stamp(x).evidenceId, stamp(x).evidenceId);
      }
    }
  }

  lemma NewestUnique<T(!new)>(rows: seq<T>, key: T -> Key, stamp: T -> Stamp, k: Key, a: T, b: T)
    requires DistinctIds(rows, stamp) && Newest(rows, key, stamp, k, a) && Newest(rows, key, stamp, k, b)
    ensures a == b
  {
    TextTotal(stamp(a).evidenceId, stamp(b).evidenceId);
  }

  // ---------- What becomes of a fixture ----------

  /** Evidence ids are distinct among the results and among the observations. */
  ghost predicate DistinctEvidence(results: seq<Final>, observations: Option<seq<Observation>>) {
    && DistinctIds(results, StampOfFinal())
    && (observations.Some? ==> DistinctIds(observations.value, StampOfObservation()))
  }

  ghost predicate LastResult(results: seq<Final>, k: Key, x: Final) {
    Newest(results, (r: Final) => r.key, (r: Final) => r.stamp, k, x)
  }

  /** The newest observation of a fixture, if it was forecast. */
  ghost predicate LastSeen(forecasts: seq<Forecast>, observations: Option<seq<Observation>>, k: Key, o: Observation) {
    && (exists f :: f in forecasts && f.key == k)
    && observations.Some?
    && Newest(observations.value, (r: Observation) => r.key, (r: Observation) => r.stamp, k, o)
  }

  /** A ledger entry, or a last observation that the match was canceled or postponed, takes the fixture out. */
  ghost predicate TakenOut(forecasts: seq<Forecast>, observations: Option<seq<Observation>>, ledger: seq<Key>, k: Key) {
    k in ledger
    || exists o :: LastSeen(forecasts, observations, k, o) && (o.status == "canceled" || o.status == "postponed")
  }

  /** The fixture is not taken out, it has a result, and the last observation, if there is one, is of the end of the
      match, not newer than the result, with the same goals. */
  ghost predicate Stands(forecasts: seq<Forecast>, results: seq<Final>, observations: Option<seq<Observation>>,
                         ledger: seq<Key>, k: Key)
  {
    && !TakenOut(forecasts, observations, ledger, k)
    && exists x :: LastResult(results, k, x)
         && forall o :: LastSeen(forecasts, observations, k, o) ==>
              && o.status == "final" && o.stamp.observed <= x.stamp.observed
              && o.home == Some(x.home) && o.away == Some(x.away)
  }

  lemma LastResultIs(results: seq<Final>, k: Key)
    requires DistinctIds(results, StampOfFinal())
    ensures forall x :: LastResult(results, k, x) <==> k in LatestFinals(results) && LatestFinals(results)[k] == x
  {
    LatestIsNewest(results, KeyOfFinal(), StampOfFinal(), k);
    hide Latest;
    forall x | LastResult(results, k, x) ensures k in LatestFinals(results) && LatestFinals(results)[k] == x {
      assert x in results && KeyOfFinal()(x) == k;
      NewestUnique(results, KeyOfFinal(), StampOfFinal(), k, x, LatestFinals(results)[k]);
    }
  }

  lemma LastSeenIs(forecasts: seq<Forecast>, observations: Option<seq<Observation>>, k: Key)
    requires observations.Some? ==> DistinctIds(observations.value, StampOfObservation())
    ensures var lifecycle := LatestLifecycle(forecasts, observations);
            forall o :: LastSeen(forecasts, observations, k, o) <==> k in lifecycle && lifecycle[k] == o
  {
    if observations.Some? {
      var rows, key, stamp := observations.value, KeyOfObservation(), StampOfObservation();
      var kept := Filter(rows, OfKeys(ForecastKeys(forecasts)));
      FilterMembers(rows, OfKeys(ForecastKeys(forecasts)));
      LatestIsNewest(kept, key, stamp, k);
      hide Latest;
      hide Filter;
      var lifecycle := Latest(kept, key, stamp);
      assert k in ForecastKeys(forecasts) <==> exists f :: f in forecasts && f.key == k;
      forall o | LastSeen(forecasts, observations, k, o) ensures k in lifecycle && lifecycle[k] == o {
        assert o in kept && key(o) == k;
        assert Newest(kept, key, stamp, k, o);
        NewestUnique(kept, key, stamp, k, o, lifecycle[k]);
      }
      if k in lifecycle {
        var o := lifecycle[k];
        assert o in kept && key(o) == k;
        forall x | x in rows && key(x) == k ensures x in kept {
        }
        assert Newest(rows, key, stamp, k, o);
      }
    }
  }

  lemma TakenOutIs(forecasts: seq<Forecast>, observations: Option<seq<Observation>>, ledger: seq<Key>, k: Key)
    requires observations.Some? ==> DistinctIds(observations.value, StampOfObservation())
    ensures k in ExcludedKeys(LatestLifecycle(forecasts, observations), ledger)
       <==> TakenOut(forecasts, observations, ledger, k)
  {
    LastSeenIs(forecasts, observations, k);
    hide LatestLifecycle;
    hide LastSeen;
  }

  lemma StandsIs(forecasts: seq<Forecast>, results: seq<Final>, observations: Option<seq<Observation>>,
                 ledger: seq<Key>, k: Key)
    requires DistinctEvidence(results, observations)
    ensures var lifecycle := LatestLifecycle(forecasts, observations);
            Pairable(k, LatestFinals(results), lifecycle, ExcludedKeys(lifecycle, ledger))
            <==> Stands(forecasts, results, observations, ledger, k)
  {
    LastResultIs(results, k);
    LastSeenIs(forecasts, observations, k);
    TakenOutIs(forecasts, observations, ledger, k);
    hide LatestLifecycle;
    hide LatestFinals;
    hide LastSeen;
    hide LastResult;
    hide TakenOut;
    hide ExcludedKeys;
  }

  // ---------- The report ----------

  ghost function Standing(forecasts: seq<Forecast>, results: seq<Final>, observations: Option<seq<Observation>>,
                          ledger: seq<Key>): Forecast -> bool
  {
    (f: Forecast) => Stands(forecasts, results, observations, ledger, f.key)
  }

  /** Forecasts whose match has kicked off, and which neither stand nor are taken out. */
  ghost function Open(forecasts: seq<Forecast>, results: seq<Final>, observations: Option<seq<Observation>>,
                      cutoff: int, ledger: seq<Key>): Forecast -> bool
  {
    (f: Forecast) =>
      && f.key.kickoff <= cutoff && !TakenOut(forecasts, observations, ledger, f.key)
      && !Stands(forecasts, results, observations, ledger, f.key)
  }

  /** The figures of the report, fixture by fixture. */
  ghost predicate Reports(report: Report, forecasts: seq<Forecast>, results: seq<Final>,
                          observations: Option<seq<Observation>>, cutoff: int, ledger: seq<Key>)
  {
    && report.preserved == |results|
    && report.linked == |Filter(forecasts, Standing(forecasts, results, observations, ledger))|
    && report.pending == Filter(forecasts, Open(forecasts, results, observations, cutoff, ledger))
    && (report.oldest.Some? <==> report.pending != [])
    && (report.oldest.Some? ==>
          && (exists f :: f in report.pending && f.key.kickoff == report.oldest.value)
          && forall f :: f in report.pending ==> report.oldest.value <= f.key.kickoff)
    && (forall k :: k in report.excludedKeys <==> TakenOut(forecasts, observations, ledger, k))
    && exists bad :: Comprises(bad, Contrary(forecasts, results, observations, ledger)) && report.invalidated == |bad|
  }

  /** A finite set of the fixtures with a property. */
  ghost predicate Comprises(keys: set<Key>, p: Key -> bool) {
    forall k :: k in keys <==> p(k)
  }

  /** Observed fixtures with a result that does not stand. */
  ghost function Contrary(forecasts: seq<Forecast>, results: seq<Final>, observations: Option<seq<Observation>>,
                          ledger: seq<Key>): Key -> bool
  {
    (k: Key) =>
      && (exists o :: LastSeen(forecasts, observations, k, o)) && (exists x :: x in results && x.key == k)
      && !Stands(forecasts, results, observations, ledger, k)
  }

  lemma LinkedIsStanding(forecasts: seq<Forecast>, results: seq<Final>, observations: Option<seq<Observation>>,
                         cutoff: int, ledger: seq<Key>)
    requires DistinctEvidence(results, observations)
    ensures var finals, lifecycle := LatestFinals(results), LatestLifecycle(forecasts, observations);
            var excluded := ExcludedKeys(lifecycle, ledger);
            && Filter(forecasts, Linked(finals, lifecycle, excluded))
               == Filter(forecasts, Standing(forecasts, results, observations, ledger))
            && Filter(forecasts, Waiting(finals, lifecycle, excluded, cutoff))
               == Filter(forecasts, Open(forecasts, results, observations, cutoff, ledger))
  {
    var finals, lifecycle := LatestFinals(results), LatestLifecycle(forecasts, observations);
    var excluded := ExcludedKeys(lifecycle, ledger);
    forall f | f in forecasts
      ensures Linked(finals, lifecycle, excluded)(f) == Standing(forecasts, results, observations, ledger)(f)
      ensures Waiting(finals, lifecycle, excluded, cutoff)(f)
           == Open(forecasts, results, observations, cutoff, ledger)(f)
    {
      StandsIs(forecasts, results, observations, ledger, f.key);
      TakenOutIs(forecasts, observations, ledger, f.key);
      hide LatestLifecycle;
      hide LatestFinals;
      hide ExcludedKeys;
      hide Pairable;
      hide Stands;
      hide TakenOut;
    }
    hide *;
    FilterCong(forecasts, Linked(finals, lifecycle, excluded), Standing(forecasts, results, observations, ledger));
    FilterCong(forecasts, Waiting(finals, lifecycle, excluded, cutoff),
               Open(forecasts, results, observations, cutoff, ledger));
  }

  lemma InvalidatedIsContrary(forecasts: seq<Forecast>, results: seq<Final>, observations: Option<seq<Observation>>,
                              ledger: seq<Key>)
    requires DistinctEvidence(results, observations)
    ensures var finals, lifecycle := LatestFinals(results), LatestLifecycle(forecasts, observations);
            var invalid := Invalidated(finals, lifecycle, ExcludedKeys(lifecycle, ledger));
            Comprises(invalid.Keys, Contrary(forecasts, results, observations, ledger)) && |invalid| == |invalid.Keys|
  {
    var finals, lifecycle := LatestFinals(results), LatestLifecycle(forecasts, observations);
    var excluded := ExcludedKeys(lifecycle, ledger);
    forall k
      ensures k in Invalidated(finals, lifecycle, excluded) <==> Contrary(forecasts, results, observations, ledger)(k)
    {
      ContraryIs(forecasts, results, observations, ledger, k);
    }
    hide Contrary;
    hide Invalidated;
  }

  lemma ContraryIs(forecasts: seq<Forecast>, results: seq<Final>, observations: Option<seq<Observation>>,
                   ledger: seq<Key>, k: Key)
    requires DistinctEvidence(results, observations)
    ensures var finals, lifecycle := LatestFinals(results), LatestLifecycle(forecasts, observations);
            k in Invalidated(finals, lifecycle, ExcludedKeys(lifecycle, ledger))
            <==> Contrary(forecasts, results, observations, ledger)(k)
  {
    var finals, lifecycle := LatestFinals(results), LatestLifecycle(forecasts, observations);
    StandsIs(forecasts, results, observations, ledger, k);
    LastSeenIs(forecasts, observations, k);
    assert k in lifecycle ==> LastSeen(forecasts, observations, k, lifecycle[k]);
    HasResult(results, k);
    hide LatestLifecycle;
    hide LatestFinals;
    hide ExcludedKeys;
    hide Pairable;
    hide Stands;
    hide LastSeen;
  }

  lemma HasResult(results: seq<Final>, k: Key)
    ensures k in LatestFinals(results) <==> exists x :: x in results && x.key == k
  {
    LatestIsNewest(results, KeyOfFinal(), StampOfFinal(), k);
    hide Latest;
    if x :| x in results && x.key == k {
      assert KeyOfFinal()(x) == k;
    }
  }

  lemma OldestIs(pending: seq<Forecast>)
    requires pending != []
    ensures exists f :: f in pending && f.key.kickoff == MinOf(Kickoffs(pending))
    ensures forall f :: f in pending ==> MinOf(Kickoffs(pending)) <= f.key.kickoff
  {
    var ks := Kickoffs(pending);
    var i :| 0 <= i < |ks| && ks[i] == MinOf(ks);
    assert pending[i] in pending;
    forall f | f in pending ensures MinOf(ks) <= f.key.kickoff {
      var j :| 0 <= j < |pending| && pending[j] == f;
      assert ks[j] in ks;
    }
  }

  /** The report links exactly the forecasts whose fixture stands, and keeps open those that have kicked off, are not
      taken out and do not stand. */
  lemma MeasuredReports(forecasts: seq<Forecast>, results: seq<Final>, observations: Option<seq<Observation>>,
                        calendar: Option<map<string, int>>, cutoff: int, ledger: seq<Key>)
    requires DistinctEvidence(results, observations)
    ensures Reports(Measured(forecasts, results, observations, calendar, cutoff, ledger), forecasts, results,
                    observations, cutoff, ledger)
  {
    hide *;
    var report := Measured(forecasts, results, observations, calendar, cutoff, ledger);
    MeasuredParts(forecasts, results, observations, calendar, cutoff, ledger);
    LinkedIsStanding(forecasts, results, observations, cutoff, ledger);
    InvalidatedIsContrary(forecasts, results, observations, ledger);
    if report.pending != [] {
      OldestIs(report.pending);
    }
    forall k ensures k in report.excludedKeys <==> TakenOut(forecasts, observations, ledger, k) {
      TakenOutParts(forecasts, results, observations, ledger, k);
    }
    ReportsIntro(report, forecasts, results, observations, cutoff, ledger,
                 Invalidated(LatestFinals(results), LatestLifecycle(forecasts, observations), report.excludedKeys));
  }

  lemma TakenOutParts(forecasts: seq<Forecast>, results: seq<Final>, observations: Option<seq<Observation>>,
                      ledger: seq<Key>, k: Key)
    requires DistinctEvidence(results, observations)
    ensures k in ExcludedKeys(LatestLifecycle(forecasts, observations), ledger)
       <==> TakenOut(forecasts, observations, ledger, k)
  {
    TakenOutIs(forecasts, observations, ledger, k);
  }

  lemma MeasuredParts(forecasts: seq<Forecast>, results: seq<Final>, observations: Option<seq<Observation>>,
                      calendar: Option<map<string, int>>, cutoff: int, ledger: seq<Key>)
    ensures var report := Measured(forecasts, results, observations, calendar, cutoff, ledger);
            var finals, lifecycle := LatestFinals(results), LatestLifecycle(forecasts, observations);
            var excluded := ExcludedKeys(lifecycle, ledger);
            && report.preserved == |results| && report.excludedKeys == excluded
            && report.linked == |Filter(forecasts, Linked(finals, lifecycle, excluded))|
            && report.pending == Filter(forecasts, Waiting(finals, lifecycle, excluded, cutoff))
            && report.oldest == (if report.pending == [] then None else Some(MinOf(Kickoffs(report.pending))))
            && report.invalidated == |Invalidated(finals, lifecycle, excluded)|
  {
    hide LatestLifecycle;
    hide LatestFinals;
    hide ExcludedKeys;
    hide Filter;
    hide Counts;
    hide LastTime;
    hide Invalidated;
  }

  lemma ReportsIntro(report: Report, forecasts: seq<Forecast>, results: seq<Final>,
                     observations: Option<seq<Observation>>, cutoff: int, ledger: seq<Key>, bad: map<Key, string>)
    requires report.preserved == |results|
    requires report.linked == |Filter(forecasts, Standing(forecasts, results, observations, ledger))|
    requires report.pending == Filter(forecasts, Open(forecasts, results, observations, cutoff, ledger))
    requires report.oldest == if report.pending == [] then None else Some(MinOf(Kickoffs(report.pending)))
    requires report.pending != [] ==>
               && (exists f :: f in report.pending && f.key.kickoff == MinOf(Kickoffs(report.pending)))
               && forall f :: f in report.pending ==> MinOf(Kickoffs(report.pending)) <= f.key.kickoff
    requires forall k :: k in report.excludedKeys <==> TakenOut(forecasts, observations, ledger, k)
    requires Comprises(bad.Keys, Contrary(forecasts, results, observations, ledger)) && |bad| == |bad.Keys|
    requires report.invalidated == |bad|
    ensures Reports(report, forecasts, results, observations, cutoff, ledger)
  {
    hide Standing;
    hide Open;
    hide TakenOut;
    hide Contrary;
    hide Comprises;
    hide Filter;
    hide MinOf;
  }

  /** Fixtures whose last observation has this status, or this reason. */
  ghost function WithStatus(forecasts: seq<Forecast>, observations: Option<seq<Observation>>, s: string): Key -> bool {
    (k: Key) => exists o :: LastSeen(forecasts, observations, k, o) && o.status == s
  }

  ghost function WithReason(forecasts: seq<Forecast>, observations: Option<seq<Observation>>, s: string): Key -> bool {
    (k: Key) => exists o :: LastSeen(forecasts, observations, k, o) && o.reason == s
  }

  /** A counter has the label exactly when some key does, and counts these. */
  ghost predicate Tells(counts: map<string, nat>, s: string, p: Key -> bool) {
    exists keys :: Comprises(keys, p) && (s in counts <==> keys != {}) && (s in counts ==> counts[s] == |keys|)
  }

  /** The counters of the lifecycle count the forecast fixtures by their last observation. */
  lemma LifecycleReads(forecasts: seq<Forecast>, results: seq<Final>, observations: Option<seq<Observation>>,
                       calendar: Option<map<string, int>>, cutoff: int, ledger: seq<Key>, s: string)
    requires DistinctEvidence(results, observations) && observations.Some?
    ensures var report := Measured(forecasts, results, observations, calendar, cutoff, ledger);
            && report.lifecycle.Some? && Tells(report.lifecycle.value, s, WithStatus(forecasts, observations, s))
            && report.reasons.Some? && Tells(report.reasons.value, s, WithReason(forecasts, observations, s))
            && (report.lastObserved.Some? ==>
                  && (exists k, o :: LastSeen(forecasts, observations, k, o)
                                     && o.stamp.observed == report.lastObserved.value)
                  && forall k, o :: LastSeen(forecasts, observations, k, o) ==>
                       o.stamp.observed <= report.lastObserved.value)
  {
    hide *;
    var lifecycle := LatestLifecycle(forecasts, observations);
    LifecycleParts(forecasts, results, observations, calendar, cutoff, ledger);
    forall k {
      LastSeenIs(forecasts, observations, k);
    }
    StatusTells(forecasts, observations, lifecycle, s);
    LastObservedIs(forecasts, observations, lifecycle);
  }

  lemma LifecycleParts(forecasts: seq<Forecast>, results: seq<Final>, observations: Option<seq<Observation>>,
                       calendar: Option<map<string, int>>, cutoff: int, ledger: seq<Key>)
    requires observations.Some?
    requires DistinctEvidence(results, observations)
    ensures DistinctIds(observations.value, StampOfObservation())
    ensures var report := Measured(forecasts, results, observations, calendar, cutoff, ledger);
            var lifecycle := LatestLifecycle(forecasts, observations);
            && report.lifecycle == Some(Counts(Statuses(lifecycle)))
            && report.reasons == Some(Counts(Reasons(lifecycle)))
            && report.lastObserved == LastTime(ObservedTimes(lifecycle))
  {
    hide LatestLifecycle;
    hide LatestFinals;
    hide Filter;
    hide Counts;
    hide LastTime;
    hide ExcludedKeys;
  }

  lemma StatusTells(forecasts: seq<Forecast>, observations: Option<seq<Observation>>, lifecycle: map<Key, Observation>,
                    s: string)
    requires forall k, o :: LastSeen(forecasts, observations, k, o) <==> k in lifecycle && lifecycle[k] == o
    ensures Tells(Counts(Statuses(lifecycle)), s, WithStatus(forecasts, observations, s))
    ensures Tells(Counts(Reasons(lifecycle)), s, WithReason(forecasts, observations, s))
  {
    hide LastSeen;
    hide Counts;
    CountsAt(Statuses(lifecycle), s);
    CountsAt(Reasons(lifecycle), s);
    assert Comprises(Labelled(Statuses(lifecycle), s), WithStatus(forecasts, observations, s));
    assert Comprises(Labelled(Reasons(lifecycle), s), WithReason(forecasts, observations, s));
  }

  lemma LastObservedIs(forecasts: seq<Forecast>, observations: Option<seq<Observation>>,
                       lifecycle: map<Key, Observation>)
    requires forall k, o :: LastSeen(forecasts, observations, k, o) <==> k in lifecycle && lifecycle[k] == o
    ensures var last := LastTime(ObservedTimes(lifecycle));
            last.Some? ==>
              && (exists k, o :: LastSeen(forecasts, observations, k, o) && o.stamp.observed == last.value)
              && forall k, o :: LastSeen(forecasts, observations, k, o) ==> o.stamp.observed <= last.value
  {
    hide LastSeen;
    var times := ObservedTimes(lifecycle);
    var last := LastTime(times);
    if last.Some? {
      var k :| k in times && times[k] == last.value;
      assert LastSeen(forecasts, observations, k, lifecycle[k]);
      forall k, o | LastSeen(forecasts, observations, k, o) ensures o.stamp.observed <= last.value {
        assert k in times && times[k] in times.Values;
      }
    }
    hide LastTime;
  }

  // ---------- The calendar ----------

  /** A row of the calendar for the match, at that kickoff. */
  predicate Scheduled(calendar: map<string, int>, k: Key) {
    k.matchId in calendar && calendar[k.matchId] == k.kickoff
  }

  /** Against a calendar: results of its fixtures that were never forecast, forecasts of no fixture of it, and its
      fixtures that are taken out. */
  lemma CalendarFigures(forecasts: seq<Forecast>, results: seq<Final>, observations: Option<seq<Observation>>,
                        calendar: map<string, int>, cutoff: int, ledger: seq<Key>)
    requires DistinctEvidence(results, observations)
    ensures var report := Measured(forecasts, results, observations, Some(calendar), cutoff, ledger);
            && report.unassociated
               == Some(|Filter(results, (r: Final) => Scheduled(calendar, r.key)
                                          && forall f :: f in forecasts ==> f.key != r.key)|)
            && report.orphans == Some(|Filter(forecasts, (f: Forecast) => !Scheduled(calendar, f.key))|)
            && exists ids: set<string> ::
                 report.excludedFixtures == Some(|ids|)
                 && forall id :: id in ids <==>
                      id in calendar && TakenOut(forecasts, observations, ledger, Key(id, calendar[id]))
  {
    var excluded := ExcludedKeys(LatestLifecycle(forecasts, observations), ledger);
    var unforecast := (r: Final) => Scheduled(calendar, r.key) && forall f :: f in forecasts ==> f.key != r.key;
    FilterCong(results, Unassociated(calendar, ForecastKeys(forecasts)), unforecast);
    FilterCong(forecasts, Orphan(calendar), (f: Forecast) => !Scheduled(calendar, f.key));
    var ids := set id | id in calendar && Key(id, calendar[id]) in excluded;
    forall id | id in calendar
      ensures id in ids <==> TakenOut(forecasts, observations, ledger, Key(id, calendar[id]))
    {
      TakenOutIs(forecasts, observations, ledger, Key(id, calendar[id]));
    }
    hide LatestLifecycle;
    hide LatestFinals;
    hide ExcludedKeys;
    hide TakenOut;
    hide Filter;
    hide Counts;
  }

  // ---------- Admission ----------

  /** Evidence of a result that was known by the cutoff: read, of a match that had kicked off, with both goals. */
  predicate KnownBy(r: StoredFinal, cutoff: int, f: Final) {
    && r.kickoff == Some(f.key.kickoff) && r.observed == Some(f.stamp.observed) && r.recorded == Some(f.stamp.recorded)
    && r.home == Some(f.home) && r.away == Some(f.away) && r.matchId == f.key.matchId
    && r.evidenceId == f.stamp.evidenceId
    && f.home >= 0 && f.away >= 0 && f.key.kickoff < f.stamp.observed <= f.stamp.recorded <= cutoff
  }

  lemma {:induction false} AdmittedAreKnown(rows: seq<StoredFinal>, cutoff: int)
    ensures forall f :: f in Admitted(rows, cutoff) <==> exists r :: r in rows && KnownBy(r, cutoff, f)
  {
    if rows != [] {
      var n := |rows| - 1;
      AdmittedAreKnown(rows[..n], cutoff);
      assert rows == rows[..n] + [rows[n]];
      forall f ensures f in Admitted(rows, cutoff) <==> exists r :: r in rows && KnownBy(r, cutoff, f) {
        KnownOne(rows[n], cutoff, f);
        hide KnownBy;
        hide Admissible;
        assert f in Admitted(rows, cutoff) <==> f in Admitted(rows[..n], cutoff) || KnownBy(rows[n], cutoff, f);
      }
    }
  }

  lemma KnownOne(r: StoredFinal, cutoff: int, f: Final)
    ensures KnownBy(r, cutoff, f) <==> Admissible(r, cutoff) && f == Loaded(r)
  {
  }
}
