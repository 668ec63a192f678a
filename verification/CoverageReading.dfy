/** The coverage report in hours and rows: its windows, its scope, the forecasts it selects and sets aside. */
module CoverageReading {
  import opened Wrappers
  import opened Sequences
  import opened Tallies
  import opened ResultMonitoring
  import opened Coverage

  // ---------- Hours ----------

  /** Forecasts count from 24 hours to one hour before kickoff, both ends included. */
  predicate InTime(at: int, kickoff: int) {
    at + 86_400_000 >= kickoff && kickoff >= at + 3_600_000
  }

  /** A fixture is overdue from one hour before kickoff, open from 24 hours before, and lies ahead until then. */
  lemma WindowsRead(s: Scope, kickoff: int, id: string)
    ensures IsOverdue(s)(Key(id, kickoff)) <==> kickoff <= s.cutoff + 3_600_000
    ensures IsOpen(s)(Key(id, kickoff)) <==> s.cutoff + 3_600_000 < kickoff && kickoff <= s.cutoff + 86_400_000
    ensures IsFuture(s)(Key(id, kickoff)) <==> s.cutoff + 86_400_000 < kickoff
  {
  }

  // ---------- The scope ----------

  /** A calendar row of the match, dated in the interval. */
  predicate DatedAs(s: Scope, f: Fixture, id: string) {
    f.matchId == id && f.date.Some? && s.from <= f.date.value && f.date.value < s.to
  }

  /** The i-th row is the last one of the match that is dated so. */
  predicate IsLastDated(s: Scope, fixtures: seq<Fixture>, id: string, i: nat) {
    i < |fixtures| && DatedAs(s, fixtures[i], id) && forall j :: i < j < |fixtures| ==> !DatedAs(s, fixtures[j], id)
  }

  /** The last calendar row of a match dated in the interval decides. */
  ghost predicate LastDated(s: Scope, fixtures: seq<Fixture>, id: string, date: int) {
    exists i: nat :: IsLastDated(s, fixtures, id, i) && fixtures[i].date == Some(date)
  }

  lemma {:induction false} ScopeReads(s: Scope, fixtures: seq<Fixture>, id: string)
    ensures var scoped := Scoped(Rows(s, fixtures));
            && (id in scoped ==> LastDated(s, fixtures, id, scoped[id]))
            && forall date :: LastDated(s, fixtures, id, date) ==> id in scoped && scoped[id] == date
  {
    if fixtures != [] {
      var n := |fixtures| - 1;
      var f, before := fixtures[n], fixtures[..n];
      ScopeReads(s, before, id);
      ScopeStep(s, fixtures, n);
      assert fixtures[..n + 1] == fixtures;
      hide Scoped;
      hide Rows;
      hide Filter;
      forall date
        ensures LastDated(s, fixtures, id, date)
           <==> if DatedAs(s, f, id) then f.date == Some(date) else LastDated(s, before, id, date)
      {
        LastStep(s, fixtures, id, date);
      }
      hide LastDated;
    }
  }

  lemma LastStep(s: Scope, fixtures: seq<Fixture>, id: string, date: int)
    requires fixtures != []
    ensures var n := |fixtures| - 1; var f := fixtures[n];
            LastDated(s, fixtures, id, date)
            <==> if DatedAs(s, f, id) then f.date == Some(date) else LastDated(s, fixtures[..n], id, date)
  {
    hide DatedAs;
    var n := |fixtures| - 1;
    var before := fixtures[..n];
    assert forall i :: 0 <= i < n ==> before[i] == fixtures[i];
    if DatedAs(s, fixtures[n], id) {
      assert IsLastDated(s, fixtures, id, n);
      forall i: nat | IsLastDated(s, fixtures, id, i) ensures i == n {
      }
    } else {
      forall i: nat ensures IsLastDated(s, fixtures, id, i) <==> IsLastDated(s, before, id, i) {
        EarlierDated(s, fixtures, id, i);
      }
    }
    hide IsLastDated;
  }

  lemma EarlierDated(s: Scope, fixtures: seq<Fixture>, id: string, i: nat)
    requires fixtures != [] && !DatedAs(s, fixtures[|fixtures| - 1], id)
    ensures IsLastDated(s, fixtures, id, i) <==> IsLastDated(s, fixtures[..|fixtures| - 1], id, i)
  {
    hide DatedAs;
    var n := |fixtures| - 1;
    if IsLastDated(s, fixtures, id, i) {
      assert i != n;
    }
    if IsLastDated(s, fixtures[..n], id, i) {
      forall j | i < j < |fixtures| ensures !DatedAs(s, fixtures[j], id) {
        assert j < n ==> fixtures[..n][j] == fixtures[j];
      }
    }
  }

  // ---------- Forecasts ----------

  /** A forecast of the inspected origin, known by the cutoff, in time. */
  predicate Qualifies(s: Scope, r: Record) {
    r.belongs && s.cutoff >= r.at && InTime(r.at, r.kickoff)
  }

  /** A fixture is recorded when some forecast counts for it. */
  lemma RecordedReads(s: Scope, records: seq<Record>, e: Key)
    ensures Recorded(s, records, e)
       <==> exists r :: r in records && Qualifies(s, r) && r.matchId == e.matchId && r.kickoff == e.kickoff
  {
  }

  /** For a fixture of the scope the earliest forecast that counts is selected, with the least id among those. */
  lemma SelectionReads(s: Scope, scoped: map<string, int>, records: seq<Record>, selected: map<string, Record>,
                       id: string)
    requires IsSelection(s, scoped, records, selected)
    ensures id in selected
       <==> id in scoped && exists r :: r in records && Qualifies(s, r) && r.matchId == id && r.kickoff == scoped[id]
    ensures id in selected ==>
              && selected[id] in records && Qualifies(s, selected[id])
              && selected[id].matchId == id && selected[id].kickoff == scoped[id]
              && forall r :: r in records && Qualifies(s, r) && r.matchId == id && r.kickoff == scoped[id] ==>
                   && selected[id].at <= r.at && (selected[id].at == r.at ==> TextLe(selected[id].id, r.id))
  {
    forall r ensures Usable(s, r) <==> Qualifies(s, r) {
    }
    hide Usable;
    hide Qualifies;
    if id in selected {
      forall r | r in records && Qualifies(s, r) && r.matchId == id && r.kickoff == scoped[id]
        ensures selected[id].at <= r.at && (selected[id].at == r.at ==> TextLe(selected[id].id, r.id))
      {
        TextTotal(selected[id].id, r.id);
        TextTotal(r.id, r.id);
        assert Candidate(s, scoped, r);
      }
    }
  }

  function InScope(s: Scope, scoped: map<string, int>): Record -> bool {
    (r: Record) => r.belongs && s.cutoff >= r.at && r.matchId in scoped
  }

  function Moved(s: Scope, scoped: map<string, int>): Record -> bool {
    (r: Record) => r.belongs && s.cutoff >= r.at && r.matchId in scoped && scoped[r.matchId] != r.kickoff
  }

  function Untimely(s: Scope, scoped: map<string, int>): Record -> bool {
    (r: Record) =>
      && r.belongs && s.cutoff >= r.at && r.matchId in scoped && scoped[r.matchId] == r.kickoff
      && !InTime(r.at, r.kickoff)
  }

  /** Of the forecasts of the scope known by the cutoff: conflicts name another kickoff than the calendar, and those
      outside name the same one at the wrong time. */
  lemma SetAsideReads(s: Scope, scoped: map<string, int>, records: seq<Record>)
    ensures Filter(records, Stored(s, scoped)) == Filter(records, InScope(s, scoped))
    ensures Filter(Filter(records, Stored(s, scoped)), Conflict(scoped)) == Filter(records, Moved(s, scoped))
    ensures Filter(Filter(records, Stored(s, scoped)), Outside(scoped)) == Filter(records, Untimely(s, scoped))
  {
    FilterCong(records, Stored(s, scoped), InScope(s, scoped));
    FilterTwice(records, Stored(s, scoped), Conflict(scoped), Moved(s, scoped));
    FilterTwice(records, Stored(s, scoped), Outside(scoped), Untimely(s, scoped));
    hide Filter;
  }

  // ---------- Provenance ----------

  /** Absent, or not after the forecast. */
  predicate NotAfter(m: Mark, at: int) {
    m.Absent? || (m.Instant? && m.at <= at)
  }

  /** A selected forecast can be evaluated when its snapshot matches its hash, nothing marks it as technical, its
      input time is given, and no time is after the forecast. */
  lemma EvaluableIff(r: Record)
    ensures var p := r.provenance;
            IssueOf(r) == None <==>
              && p.hasSnapshot && p.hashMatches && !p.declared.TechnicalOnly? && !p.rigorousDenied
              && !p.snapshotTechnical && p.inputThrough.Instant? && NotAfter(p.inputThrough, r.at)
              && NotAfter(p.observedThrough, r.at)
  {
  }

  /** Otherwise the first of these is its issue. */
  lemma IssueReads(r: Record)
    ensures var p := r.provenance;
            var technical := p.declared.TechnicalOnly? || p.rigorousDenied || p.snapshotTechnical;
            var checked := p.hasSnapshot && p.hashMatches && !technical;
            && (IssueOf(r) == Some(SnapshotMissing) <==> !p.hasSnapshot)
            && (IssueOf(r) == Some(HashMismatch) <==> p.hasSnapshot && !p.hashMatches)
            && (IssueOf(r) == Some(TechnicalInput) <==> p.hasSnapshot && p.hashMatches && technical)
            && (IssueOf(r) == Some(AvailabilityUnverified) <==> checked && p.inputThrough.Absent?)
            && (IssueOf(r) == Some(AfterForecast) <==>
                checked && p.inputThrough.Instant?
                && (p.inputThrough.at > r.at || (p.observedThrough.Instant? && p.observedThrough.at > r.at)))
            && (IssueOf(r) == Some(TimestampInvalid) <==>
                checked && (p.inputThrough.Unreadable?
                            || (p.inputThrough.Instant? && p.inputThrough.at <= r.at && p.observedThrough.Unreadable?)))
    ensures ClassOf(r) == ClassTechnical <==> r.provenance.declared.TechnicalOnly?
    ensures ClassOf(r) == ClassDeclared <==> r.provenance.declared.Verified?
  {
  }

  function Affected(selected: map<string, Record>, issue: Issue): set<string> {
    set id | id in selected && IssueOf(selected[id]) == Some(issue)
  }

  function OfClass(selected: map<string, Record>, c: Class): set<string> {
    set id | id in selected && ClassOf(selected[id]) == c
  }

  /** The report counts the selected forecasts with an issue, those of every issue and of every class that occurs, and
      the stored rows that cannot be read. */
  lemma ProvenanceReads(s: Scope, fixtures: seq<Fixture>, rows: seq<Option<Record>>, spool: seq<Record>,
                        selected: map<string, Record>, e: EvidenceFigures)
    requires Evidence(s, fixtures, rows, spool, selected, e)
    ensures e.nonEvaluable == |set id | id in selected && IssueOf(selected[id]) != None|
    ensures forall i :: (i in e.reasons <==> Affected(selected, i) != {})
                        && (i in e.reasons ==> e.reasons[i] == |Affected(selected, i)|)
    ensures forall c :: (c in e.classes <==> OfClass(selected, c) != {})
                        && (c in e.classes ==> e.classes[c] == |OfClass(selected, c)|)
    ensures e.invalid == |Filter(rows, (row: Option<Record>) => row == None)|
  {
    ProvenanceParts(s, fixtures, rows, spool, selected, e);
    FilterCong(rows, Unparsed(), (row: Option<Record>) => row == None);
    IssuesCount(selected);
    hide *;
    forall i
      ensures i in e.reasons <==> Affected(selected, i) != {}
      ensures i in e.reasons ==> e.reasons[i] == |Affected(selected, i)|
    {
      ReasonReads(selected, i);
    }
    forall c
      ensures c in e.classes <==> OfClass(selected, c) != {}
      ensures c in e.classes ==> e.classes[c] == |OfClass(selected, c)|
    {
      ClassReads(selected, c);
    }
  }

  lemma IssuesCount(selected: map<string, Record>)
    ensures |Issues(selected)| == |set id | id in selected && IssueOf(selected[id]) != None|
  {
    hide IssueOf;
    var bad := Issues(selected);
    assert bad.Keys == set id | id in selected && IssueOf(selected[id]) != None;
    assert |bad| == |bad.Keys|;
  }

  lemma ReasonReads(selected: map<string, Record>, i: Issue)
    ensures var counts := Counts(Issues(selected));
            && (i in counts <==> Affected(selected, i) != {})
            && (i in counts ==> counts[i] == |Affected(selected, i)|)
  {
    var bad := Issues(selected);
    CountsAt(bad, i);
    hide IssueOf;
    hide Counts;
    assert Labelled(bad, i) == Affected(selected, i);
  }

  lemma ClassReads(selected: map<string, Record>, c: Class)
    ensures var counts := Counts(Classes(selected));
            && (c in counts <==> OfClass(selected, c) != {})
            && (c in counts ==> counts[c] == |OfClass(selected, c)|)
  {
    var all := Classes(selected);
    CountsAt(all, c);
    hide ClassOf;
    hide Counts;
    assert Labelled(all, c) == OfClass(selected, c);
  }

  lemma ProvenanceParts(s: Scope, fixtures: seq<Fixture>, rows: seq<Option<Record>>, spool: seq<Record>,
                        selected: map<string, Record>, e: EvidenceFigures)
    requires Evidence(s, fixtures, rows, spool, selected, e)
    ensures e.nonEvaluable == |Issues(selected)| && e.reasons == Counts(Issues(selected))
    ensures e.classes == Counts(Classes(selected)) && e.invalid == |Filter(rows, Unparsed())|
  {
    hide Filter;
    hide Counts;
    hide Issues;
    hide Classes;
  }

  // ---------- Identities ----------

  /** Forecasts received are counted by id, those recorded one by one, and their matches by match. */
  lemma IdentitiesRead(s: Scope, fixtures: seq<Fixture>, rows: seq<Option<Record>>, spool: seq<Record>,
                       selected: map<string, Record>, e: EvidenceFigures)
    requires Evidence(s, fixtures, rows, spool, selected, e)
    ensures var scoped, records := Scoped(Rows(s, fixtures)), Coverage.Loaded(s, rows);
            var here, there := Filter(records, InScope(s, scoped)), Filter(spool, InScope(s, scoped));
            && e.received == |(set r | r in here :: r.id) + (set r | r in there :: r.id)|
            && e.recorded == |here| && e.recordedMatches == |set r | r in here :: r.matchId|
            && e.unconfirmed + e.alreadyRecorded == |there|
            && e.conflicts == |Filter(records, Moved(s, scoped))| && e.outside == |Filter(records, Untimely(s, scoped))|
            && e.inWindow == |selected|
  {
    var scoped, records := Scoped(Rows(s, fixtures)), Coverage.Loaded(s, rows);
    var here, there := Filter(records, InScope(s, scoped)), Filter(spool, InScope(s, scoped));
    EvidenceParts(s, fixtures, rows, spool, selected, e);
    hide *;
    SetAsideReads(s, scoped, records);
    SetAsideReads(s, scoped, spool);
    IdsOfAll(here, there);
    InOrOut(there, Coverage.Ids(records));
  }

  lemma IdsOfAll(here: seq<Record>, there: seq<Record>)
    ensures |ById(here + there)| == |(set r | r in here :: r.id) + (set r | r in there :: r.id)|
    ensures MatchIds(here) == set r | r in here :: r.matchId
  {
    ByIdKeys(here + there);
    SizeOfMap(ById(here + there));
    assert Coverage.Ids(here + there) == (set r | r in here :: r.id) + (set r | r in there :: r.id);
    hide ById;
  }

  lemma EvidenceParts(s: Scope, fixtures: seq<Fixture>, rows: seq<Option<Record>>, spool: seq<Record>,
                      selected: map<string, Record>, e: EvidenceFigures)
    requires Evidence(s, fixtures, rows, spool, selected, e)
    ensures var scoped, records := Scoped(Rows(s, fixtures)), Coverage.Loaded(s, rows);
            var stored, pending := Filter(records, Stored(s, scoped)), Filter(spool, Stored(s, scoped));
            && e.received == |ById(stored + pending)| && e.recorded == |stored|
            && e.recordedMatches == |MatchIds(stored)|
            && e.unconfirmed == |Filter(pending, IdNotIn(Coverage.Ids(records)))|
            && e.alreadyRecorded == |Filter(pending, IdIn(Coverage.Ids(records)))|
            && e.outside == |Filter(stored, Outside(scoped))| && e.conflicts == |Filter(stored, Conflict(scoped))|
            && e.inWindow == |selected|
  {
  }

  lemma {:induction false} InOrOut(spool: seq<Record>, ids: set<string>)
    ensures |Filter(spool, IdIn(ids))| + |Filter(spool, IdNotIn(ids))| == |spool|
  {
    if spool != [] {
      InOrOut(spool[..|spool| - 1], ids);
    }
  }
}
