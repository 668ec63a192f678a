/** Coverage of the fixture calendar by forecasts, counted by `coverage` and again by `inspect`. */
module Coverage {
  import opened Wrappers
  import opened Sequences
  import opened Tallies

  import opened ResultMonitoring

  const HOUR := 3_600_000

  /** A calendar row; None when its date cannot be read. */
  datatype Fixture = Fixture(matchId: string, date: Option<int>)

  /** What a payload declares about its provenance. */
  datatype Declared = TechnicalOnly | Verified | OtherDeclared

  /** A timestamp of a payload: absent, unreadable or an instant. */
  datatype Mark = Absent | Unreadable | Instant(at: int)

  /** `rigorousDenied` and `snapshotTechnical` are the flags that mark a payload as technical besides its class. */
  datatype Provenance = Provenance(declared: Declared, rigorousDenied: bool, hasSnapshot: bool, hashMatches: bool,
                                   snapshotTechnical: bool, inputThrough: Mark, observedThrough: Mark)

  /** A stored forecast that parses. `belongs` says that it has the origin, competition, season and protocol of
      the inspection. */
  datatype Record = Record(id: string, matchId: string, at: int, kickoff: int, belongs: bool, provenance: Provenance)

  datatype Scope = Scope(from: int, to: int, cutoff: int)

  // ---------- The scope ----------

  predicate Dated(s: Scope, f: Fixture) {
    f.date.Some? && s.from <= f.date.value < s.to
  }

  /** The rows dated inside the interval, in order. */
  function Rows(s: Scope, fixtures: seq<Fixture>): seq<Key> {
    if fixtures == [] then []
    else
      var before, f := Rows(s, fixtures[..|fixtures| - 1]), fixtures[|fixtures| - 1];
      if Dated(s, f) then before + [Key(f.matchId, f.date.value)] else before
  }

  /** The map by match id: the last row of an id wins. */
  function Scoped(rows: seq<Key>): map<string, int> {
    if rows == [] then map[] else Scoped(rows[..|rows| - 1])[rows[|rows| - 1].matchId := rows[|rows| - 1].kickoff]
  }

  /** The rows that a later row of the same match id replaces in the map. */
  function Shadowed(rows: seq<Key>): seq<Key> {
    if rows == [] then []
    else
      var before, row := rows[..|rows| - 1], rows[|rows| - 1];
      if row.matchId in Scoped(before) then Shadowed(before) + [Key(row.matchId, Scoped(before)[row.matchId])]
      else Shadowed(before)
  }

  predicate Overdue(s: Scope, kickoff: int) {
    s.cutoff >= kickoff - HOUR
  }

  predicate OpenWindow(s: Scope, kickoff: int) {
    !Overdue(s, kickoff) && s.cutoff >= kickoff - 24 * HOUR
  }

  function Holding(m: map<string, int>, p: Key -> bool): set<string> {
    set id | id in m && p(Key(id, m[id]))
  }

  function CountIn(m: map<string, int>, p: Key -> bool): nat {
    |Holding(m, p)|
  }

  // ---------- Forecasts inside their window ----------

  predicate InWindow(r: Record) {
    r.kickoff - 24 * HOUR <= r.at <= r.kickoff - HOUR
  }

  predicate Usable(s: Scope, r: Record) {
    r.belongs && r.at <= s.cutoff && InWindow(r)
  }

  predicate Recorded(s: Scope, records: seq<Record>, e: Key) {
    exists r :: r in records && Usable(s, r) && r.matchId == e.matchId && r.kickoff == e.kickoff
  }

  predicate Earlier(a: Record, b: Record) {
    a.at < b.at || (a.at == b.at && a.id != b.id && TextLe(a.id, b.id))
  }

  /** A stored forecast that counts for a fixture of the map. */
  predicate Candidate(s: Scope, scoped: map<string, int>, r: Record) {
    Usable(s, r) && r.matchId in scoped && r.kickoff == scoped[r.matchId]
  }

  function Stored(s: Scope, scoped: map<string, int>): Record -> bool {
    (r: Record) => r.at <= s.cutoff && r.belongs && r.matchId in scoped
  }

  function Conflict(scoped: map<string, int>): Record -> bool {
    (r: Record) => r.matchId in scoped && r.kickoff != scoped[r.matchId]
  }

  function Outside(scoped: map<string, int>): Record -> bool {
    (r: Record) => r.matchId in scoped && r.kickoff == scoped[r.matchId] && !InWindow(r)
  }

  function Undated(): Fixture -> bool {
    (f: Fixture) => f.date == None
  }

  /** One more calendar row. */
  lemma ScopeStep(s: Scope, fixtures: seq<Fixture>, i: nat)
    requires i < |fixtures|
    ensures var f := fixtures[i]; var before := fixtures[..i];
            && Scoped(Rows(s, fixtures[..i + 1])) ==
                 (if Dated(s, f) then Scoped(Rows(s, before))[f.matchId := f.date.value] else Scoped(Rows(s, before)))
            && |Filter(fixtures[..i + 1], Undated())| == |Filter(before, Undated())| + if f.date == None then 1 else 0
  {
    var f, before := fixtures[i], Rows(s, fixtures[..i]);
    assert fixtures[..i + 1][..i] == fixtures[..i];
    if Dated(s, f) {
      assert (before + [Key(f.matchId, f.date.value)])[..|before|] == before;
    }
  }

  lemma ScopeStart(s: Scope)
    ensures Scoped(Rows(s, [])) == map[] && Filter([], Undated()) == []
  {
  }

  method BuildScope(s: Scope, fixtures: seq<Fixture>) returns (scoped: map<string, int>, invalid: nat)
    ensures scoped == Scoped(Rows(s, fixtures))
    ensures invalid == |Filter(fixtures, Undated())|
  {
    scoped, invalid := map[], 0;
    hide Scoped;
    hide Rows;
    hide Filter;
    ScopeStart(s);
    for i := 0 to |fixtures|
      invariant scoped == Scoped(Rows(s, fixtures[..i])) && invalid == |Filter(fixtures[..i], Undated())|
    {
      var f := fixtures[i];
      ScopeStep(s, fixtures, i);
      if f.date == None {
        invalid := invalid + 1;
      } else if s.from <= f.date.value < s.to {
        scoped := scoped[f.matchId := f.date.value];
      }
    }
    assert fixtures[..|fixtures|] == fixtures;
  }

  /** The earliest usable forecast of each fixture of the map that has one. */
  ghost predicate IsSelection(s: Scope, scoped: map<string, int>, records: seq<Record>, selected: map<string, Record>) {
    && (forall id :: id in selected ==>
          selected[id] in records && Candidate(s, scoped, selected[id]) && selected[id].matchId == id)
    && forall r :: r in records && Candidate(s, scoped, r) ==>
         r.matchId in selected && !Earlier(r, selected[r.matchId])
  }

  lemma EarlierOrder(a: Record, b: Record, c: Record)
    ensures Earlier(a, b) && Earlier(b, c) ==> Earlier(a, c)
    ensures !Earlier(a, a)
  {
    TextTotal(a.id, b.id);
    TextTotal(a.id, c.id);
    if TextLe(a.id, b.id) && TextLe(b.id, c.id) {
      TextTransitive(a.id, b.id, c.id);
    }
  }

  function Taken(s: Scope, scoped: map<string, int>, selected: map<string, Record>, r: Record): map<string, Record> {
    if Candidate(s, scoped, r) && (r.matchId !in selected || Earlier(r, selected[r.matchId])) then
      selected[r.matchId := r]
    else selected
  }

  /** One more forecast, taken when it is a candidate and the earliest so far of its fixture. */
  lemma SelectStep(s: Scope, scoped: map<string, int>, before: seq<Record>, selected: map<string, Record>, r: Record)
    requires IsSelection(s, scoped, before, selected)
    ensures IsSelection(s, scoped, before + [r], Taken(s, scoped, selected, r))
  {
    hide Candidate;
    var after := Taken(s, scoped, selected, r);
    EarlierOrder(r, r, r);
    forall x | x in before + [r] && Candidate(s, scoped, x)
      ensures x.matchId in after && !Earlier(x, after[x.matchId])
    {
      if x.matchId == r.matchId && r.matchId in selected {
        EarlierOrder(x, r, selected[r.matchId]);
      }
    }
    hide Earlier;
  }

  lemma SelectionOfStored(s: Scope, scoped: map<string, int>, records: seq<Record>, selected: map<string, Record>)
    requires IsSelection(s, scoped, Filter(records, Stored(s, scoped)), selected)
    ensures IsSelection(s, scoped, records, selected)
  {
    hide Earlier;
    FilterMembers(records, Stored(s, scoped));
    hide Filter;
  }

  /** The earliest forecast in its window for each fixture, with the forecasts set aside. */
  method SelectForecasts(s: Scope, scoped: map<string, int>, records: seq<Record>)
    returns (selected: map<string, Record>, conflicts: nat, outside: nat)
    ensures IsSelection(s, scoped, records, selected)
    ensures conflicts == |Filter(Filter(records, Stored(s, scoped)), Conflict(scoped))|
    ensures outside == |Filter(Filter(records, Stored(s, scoped)), Outside(scoped))|
  {
    hide IsSelection;
    hide Earlier;
    var stored := Filter(records, Stored(s, scoped));
    FilterMembers(records, Stored(s, scoped));
    selected, conflicts, outside := map[], 0, 0;
    NothingSelected(s, scoped);
    for i := 0 to |stored|
      invariant IsSelection(s, scoped, stored[..i], selected)
      invariant conflicts == |Filter(stored[..i], Conflict(scoped))|
                && outside == |Filter(stored[..i], Outside(scoped))|
    {
      var r := stored[i];
      assert stored[..i + 1] == stored[..i] + [r] && stored[..i + 1][..i] == stored[..i];
      assert r in stored && Stored(s, scoped)(r);
      SelectStep(s, scoped, stored[..i], selected, r);
      if r.kickoff != scoped[r.matchId] {
        conflicts := conflicts + 1;
        continue;
      }
      if !InWindow(r) {
        outside := outside + 1;
        continue;
      }
      if r.matchId !in selected || Earlier(r, selected[r.matchId]) {
        selected := selected[r.matchId := r];
      }
    }
    assert stored[..|stored|] == stored;
    SelectionOfStored(s, scoped, records, selected);
  }

  lemma NothingSelected(s: Scope, scoped: map<string, int>)
    ensures IsSelection(s, scoped, [], map[])
  {
  }

  // ---------- The two counts ----------

  function IsOverdue(s: Scope): Key -> bool {
    (e: Key) => Overdue(s, e.kickoff)
  }

  function IsOpen(s: Scope): Key -> bool {
    (e: Key) => OpenWindow(s, e.kickoff)
  }

  function IsFuture(s: Scope): Key -> bool {
    (e: Key) => !Overdue(s, e.kickoff) && !OpenWindow(s, e.kickoff)
  }

  /** Fixtures of a window without a usable forecast. */
  function Missing(s: Scope, records: seq<Record>, window: Key -> bool): Key -> bool {
    (e: Key) => window(e) && !Recorded(s, records, e)
  }

  function MissingNotExcluded(s: Scope, records: seq<Record>, window: Key -> bool, excluded: set<Key>): Key -> bool {
    (e: Key) => window(e) && !Recorded(s, records, e) && e !in excluded
  }

  function MissingExcluded(s: Scope, records: seq<Record>, window: Key -> bool, excluded: set<Key>): Key -> bool {
    (e: Key) => window(e) && !Recorded(s, records, e) && e in excluded
  }

  datatype Counters = Counters(overdue: nat, open: nat, future: nat, overdueMissing: nat, openMissing: nat)

  function Part(scoped: map<string, int>, seen: set<string>): map<string, int> {
    map id | id in scoped && id in seen :: scoped[id]
  }

  ghost predicate CountedOver(s: Scope, scoped: map<string, int>, records: seq<Record>, seen: set<string>,
                              c: Counters)
  {
    var part := Part(scoped, seen);
    && c.overdue == CountIn(part, IsOverdue(s)) && c.open == CountIn(part, IsOpen(s))
    && c.future == CountIn(part, IsFuture(s))
    && c.overdueMissing == CountIn(part, Missing(s, records, IsOverdue(s)))
    && c.openMissing == CountIn(part, Missing(s, records, IsOpen(s)))
  }

  lemma CountInAdd(m: map<string, int>, id: string, kickoff: int, p: Key -> bool)
    requires id !in m
    ensures CountIn(m[id := kickoff], p) == CountIn(m, p) + if p(Key(id, kickoff)) then 1 else 0
  {
    var before, after := Holding(m, p), Holding(m[id := kickoff], p);
    assert after == if p(Key(id, kickoff)) then before + {id} else before;
    hide Holding;
  }

  lemma CountedAdd(s: Scope, scoped: map<string, int>, records: seq<Record>, seen: set<string>, c: Counters, id: string)
    requires CountedOver(s, scoped, records, seen, c) && id in scoped && id !in seen
    ensures var e := Key(id, scoped[id]);
            var missing := !Recorded(s, records, e);
            CountedOver(s, scoped, records, seen + {id},
              if Overdue(s, scoped[id]) then
                c.(overdue := c.overdue + 1, overdueMissing := c.overdueMissing + if missing then 1 else 0)
              else if OpenWindow(s, scoped[id]) then
                c.(open := c.open + 1, openMissing := c.openMissing + if missing then 1 else 0)
              else c.(future := c.future + 1))
  {
    hide CountIn;
    hide Recorded;
    hide Overdue;
    hide OpenWindow;
    var before, after := Part(scoped, seen), Part(scoped, seen + {id});
    assert after == before[id := scoped[id]];
    CountInAdd(before, id, scoped[id], IsOverdue(s));
    CountInAdd(before, id, scoped[id], IsOpen(s));
    CountInAdd(before, id, scoped[id], IsFuture(s));
    CountInAdd(before, id, scoped[id], Missing(s, records, IsOverdue(s)));
    CountInAdd(before, id, scoped[id], Missing(s, records, IsOpen(s)));
    OpenNotOverdue(s, scoped[id]);
  }

  lemma OpenNotOverdue(s: Scope, kickoff: int)
    ensures OpenWindow(s, kickoff) ==> !Overdue(s, kickoff)
  {
  }

  method CountWindows(s: Scope, scoped: map<string, int>, selected: map<string, Record>, ghost records: seq<Record>)
    returns (c: Counters)
    requires forall id :: id in scoped ==> (id in selected <==> Recorded(s, records, Key(id, scoped[id])))
    ensures CountedOver(s, scoped, records, scoped.Keys, c)
  {
    hide *;
    c := Counters(0, 0, 0, 0, 0);
    NothingCounted(s, scoped, records);
    var seen: set<string>, todo := {}, scoped.Keys;
    while todo != {}
      invariant seen + todo == scoped.Keys && seen !! todo && CountedOver(s, scoped, records, seen, c)
      decreases todo
    {
      var id :| id in todo;
      var kickoff := scoped[id];
      CountedAdd(s, scoped, records, seen, c, id);
      if Overdue(s, kickoff) {
        c := c.(overdue := c.overdue + 1, overdueMissing := c.overdueMissing + if id in selected then 0 else 1);
      } else if OpenWindow(s, kickoff) {
        c := c.(open := c.open + 1, openMissing := c.openMissing + if id in selected then 0 else 1);
      } else {
        c := c.(future := c.future + 1);
      }
      todo, seen := todo - {id}, seen + {id};
    }
    assert seen == scoped.Keys;
  }

  lemma NothingCounted(s: Scope, scoped: map<string, int>, records: seq<Record>)
    ensures CountedOver(s, scoped, records, {}, Counters(0, 0, 0, 0, 0))
  {
    assert Part(scoped, {}) == map[];
    hide Recorded;
    hide Overdue;
    hide OpenWindow;
  }

  // ---------- Provenance of the selected forecasts ----------

  datatype Class = ClassTechnical | ClassDeclared | ClassOther

  datatype Issue =
    | SnapshotMissing | HashMismatch | TechnicalInput | AvailabilityUnverified | AfterForecast | TimestampInvalid

  function ClassOf(r: Record): Class {
    match r.provenance.declared
    case TechnicalOnly => ClassTechnical
    case Verified => ClassDeclared
    case OtherDeclared => ClassOther
  }

  /** The input time is read first; the observed one only when it is present and the first is in time. */
  function IssueOf(r: Record): Option<Issue> {
    var p := r.provenance;
    if !p.hasSnapshot then Some(SnapshotMissing)
    else if !p.hashMatches then Some(HashMismatch)
    else if p.declared == TechnicalOnly || p.rigorousDenied || p.snapshotTechnical then Some(TechnicalInput)
    else
      match p.inputThrough
      case Absent => Some(AvailabilityUnverified)
      case Unreadable => Some(TimestampInvalid)
      case Instant(input) =>
        if input > r.at then Some(AfterForecast)
        else
          match p.observedThrough
          case Absent => None
          case Unreadable => Some(TimestampInvalid)
          case Instant(observed) => if observed > r.at then Some(AfterForecast) else None
  }

  function Classes(selected: map<string, Record>): map<string, Class> {
    map id | id in selected :: ClassOf(selected[id])
  }

  function Issues(selected: map<string, Record>): map<string, Issue> {
    map id | id in selected && IssueOf(selected[id]).Some? :: IssueOf(selected[id]).value
  }

  ghost predicate Classified(selected: map<string, Record>, seen: set<string>, classes: map<Class, nat>,
                             issues: nat, reasons: map<Issue, nat>) {
    && classes == Counts(Restrict(Classes(selected), seen))
    && issues == |Restrict(Issues(selected), seen)| && reasons == Counts(Restrict(Issues(selected), seen))
  }

  lemma ClassifiedStart(selected: map<string, Record>)
    ensures Classified(selected, {}, map[], 0, map[])
  {
    hide Classes;
    hide Issues;
    assert Restrict(Classes(selected), {}) == map[] && Restrict(Issues(selected), {}) == map[];
  }

  lemma ClassifiedStep(selected: map<string, Record>, seen: set<string>, classes: map<Class, nat>, issues: nat,
                       reasons: map<Issue, nat>, id: string)
    requires Classified(selected, seen, classes, issues, reasons) && id in selected && id !in seen
    ensures var issue := IssueOf(selected[id]);
            Classified(selected, seen + {id}, Bump(classes, ClassOf(selected[id])),
                       if issue.Some? then issues + 1 else issues,
                       if issue.Some? then Bump(reasons, issue.value) else reasons)
  {
    hide Counts;
    hide Bump;
    hide Restrict;
    hide IssueOf;
    hide ClassOf;
    var all, bad := Classes(selected), Issues(selected);
    RestrictStep(all, seen, id);
    CountsStep(Restrict(all, seen), id, all[id]);
    if id in bad {
      RestrictStep(bad, seen, id);
      CountsStep(Restrict(bad, seen), id, bad[id]);
    } else {
      RestrictSkip(bad, seen, id);
    }
  }

  lemma ClassifiedEnd(selected: map<string, Record>, seen: set<string>, classes: map<Class, nat>, issues: nat,
                      reasons: map<Issue, nat>)
    requires Classified(selected, seen, classes, issues, reasons) && seen == selected.Keys
    ensures classes == Counts(Classes(selected))
    ensures issues == |Issues(selected)| && reasons == Counts(Issues(selected))
  {
    hide Counts;
    hide Restrict;
    assert Classes(selected).Keys <= seen && Issues(selected).Keys <= seen;
    RestrictAll(Classes(selected), seen);
    RestrictAll(Issues(selected), seen);
  }

  method ClassifySelected(selected: map<string, Record>)
    returns (classes: map<Class, nat>, issues: nat, reasons: map<Issue, nat>)
    ensures classes == Counts(Classes(selected))
    ensures issues == |Issues(selected)| && reasons == Counts(Issues(selected))
  {
    hide *;
    classes, issues, reasons := map[], 0, map[];
    ClassifiedStart(selected);
    var seen: set<string>, todo := {}, selected.Keys;
    while todo != {}
      invariant seen + todo == selected.Keys && seen !! todo && Classified(selected, seen, classes, issues, reasons)
      decreases todo
    {
      var id :| id in todo;
      ClassifiedStep(selected, seen, classes, issues, reasons, id);
      classes := Bump(classes, ClassOf(selected[id]));
      var issue := IssueOf(selected[id]);
      if issue.Some? {
        issues, reasons := issues + 1, Bump(reasons, issue.value);
      }
      todo, seen := todo - {id}, seen + {id};
    }
    assert seen == selected.Keys;
    ClassifiedEnd(selected, seen, classes, issues, reasons);
  }

  // ---------- The first count ----------

  /** The stored forecasts that parse and are not after the cutoff, in order. */
  function Loaded(s: Scope, rows: seq<Option<Record>>): seq<Record> {
    if rows == [] then []
    else
      var before, row := Loaded(s, rows[..|rows| - 1]), rows[|rows| - 1];
      if row.Some? && row.value.at <= s.cutoff then before + [row.value] else before
  }

  /** The stored forecasts that parse, in order. */
  function Parsed(rows: seq<Option<Record>>): seq<Record> {
    if rows == [] then []
    else
      var before, row := Parsed(rows[..|rows| - 1]), rows[|rows| - 1];
      if row.Some? then before + [row.value] else before
  }

  lemma {:induction false} LoadedMembers(s: Scope, rows: seq<Option<Record>>)
    ensures forall r :: r in Loaded(s, rows) <==> r in Parsed(rows) && r.at <= s.cutoff
  {
    if rows != [] {
      LoadedMembers(s, rows[..|rows| - 1]);
    }
  }

  /** The cutoff is part of being usable, so both reports see the same fixtures recorded. */
  lemma LoadedRecorded(s: Scope, rows: seq<Option<Record>>, e: Key)
    ensures Recorded(s, Loaded(s, rows), e) <==> Recorded(s, Parsed(rows), e)
  {
    LoadedMembers(s, rows);
    hide Loaded;
    hide Parsed;
  }

  function Unparsed(): Option<Record> -> bool {
    (row: Option<Record>) => row == None
  }

  method LoadRecords(s: Scope, rows: seq<Option<Record>>) returns (records: seq<Record>, invalid: nat)
    ensures records == Loaded(s, rows)
    ensures invalid == |Filter(rows, Unparsed())|
  {
    records, invalid := [], 0;
    for i := 0 to |rows|
      invariant records == Loaded(s, rows[..i]) && invalid == |Filter(rows[..i], Unparsed())|
    {
      assert rows[..i + 1][..i] == rows[..i];
      if rows[i] == None {
        invalid := invalid + 1;
        continue;
      }
      if rows[i].value.at <= s.cutoff {
        records := records + [rows[i].value];
      }
    }
    assert rows[..|rows|] == rows;
  }

  function Ids(records: seq<Record>): set<string> {
    set r | r in records :: r.id
  }

  function MatchIds(records: seq<Record>): set<string> {
    set r | r in records :: r.matchId
  }

  /** The map by id: the last forecast of an id wins. */
  function ById(records: seq<Record>): map<string, Record> {
    if records == [] then map[] else ById(records[..|records| - 1])[records[|records| - 1].id := records[|records| - 1]]
  }

  function MatchesOf(m: map<string, Record>): set<string> {
    set id | id in m :: m[id].matchId
  }

  function IdIn(ids: set<string>): Record -> bool {
    (r: Record) => r.id in ids
  }

  function IdNotIn(ids: set<string>): Record -> bool {
    (r: Record) => r.id !in ids
  }

  datatype CalendarFigures = CalendarFigures(matches: nat, overdue: nat, open: nat, future: nat, invalidTimes: nat)

  datatype EvidenceFigures = EvidenceFigures(
    overdueMissing: nat, openMissing: nat, received: nat, receivedMatches: nat, recorded: nat, recordedMatches: nat,
    unconfirmed: nat, alreadyRecorded: nat, inWindow: nat, outside: nat, conflicts: nat, nonEvaluable: nat,
    reasons: map<Issue, nat>, classes: map<Class, nat>, invalid: nat)

  const NOTHING: EvidenceFigures := EvidenceFigures(0, 0, 0, 0, 0, 0, 0, 0, 0, 0, 0, 0, map[], map[], 0)

  function Calendar(s: Scope, fixtures: seq<Fixture>): CalendarFigures {
    var scoped := Scoped(Rows(s, fixtures));
    CalendarFigures(|scoped|, CountIn(scoped, IsOverdue(s)), CountIn(scoped, IsOpen(s)), CountIn(scoped, IsFuture(s)),
                    |Filter(fixtures, Undated())|)
  }

  /** Every figure from the stored forecasts and those of the spool. */
  ghost predicate Evidence(s: Scope, fixtures: seq<Fixture>, rows: seq<Option<Record>>, spool: seq<Record>,
                           selected: map<string, Record>, e: EvidenceFigures) {
    var scoped, records := Scoped(Rows(s, fixtures)), Loaded(s, rows);
    var stored, pending := Filter(records, Stored(s, scoped)), Filter(spool, Stored(s, scoped));
    && IsSelection(s, scoped, records, selected)
    && e.overdueMissing == CountIn(scoped, Missing(s, records, IsOverdue(s)))
    && e.openMissing == CountIn(scoped, Missing(s, records, IsOpen(s)))
    && e.received == |ById(stored + pending)| && e.receivedMatches == |MatchesOf(ById(stored + pending))|
    && e.recorded == |stored| && e.recordedMatches == |MatchIds(stored)|
    && e.unconfirmed == |Filter(pending, IdNotIn(Ids(records)))|
    && e.alreadyRecorded == |Filter(pending, IdIn(Ids(records)))|
    && e.inWindow == |selected|
    && e.outside == |Filter(stored, Outside(scoped))| && e.conflicts == |Filter(stored, Conflict(scoped))|
    && e.nonEvaluable == |Issues(selected)| && e.reasons == Counts(Issues(selected))
    && e.classes == Counts(Classes(selected))
    && e.invalid == |Filter(rows, Unparsed())|
  }

  lemma AllCounted(s: Scope, scoped: map<string, int>, records: seq<Record>, c: Counters)
    requires CountedOver(s, scoped, records, scoped.Keys, c)
    ensures c.overdue == CountIn(scoped, IsOverdue(s)) && c.open == CountIn(scoped, IsOpen(s))
    ensures c.future == CountIn(scoped, IsFuture(s))
    ensures c.overdueMissing == CountIn(scoped, Missing(s, records, IsOverdue(s)))
    ensures c.openMissing == CountIn(scoped, Missing(s, records, IsOpen(s)))
  {
    assert Part(scoped, scoped.Keys) == scoped;
    hide CountIn;
  }

  lemma SelectedRecorded(s: Scope, scoped: map<string, int>, records: seq<Record>, selected: map<string, Record>)
    requires IsSelection(s, scoped, records, selected)
    ensures forall id :: id in scoped ==> (id in selected <==> Recorded(s, records, Key(id, scoped[id])))
    ensures selected.Keys <= scoped.Keys
  {
    hide Earlier;
    hide Usable;
  }

  /** The first report: over the map of the scope. Without a calendar there are no figures, without readable
      forecasts only those of the calendar. The spool holds only forecasts up to the cutoff. */
  method MeasureCoverage(s: Scope, fixtures: seq<Fixture>, rows: seq<Option<Record>>, spool: seq<Record>,
                         hasCalendar: bool, readable: bool)
    returns (calendar: Option<CalendarFigures>, evidence: Option<EvidenceFigures>, ghost selected: map<string, Record>)
    ensures calendar == if hasCalendar then Some(Calendar(s, fixtures)) else None
    ensures evidence.Some? <==> hasCalendar && readable
    ensures evidence.Some? ==> Evidence(s, fixtures, rows, spool, selected, evidence.value)
  {
    hide Filter;
    hide Counts;
    hide CountIn;
    hide Missing;
    hide Scoped;
    hide Rows;
    hide Loaded;
    hide ById;
    hide MatchesOf;
    hide MatchIds;
    hide Ids;
    hide Classes;
    hide Issues;
    hide Candidate;
    hide Earlier;
    hide CountedOver;
    calendar, evidence, selected := None, None, map[];
    if !hasCalendar {
      return;
    }
    var scoped, invalidTimes := BuildScope(s, fixtures);
    var records, invalid := LoadRecords(s, rows);
    var chosen, conflicts, outside := SelectForecasts(s, scoped, records);
    SelectedRecorded(s, scoped, records, chosen);
    var c := CountWindows(s, scoped, chosen, records);
    AllCounted(s, scoped, records, c);
    calendar := Some(CalendarFigures(|scoped|, c.overdue, c.open, c.future, invalidTimes));
    if !readable {
      return;
    }
    var classes, issues, reasons := ClassifySelected(chosen);
    selected := chosen;
    var stored, pending := Filter(records, Stored(s, scoped)), Filter(spool, Stored(s, scoped));
    var received := ById(stored + pending);
    var storedIds := Ids(records);
    evidence := Some(EvidenceFigures(
      c.overdueMissing, c.openMissing, |received|, |MatchesOf(received)|, |stored|, |MatchIds(stored)|,
      |Filter(pending, IdNotIn(storedIds))|, |Filter(pending, IdIn(storedIds))|,
      |chosen|, outside, conflicts, issues, reasons, classes, invalid));
  }

  method ParseRecords(rows: seq<Option<Record>>) returns (records: seq<Record>)
    ensures records == Parsed(rows)
  {
    records := [];
    for i := 0 to |rows|
      invariant records == Parsed(rows[..i])
    {
      assert rows[..i + 1][..i] == rows[..i];
      if rows[i].Some? {
        records := records + [rows[i].value];
      }
    }
    assert rows[..|rows|] == rows;
  }

  /** The second count: over the rows of the scope that are not excluded, and all parsed forecasts. */
  method Recount(s: Scope, fixtures: seq<Fixture>, stored: seq<Option<Record>>, excludedKeys: set<Key>)
    returns (eligible: nat, excluded: nat, overdueMissing: nat, openMissing: nat)
    ensures var rows, records := Rows(s, fixtures), Parsed(stored);
            && excluded == |Filter(rows, (e: Key) => e in excludedKeys)| && eligible + excluded == |rows|
            && overdueMissing == |Filter(rows, MissingNotExcluded(s, records, IsOverdue(s), excludedKeys))|
            && openMissing == |Filter(rows, MissingNotExcluded(s, records, IsOpen(s), excludedKeys))|
  {
    var rows := Rows(s, fixtures);
    var drop, keep := (e: Key) => e in excludedKeys, (e: Key) => e !in excludedKeys;
    FilterMembers(rows, drop);
    excluded := |Filter(rows, drop)|;
    eligible := |rows| - excluded;
    var records := ParseRecords(stored);
    var selected := set r | r in records && Usable(s, r) :: Key(r.matchId, r.kickoff);
    assert forall e: Key :: e in selected <==> Recorded(s, records, e);
    var eligibleRows := Filter(rows, keep);
    var overdue := (e: Key) => Overdue(s, e.kickoff) && e !in selected;
    var open := (e: Key) => s.cutoff >= e.kickoff - 24 * HOUR && s.cutoff < e.kickoff - HOUR && e !in selected;
    overdueMissing, openMissing := |Filter(eligibleRows, overdue)|, |Filter(eligibleRows, open)|;
    hide Recorded;
    hide Filter;
    hide Parsed;
    FilterTwice(rows, keep, overdue, MissingNotExcluded(s, records, IsOverdue(s), excludedKeys));
    FilterTwice(rows, keep, open, MissingNotExcluded(s, records, IsOpen(s), excludedKeys));
  }

  // ---------- The laws ----------

  lemma {:induction false} ScopedOnly(rows: seq<Key>, id: string)
    requires forall e :: e in rows ==> e.matchId != id
    ensures id !in Scoped(rows)
  {
    if rows != [] {
      ScopedOnly(rows[..|rows| - 1], id);
    }
  }

  lemma CountInReplace(m: map<string, int>, id: string, kickoff: int, p: Key -> bool)
    ensures CountIn(m[id := kickoff], p) ==
            CountIn(m, p) - (if id in m && p(Key(id, m[id])) then 1 else 0) + if p(Key(id, kickoff)) then 1 else 0
  {
    var rest := m - {id};
    if id in m {
      assert m == rest[id := m[id]];
      CountInAdd(rest, id, m[id], p);
    } else {
      assert m == rest;
    }
    assert m[id := kickoff] == rest[id := kickoff];
    CountInAdd(rest, id, kickoff, p);
  }

  /** Counting rows counts the map and, once more, the rows that the map replaced. */
  lemma {:induction false} RowsAreMapPlusShadowed(rows: seq<Key>, p: Key -> bool)
    ensures |Filter(rows, p)| == CountIn(Scoped(rows), p) + |Filter(Shadowed(rows), p)|
  {
    if rows == [] {
      assert CountIn(map[], p) == 0;
    } else {
      var before, row := rows[..|rows| - 1], rows[|rows| - 1];
      RowsAreMapPlusShadowed(before, p);
      var m := Scoped(before);
      CountInReplace(m, row.matchId, row.kickoff, p);
      hide CountIn;
      if row.matchId in m {
        var sh := Shadowed(before);
        assert (sh + [Key(row.matchId, m[row.matchId])])[..|sh|] == sh;
      }
    }
  }

  lemma {:induction false} SplitByExclusion(rows: seq<Key>, s: Scope, records: seq<Record>, window: Key -> bool,
                                            excluded: set<Key>)
    ensures |Filter(rows, Missing(s, records, window))|
         == |Filter(rows, MissingNotExcluded(s, records, window, excluded))|
          + |Filter(rows, MissingExcluded(s, records, window, excluded))|
  {
    hide Recorded;
    if rows != [] {
      SplitByExclusion(rows[..|rows| - 1], s, records, window, excluded);
    }
  }

  /** The two counts of missing forecasts, for either window, the first over what was loaded and the second over all
      that parses: they differ by the excluded fixtures without a usable forecast and by the replaced rows without
      one. */
  lemma CountsDiffer(rows: seq<Key>, s: Scope, stored: seq<Option<Record>>, window: Key -> bool, excluded: set<Key>)
    ensures var loaded, parsed := Loaded(s, stored), Parsed(stored);
            CountIn(Scoped(rows), Missing(s, loaded, window)) + |Filter(Shadowed(rows), Missing(s, loaded, window))|
            == |Filter(rows, MissingNotExcluded(s, parsed, window, excluded))|
               + |Filter(rows, MissingExcluded(s, parsed, window, excluded))|
  {
    var loaded, parsed := Loaded(s, stored), Parsed(stored);
    RowsAreMapPlusShadowed(rows, Missing(s, loaded, window));
    SplitByExclusion(rows, s, loaded, window, excluded);
    forall e ensures Recorded(s, loaded, e) <==> Recorded(s, parsed, e) {
      LoadedRecorded(s, stored, e);
    }
    hide Recorded;
    hide CountIn;
    FilterCong(rows, MissingNotExcluded(s, loaded, window, excluded), MissingNotExcluded(s, parsed, window, excluded));
    FilterCong(rows, MissingExcluded(s, loaded, window, excluded), MissingExcluded(s, parsed, window, excluded));
    hide Filter;
  }

  lemma {:induction false} NothingShadowed(rows: seq<Key>)
    requires forall i, j :: 0 <= i < j < |rows| ==> rows[i].matchId != rows[j].matchId
    ensures Shadowed(rows) == []
  {
    if rows != [] {
      var n := |rows| - 1;
      NothingShadowed(rows[..n]);
      ScopedOnly(rows[..n], rows[n].matchId);
    }
  }

  /** With one row per match id the counts differ by exactly the excluded fixtures without a usable forecast, and
      without exclusions they agree. */
  lemma CountsAgree(rows: seq<Key>, s: Scope, stored: seq<Option<Record>>, window: Key -> bool, excluded: set<Key>)
    requires forall i, j :: 0 <= i < j < |rows| ==> rows[i].matchId != rows[j].matchId
    ensures CountIn(Scoped(rows), Missing(s, Loaded(s, stored), window))
         == |Filter(rows, MissingNotExcluded(s, Parsed(stored), window, excluded))|
          + |Filter(rows, MissingExcluded(s, Parsed(stored), window, excluded))|
    ensures excluded == {} ==>
              CountIn(Scoped(rows), Missing(s, Loaded(s, stored), window))
              == |Filter(rows, MissingNotExcluded(s, Parsed(stored), window, excluded))|
  {
    CountsDiffer(rows, s, stored, window, excluded);
    NothingShadowed(rows);
    if excluded == {} {
      FilterNone(rows, MissingExcluded(s, Parsed(stored), window, excluded));
    }
    hide CountIn;
    hide Recorded;
  }

  /** The counts differ by the excluded fixtures alone exactly when every replaced row of the window has a usable
      forecast. */
  lemma CountsAgreeIff(rows: seq<Key>, s: Scope, stored: seq<Option<Record>>, window: Key -> bool, excluded: set<Key>)
    ensures (CountIn(Scoped(rows), Missing(s, Loaded(s, stored), window))
             == |Filter(rows, MissingNotExcluded(s, Parsed(stored), window, excluded))|
                + |Filter(rows, MissingExcluded(s, Parsed(stored), window, excluded))|)
            <==> forall e :: e in Shadowed(rows) ==> !(window(e) && !Recorded(s, Parsed(stored), e))
  {
    var loaded := Loaded(s, stored);
    CountsDiffer(rows, s, stored, window, excluded);
    var replaced := Filter(Shadowed(rows), Missing(s, loaded, window));
    FilterMembers(Shadowed(rows), Missing(s, loaded, window));
    forall e ensures Recorded(s, loaded, e) <==> Recorded(s, Parsed(stored), e) {
      LoadedRecorded(s, stored, e);
    }
    hide CountIn;
    hide Recorded;
    hide Filter;
    hide Shadowed;
    if replaced != [] {
      assert replaced[0] in replaced;
    } else {
      assert forall e :: e in Shadowed(rows) ==> e !in replaced;
    }
  }

  /** How the missing forecasts of the first report and of the final one are related. */
  ghost predicate Reconciled(s: Scope, fixtures: seq<Fixture>, stored: seq<Option<Record>>, excluded: set<Key>,
                             window: Key -> bool, first: nat, last: nat) {
    var rows := Rows(s, fixtures);
    && first + |Filter(Shadowed(rows), Missing(s, Loaded(s, stored), window))|
       == last + |Filter(rows, MissingExcluded(s, Parsed(stored), window, excluded))|
    && (excluded == {} && (forall i, j :: 0 <= i < j < |rows| ==> rows[i].matchId != rows[j].matchId) ==> last == first)
  }

  lemma ReconciledCounts(s: Scope, fixtures: seq<Fixture>, stored: seq<Option<Record>>, excluded: set<Key>,
                         window: Key -> bool, first: nat, last: nat)
    requires var rows := Rows(s, fixtures);
             && first == CountIn(Scoped(rows), Missing(s, Loaded(s, stored), window))
             && last == |Filter(rows, MissingNotExcluded(s, Parsed(stored), window, excluded))|
    ensures Reconciled(s, fixtures, stored, excluded, window, first, last)
  {
    var rows := Rows(s, fixtures);
    CountsDiffer(rows, s, stored, window, excluded);
    if forall i, j :: 0 <= i < j < |rows| ==> rows[i].matchId != rows[j].matchId {
      CountsAgree(rows, s, stored, window, excluded);
    }
    hide CountIn;
    hide Filter;
    hide Recorded;
    hide Rows;
  }

  /** The inspection: the first report, then the second count, which replaces the missing forecasts of the first when
      the exclusions are known. */
  method InspectCoverage(s: Scope, fixtures: seq<Fixture>, stored: seq<Option<Record>>, spool: seq<Record>,
                         hasCalendar: bool, readable: bool, excludedKeys: Option<set<Key>>)
    returns (calendar: Option<CalendarFigures>, evidence: Option<EvidenceFigures>, eligible: Option<(nat, nat)>,
             ghost first: EvidenceFigures, ghost selected: map<string, Record>)
    ensures calendar == if hasCalendar then Some(Calendar(s, fixtures)) else None
    ensures evidence.Some? <==> hasCalendar && readable
    ensures evidence.Some? ==> Evidence(s, fixtures, stored, spool, selected, first)
    ensures eligible.Some? <==> hasCalendar && excludedKeys.Some?
    ensures eligible.Some? ==>
              && eligible.value.0 + eligible.value.1 == |Rows(s, fixtures)|
              && eligible.value.1 == |Filter(Rows(s, fixtures), (e: Key) => e in excludedKeys.value)|
    ensures evidence.Some? ==>
              evidence.value.(overdueMissing := first.overdueMissing, openMissing := first.openMissing) == first
    ensures evidence.Some? && excludedKeys == None ==> evidence.value == first
    ensures evidence.Some? && excludedKeys.Some? ==>
              && Reconciled(s, fixtures, stored, excludedKeys.value, IsOverdue(s),
                            first.overdueMissing, evidence.value.overdueMissing)
              && Reconciled(s, fixtures, stored, excludedKeys.value, IsOpen(s),
                            first.openMissing, evidence.value.openMissing)
  {
    calendar, evidence, selected := MeasureCoverage(s, fixtures, stored, spool, hasCalendar, readable);
    eligible := None;
    first := if evidence.Some? then evidence.value else NOTHING;
    hide Filter;
    hide Counts;
    hide Missing;
    hide CountIn;
    hide Scoped;
    hide Rows;
    hide Loaded;
    hide Parsed;
    hide ById;
    hide MatchesOf;
    hide MatchIds;
    hide Ids;
    hide Classes;
    hide Issues;
    hide IsSelection;
    hide Reconciled;
    if excludedKeys == None || !hasCalendar {
      return;
    }
    var eligibleRows, excludedRows, overdueMissing, openMissing := Recount(s, fixtures, stored, excludedKeys.value);
    eligible := Some((eligibleRows, excludedRows));
    if evidence.Some? {
      ReconciledCounts(s, fixtures, stored, excludedKeys.value, IsOverdue(s), first.overdueMissing, overdueMissing);
      ReconciledCounts(s, fixtures, stored, excludedKeys.value, IsOpen(s), first.openMissing, openMissing);
      evidence := Some(evidence.value.(overdueMissing := overdueMissing, openMissing := openMissing));
    }
  }

  /** Two calendar rows of one match make the counts disagree. */
  lemma DuplicateRowsDisagree()
    ensures var rows, s := [Key("m", 0), Key("m", 1)], Scope(0, 2, 0);
            CountIn(Scoped(rows), Missing(s, [], IsOverdue(s))) == 1
            && |Filter(rows, MissingNotExcluded(s, [], IsOverdue(s), {}))| == 2
  {
    var a, b := Key("m", 0), Key("m", 1);
    var rows, s := [a, b], Scope(0, 2, 0);
    hide *;
    NothingRecorded(s, a);
    NothingRecorded(s, b);
    TwoRows(a, b, MissingNotExcluded(s, [], IsOverdue(s), {}));
    OneEntry(a, b, Missing(s, [], IsOverdue(s)));
  }

  lemma NothingRecorded(s: Scope, e: Key)
    requires s == Scope(0, 2, 0) && 0 <= e.kickoff <= 1
    ensures Missing(s, [], IsOverdue(s))(e) && MissingNotExcluded(s, [], IsOverdue(s), {})(e)
  {
    assert !Recorded(s, [], e) && Overdue(s, e.kickoff) && IsOverdue(s)(e);
  }

  lemma TwoRows(a: Key, b: Key, p: Key -> bool)
    requires p(a) && p(b)
    ensures |Filter([a, b], p)| == 2
  {
    assert [a, b] == [a] + [b];
    FilterAppend([a], [b], p);
    FilterOne(a, p);
    FilterOne(b, p);
  }

  lemma OneEntry(a: Key, b: Key, p: Key -> bool)
    requires a.matchId == b.matchId && p(b)
    ensures CountIn(Scoped([a, b]), p) == 1
  {
    assert [a, b][..1] == [a] && [a][..0] == [];
    var first: map<string, int> := map[];
    assert Scoped([a]) == first[a.matchId := a.kickoff];
    var scoped := Scoped([a, b]);
    assert scoped == first[b.matchId := b.kickoff];
    hide Scoped;
    CountInAdd(first, b.matchId, b.kickoff, p);
    NothingCountedIn(p);
  }

  lemma NothingCountedIn(p: Key -> bool)
    ensures CountIn(map[], p) == 0
  {
  }

  /** Overdue, open and future fixtures make up the scope. */
  lemma WindowsPartition(s: Scope, m: map<string, int>)
    ensures CountIn(m, IsOverdue(s)) + CountIn(m, IsOpen(s)) + CountIn(m, IsFuture(s)) == |m|
  {
    var a, b, c := Holding(m, IsOverdue(s)), Holding(m, IsOpen(s)), Holding(m, IsFuture(s));
    hide Overdue;
    hide OpenWindow;
    forall id | id in m ensures OpenWindow(s, m[id]) ==> !Overdue(s, m[id]) {
      OpenNotOverdue(s, m[id]);
    }
    assert m.Keys == a + b + c && a !! b && (a + b) !! c;
    hide Holding;
    assert |m| == |m.Keys|;
  }

  // ---------- Conservation of the first report ----------

  /** Fixtures with a forecast in the window and fixtures that miss one make up the overdue and open ones. */
  lemma FixturesSplit(s: Scope, scoped: map<string, int>, records: seq<Record>, selected: map<string, Record>)
    requires IsSelection(s, scoped, records, selected)
    ensures |selected| + CountIn(scoped, Missing(s, records, IsOverdue(s)))
             + CountIn(scoped, Missing(s, records, IsOpen(s)))
         == CountIn(scoped, IsOverdue(s)) + CountIn(scoped, IsOpen(s))
  {
    SelectedRecorded(s, scoped, records, selected);
    var a, b := Holding(scoped, IsOverdue(s)), Holding(scoped, IsOpen(s));
    var m, n := Holding(scoped, Missing(s, records, IsOverdue(s))), Holding(scoped, Missing(s, records, IsOpen(s)));
    forall id ensures id in selected <==> id in (a - m) + (b - n) {
      WindowsOf(s, scoped, records, id);
    }
    forall id ensures (id in m ==> id in a) && (id in n ==> id in b) && !(id in a && id in b) {
      WindowsOf(s, scoped, records, id);
    }
    hide *;
    assert selected.Keys == (a - m) + (b - n);
    SizesSplit(selected.Keys, a, m, b, n);
    SizeOfMap(selected);
    HoldingSize(scoped, IsOverdue(s));
    HoldingSize(scoped, IsOpen(s));
    HoldingSize(scoped, Missing(s, records, IsOverdue(s)));
    HoldingSize(scoped, Missing(s, records, IsOpen(s)));
  }

  lemma WindowsOf(s: Scope, scoped: map<string, int>, records: seq<Record>, id: string)
    ensures id in Holding(scoped, IsOverdue(s)) ==> id !in Holding(scoped, IsOpen(s))
    ensures id in Holding(scoped, Missing(s, records, IsOverdue(s))) <==>
            id in Holding(scoped, IsOverdue(s)) && !Recorded(s, records, Key(id, scoped[id]))
    ensures id in Holding(scoped, Missing(s, records, IsOpen(s))) <==>
            id in Holding(scoped, IsOpen(s)) && !Recorded(s, records, Key(id, scoped[id]))
    ensures id in scoped && Recorded(s, records, Key(id, scoped[id])) ==>
              id in Holding(scoped, IsOverdue(s)) || id in Holding(scoped, IsOpen(s))
    ensures id in Holding(scoped, IsOverdue(s)) || id in Holding(scoped, IsOpen(s)) ==> id in scoped
  {
    if id in scoped && Recorded(s, records, Key(id, scoped[id])) {
      RecordedIsDue(s, records, Key(id, scoped[id]));
    }
    hide Recorded;
  }

  lemma HoldingSize(m: map<string, int>, p: Key -> bool)
    ensures CountIn(m, p) == |Holding(m, p)|
  {
  }

  lemma SizeOfMap<K, V>(m: map<K, V>)
    ensures |m| == |m.Keys|
  {
  }

  lemma SizesSplit(keys: set<string>, a: set<string>, m: set<string>, b: set<string>, n: set<string>)
    requires keys == (a - m) + (b - n) && m <= a && n <= b && a !! b
    ensures |keys| + |m| + |n| == |a| + |b|
  {
    assert a == (a - m) + m && b == (b - n) + n;
    assert (a - m) !! (b - n);
  }

  /** A usable forecast is never of a fixture whose window has not opened. */
  lemma RecordedIsDue(s: Scope, records: seq<Record>, e: Key)
    requires Recorded(s, records, e)
    ensures Overdue(s, e.kickoff) || OpenWindow(s, e.kickoff)
  {
  }

  function IsCandidate(s: Scope, scoped: map<string, int>): Record -> bool {
    (r: Record) => Candidate(s, scoped, r)
  }

  /** The forecasts of the scope are selected ones or later ones of a fixture, conflicts and outsiders. */
  lemma {:induction false} StoredSplit(s: Scope, scoped: map<string, int>, stored: seq<Record>)
    requires forall r :: r in stored ==> Stored(s, scoped)(r)
    ensures |stored| == |Filter(stored, Conflict(scoped))| + |Filter(stored, Outside(scoped))|
                        + |Filter(stored, IsCandidate(s, scoped))|
  {
    if stored != [] {
      var n := |stored| - 1;
      assert stored[n] in stored;
      assert forall r :: r in stored[..n] ==> r in stored;
      StoredSplit(s, scoped, stored[..n]);
    }
  }

  /** In every first report, recorded forecasts are conflicts, outsiders and usable ones, and there are at least as many
      usable ones as fixtures with a forecast in the window. */
  lemma RecordedSplit(s: Scope, fixtures: seq<Fixture>, rows: seq<Option<Record>>, spool: seq<Record>,
                      selected: map<string, Record>, e: EvidenceFigures)
    requires Evidence(s, fixtures, rows, spool, selected, e)
    ensures var scoped := Scoped(Rows(s, fixtures));
            var usable := |Filter(Filter(Loaded(s, rows), Stored(s, scoped)), IsCandidate(s, scoped))|;
            e.recorded == e.conflicts + e.outside + usable && e.inWindow <= usable
  {
    var scoped, records := Scoped(Rows(s, fixtures)), Loaded(s, rows);
    var stored := Filter(records, Stored(s, scoped));
    FilterMembers(records, Stored(s, scoped));
    StoredSplit(s, scoped, stored);
    SelectedCount(s, scoped, records, selected);
    hide Filter;
    hide Counts;
    hide Missing;
    hide CountIn;
    hide Scoped;
    hide Loaded;
    hide Stored;
    hide ById;
    hide MatchesOf;
    hide MatchIds;
    hide Ids;
    hide Classes;
    hide Issues;
    hide IsSelection;
  }

  /** The fixtures of some forecasts are at most as many as the forecasts. */
  lemma {:induction false} FewMatches(records: seq<Record>)
    ensures |MatchIds(records)| <= |records|
  {
    if records == [] {
      assert MatchIds(records) == {};
    } else {
      var n := |records| - 1;
      FewMatches(records[..n]);
      assert records == records[..n] + [records[n]];
      assert MatchIds(records) == MatchIds(records[..n]) + {records[n].matchId};
    }
  }

  lemma SelectedCount(s: Scope, scoped: map<string, int>, records: seq<Record>, selected: map<string, Record>)
    requires IsSelection(s, scoped, records, selected)
    ensures |selected| <= |Filter(Filter(records, Stored(s, scoped)), IsCandidate(s, scoped))|
  {
    var stored := Filter(records, Stored(s, scoped));
    var usable := Filter(stored, IsCandidate(s, scoped));
    FilterMembers(records, Stored(s, scoped));
    FilterMembers(stored, IsCandidate(s, scoped));
    hide Filter;
    hide Earlier;
    assert selected.Keys <= MatchIds(usable);
    hide MatchIds;
    hide IsSelection;
    FewMatches(usable);
    SubsetSize(selected.Keys, MatchIds(usable));
    SizeOfMap(selected);
  }

  lemma SubsetSize(a: set<string>, b: set<string>)
    requires a <= b
    ensures |a| <= |b|
  {
    assert b == a + (b - a);
  }

  lemma {:induction false} ByIdKeys(records: seq<Record>)
    ensures ById(records).Keys == Ids(records)
  {
    if records != [] {
      var n := |records| - 1;
      ByIdKeys(records[..n]);
      assert records == records[..n] + [records[n]];
      assert Ids(records) == Ids(records[..n]) + {records[n].id};
    }
  }

  ghost predicate UniqueIds(records: seq<Record>) {
    forall i, j :: 0 <= i < j < |records| ==> records[i].id != records[j].id
  }

  lemma {:induction false} IdsCount(records: seq<Record>)
    requires UniqueIds(records)
    ensures |Ids(records)| == |records|
  {
    if records == [] {
      assert Ids(records) == {};
    } else {
      var n := |records| - 1;
      IdsCount(records[..n]);
      assert records == records[..n] + [records[n]];
      assert Ids(records) == Ids(records[..n]) + {records[n].id};
      assert records[n].id !in Ids(records[..n]);
    }
  }

  lemma {:induction false} UniqueFiltered(records: seq<Record>, p: Record -> bool)
    requires UniqueIds(records)
    ensures UniqueIds(Filter(records, p))
  {
    if records != [] {
      var n := |records| - 1;
      UniqueFiltered(records[..n], p);
      FilterMembers(records[..n], p);
      var before := Filter(records[..n], p);
      forall i | 0 <= i < |before| ensures before[i].id != records[n].id {
        assert before[i] in before && before[i] in records[..n];
      }
    }
  }

  lemma {:induction false} FewerFiltered(records: seq<Record>, p: Record -> bool, q: Record -> bool)
    requires forall r :: r in records && p(r) ==> q(r)
    ensures |Filter(records, p)| <= |Filter(records, q)|
    ensures |Filter(records, p)| == |Filter(records, q)| <==> forall r :: r in records && q(r) ==> p(r)
  {
    if records != [] {
      var n := |records| - 1;
      assert records[n] in records && records == records[..n] + [records[n]];
      assert forall r :: r in records[..n] ==> r in records;
      FewerFiltered(records[..n], p, q);
    }
  }

  /** With distinct ids, the received forecasts are the recorded and the unconfirmed ones exactly when no pending
      forecast of the scope is stored outside the scope. */
  lemma ReceivedIff(s: Scope, scoped: map<string, int>, records: seq<Record>, spool: seq<Record>)
    requires UniqueIds(records) && UniqueIds(spool)
    ensures var stored, pending := Filter(records, Stored(s, scoped)), Filter(spool, Stored(s, scoped));
            |ById(stored + pending)| == |stored| + |Filter(pending, IdNotIn(Ids(records)))|
            <==> forall p :: p in pending && p.id in Ids(records) ==> p.id in Ids(stored)
  {
    var stored, pending := Filter(records, Stored(s, scoped)), Filter(spool, Stored(s, scoped));
    UniqueFiltered(records, Stored(s, scoped));
    UniqueFiltered(spool, Stored(s, scoped));
    FilterMembers(records, Stored(s, scoped));
    IdsWithin(stored, records);
    hide *;
    ReceivedCount(stored, pending);
    IdsFewer(pending, Ids(records), Ids(stored));
  }

  lemma IdsWithin(part: seq<Record>, all: seq<Record>)
    requires forall r :: r in part ==> r in all
    ensures Ids(part) <= Ids(all)
  {
  }

  /** Received ids are the stored ones and the pending ones that are not stored in the scope. */
  lemma ReceivedCount(stored: seq<Record>, pending: seq<Record>)
    requires UniqueIds(stored) && UniqueIds(pending)
    ensures |ById(stored + pending)| == |stored| + |Filter(pending, IdNotIn(Ids(stored)))|
  {
    var added := Filter(pending, IdNotIn(Ids(stored)));
    UniqueFiltered(pending, IdNotIn(Ids(stored)));
    IdsCount(stored);
    IdsCount(added);
    ByIdKeys(stored + pending);
    IdsOfBoth(stored, pending);
    hide *;
    SizeOfMap(ById(stored + pending));
  }

  lemma IdsOfBoth(stored: seq<Record>, pending: seq<Record>)
    ensures var added := Filter(pending, IdNotIn(Ids(stored)));
            Ids(stored + pending) == Ids(stored) + Ids(added) && Ids(stored) !! Ids(added)
  {
    FilterMembers(pending, IdNotIn(Ids(stored)));
    hide Filter;
  }

  lemma IdsFewer(pending: seq<Record>, all: set<string>, some: set<string>)
    requires some <= all
    ensures |Filter(pending, IdNotIn(some))| == |Filter(pending, IdNotIn(all))|
            <==> forall p :: p in pending && p.id in all ==> p.id in some
  {
    FewerFiltered(pending, IdNotIn(all), IdNotIn(some));
    hide Filter;
  }

  /** Classes sum to the selected forecasts, reasons to the non-evaluable ones among them. */
  lemma ProvenanceSums(selected: map<string, Record>)
    ensures Total(Counts(Classes(selected))) == |selected|
    ensures Total(Counts(Issues(selected))) == |Issues(selected)| <= |selected|
  {
    CountsTotal(Classes(selected));
    CountsTotal(Issues(selected));
    assert Classes(selected).Keys == selected.Keys && Issues(selected).Keys <= selected.Keys;
    var all, bad := Classes(selected), Issues(selected);
    hide Classes;
    hide Issues;
    hide Counts;
    SubsetSize(bad.Keys, selected.Keys);
    assert |all| == |all.Keys| && |bad| == |bad.Keys| && |selected| == |selected.Keys|;
  }
}
