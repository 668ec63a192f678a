/** The reset as statements on a database: dropped triggers, deletes, one insert, and the checks that follow. */
module OperationalStore {
  import opened Wrappers
  import opened Sequences
  import opened OperationalData
  import opened OperationalReset
  import opened OperationalOutcome

  // ---------- Triggers ----------

  predicate NoGuards(triggers: map<string, Trigger>) {
    forall name :: name in triggers ==> !(triggers[name].beforeDelete && Stage(triggers[name].table) < TARGETS)
  }

  lemma GuardsDropped(triggers: map<string, Trigger>)
    ensures NoGuards(triggers - Guards(triggers).Keys)
    ensures (triggers - Guards(triggers).Keys) + Guards(triggers) == triggers
  {
    hide Stage;
  }

  /** A before-delete trigger aborts a statement that would delete a row. */
  predicate Blocked(data: Data, triggers: map<string, Trigger>, t: Table) {
    && (exists name :: name in triggers && triggers[name].beforeDelete && triggers[name].table == t)
    && exists r :: r in data[t] && Doomed(data, t, r)
  }

  predicate SafeName(name: string) {
    name != "" && forall c :: c in name ==> 'a' <= c <= 'z' || 'A' <= c <= 'Z' || '0' <= c <= '9' || c == '_'
  }

  /** A statement is refused when a before-delete trigger is on its table and a row would go. */
  lemma BlockedReads(data: Data, triggers: map<string, Trigger>, t: Table)
    ensures Blocked(data, triggers, t) <==>
              && (exists name :: name in triggers && triggers[name].table == t && triggers[name].beforeDelete)
              && exists r :: r in data[t] && Gone(data, t, r)
  {
    forall r {
      GoneIsDoomed(data, t, r);
    }
    hide Gone;
    hide Doomed;
  }

  /** Trigger names are made of the ASCII letters, digits and the underscore. */
  lemma SafeNameReads(name: string)
    ensures SafeName(name) <==>
              && |name| > 0
              && forall i :: 0 <= i < |name| ==>
                   var code := name[i] as int;
                   97 <= code <= 122 || 65 <= code <= 90 || 48 <= code <= 57 || code == 95
  {
    if SafeName(name) {
      forall i | 0 <= i < |name|
        ensures var code := name[i] as int; 97 <= code <= 122 || 65 <= code <= 90 || 48 <= code <= 57 || code == 95
      {
        assert name[i] in name;
      }
    }
  }

  predicate GuardsSound(guards: map<string, Trigger>) {
    forall name :: name in guards ==> SafeName(name) && guards[name].sql != ""
  }

  lemma GuardsSoundReads(guards: map<string, Trigger>)
    ensures GuardsSound(guards) <==>
              forall name :: name in guards ==>
                && |guards[name].sql| > 0 && |name| > 0
                && forall i :: 0 <= i < |name| ==>
                     var code := name[i] as int;
                     97 <= code <= 122 || 65 <= code <= 90 || 48 <= code <= 57 || code == 95
  {
    forall name {
      SafeNameReads(name);
    }
    hide SafeName;
  }

  // ---------- When the reset succeeds ----------

  predicate Conflicting(r: Row) {
    r.id == Some(OPEN_ID) || (InShadowC(r) && r.event == "OPEN")
  }

  /** No other portfolio uses the id of the opening row. */
  ghost predicate OpeningIdFree(data: Data) {
    forall r :: r in data[Ledger] && r.id == Some(OPEN_ID) ==> InShadowC(r)
  }

  lemma LedgerRowDoomed(data: Data, r: Row)
    ensures Stage(Ledger) < TARGETS && (Doomed(data, Ledger, r) <==> InShadowC(r))
  {
  }

  /** The ledger refuses a second row of that id, and a second opening of that portfolio. */
  lemma ConflictIs(r: Row)
    ensures Conflicting(r) <==>
              r.id == Some("open:shadow_C")
              || (PortfolioId in r.keys && r.keys[PortfolioId] == "shadow_C" && r.event == "OPEN")
  {
  }

  lemma OpeningConflicts(ledger: seq<Row>, at: string)
    requires OpenedOnce(ledger, at)
    ensures exists r :: r in ledger && Conflicting(r)
  {
    var i :| 0 <= i < |ledger| && IsOpening(ledger[i], at);
    assert ledger[i] in ledger && Conflicting(ledger[i]);
  }

  lemma ConflictIff(data: Data)
    ensures (exists r :: r in After(data, TARGETS)[Ledger] && Conflicting(r)) <==> !OpeningIdFree(data)
  {
    hide Doomed;
    hide After;
    hide Stage;
    forall r ensures r in After(data, TARGETS)[Ledger] <==> r in data[Ledger] && !InShadowC(r) {
      AfterMembers(data, TARGETS, Ledger, r);
      LedgerRowDoomed(data, r);
    }
    hide InShadowC;
    if !OpeningIdFree(data) {
      var r :| r in data[Ledger] && r.id == Some(OPEN_ID) && !InShadowC(r);
      assert r in After(data, TARGETS)[Ledger] && Conflicting(r);
    }
  }

  /** What the current contents must satisfy beyond the inspection for the reset to go through. */
  ghost predicate Resettable(data: Data) {
    && OriginsAgree(data) && OpeningIdFree(data) && Some(SHADOW_C) in AllIds(data, Portfolios) && NothingUnknown(data)
  }

  /** One delete statement on inspected contents: it advances the reset by a stage and, before the last stage,
      leaves every reference valid. */
  lemma StepAdvances(data: Data, t: Table)
    requires Schema(data) && Problem(data) == None && Stage(t) < TARGETS
    ensures Deleted(After(data, Stage(t)), t) == After(data, Stage(t) + 1)
    ensures Stage(t) + 1 < TARGETS ==> ForeignKeysHold(After(data, Stage(t) + 1))
    ensures Stage(t) + 1 == TARGETS ==> (ForeignKeysHold(After(data, Stage(t) + 1)) <==> OriginsAgree(data))
  {
    hide *;
    InspectedFacts(data);
    DeleteAdvances(data, t);
    if Stage(t) + 1 < TARGETS {
      ReferencesKept(data, Stage(t) + 1);
    } else {
      ReferencesAtEndIff(data);
    }
  }

  lemma NothingDeleted(data: Data)
    ensures After(data, 0) == data
  {
    hide Filter;
    hide Survives;
    hide Stage;
  }

  lemma Unblocked(data: Data, triggers: map<string, Trigger>, t: Table)
    requires NoGuards(triggers) && Stage(t) < TARGETS
    ensures !Blocked(data, triggers, t)
  {
    hide Doomed;
    hide Stage;
  }

  lemma StageOrder()
    ensures TARGETS == 22 && |CHILDREN| == 9 && |FAMILY_TABLES| == 9
    ensures Stage(ForecastResults) == 0 && Stage(PairedForecasts) == 1 && Stage(BetCancellations) == 11
            && Stage(Ledger) == 12
    ensures forall i :: 0 <= i < 9 ==> Stage(CHILDREN[i]) == 2 + i && Stage(FAMILY_TABLES[i]) == 13 + i
    ensures FAMILY_TABLES[8] == Decisions
  {
  }

  lemma InspectIff(data: Data, triggers: map<string, Trigger>)
    ensures Inspect(data, triggers).Ok? <==> Problem(data) == None
    ensures Inspect(data, triggers).Ok? ==>
              var report := Inspect(data, triggers).value;
              report.schema == triggers && report.preserved == Preserved(data) && report.guards == Guards(triggers)
    ensures Inspect(data, triggers).Err? ==>
              Inspect(data, triggers).error in
                {UnclassifiedArchive, RequiredByAdoption, InvalidPaired, CrossFamilyReference, ForeignKeyBefore}
  {
    hide Preserved;
    hide Stage;
    hide NoCrossFamily;
    hide ForeignKeysHold;
    hide Classified;
  }

  lemma PortfoliosKept(data: Data)
    ensures AllIds(After(data, TARGETS), Portfolios) == AllIds(data, Portfolios)
  {
    AfterTable(data, TARGETS, Portfolios);
    hide After;
  }

  /** The reference check after the insert. */
  lemma FinalReferencesIff(data: Data, at: string)
    requires Schema(data) && Problem(data) == None
    ensures ForeignKeysHold(ResetData(data, at)) <==> OriginsAgree(data) && Some(SHADOW_C) in AllIds(data, Portfolios)
  {
    hide *;
    InspectedFacts(data);
    ReferencesAtEndIff(data);
    ResetIsOpened(data, at);
    OpenedKeysIff(After(data, TARGETS), at);
    PortfoliosKept(data);
  }

  lemma ResettableIff(data: Data)
    ensures Resettable(data) <==>
              && OriginsAgree(data) && OpeningIdFree(data) && Some(SHADOW_C) in AllIds(data, Portfolios)
              && NothingUnknown(data)
  {
    hide OriginsAgree;
    hide OpeningIdFree;
    hide NothingUnknown;
  }

  class Store {
    var data: Data
    var triggers: map<string, Trigger>
    const enforced: bool

    /** A delete by the table's condition; with enforcement, undone when it leaves a dangling reference. */
    method Delete(t: Table) returns (error: Option<ResetError>)
      modifies this`data
      ensures Blocked(old(data), triggers, t) ==> error == Some(DeleteAborted(t))
      ensures !Blocked(old(data), triggers, t) ==>
                error == if enforced && !ForeignKeysHold(Deleted(old(data), t)) then Some(ForeignKeyNow(t)) else None
      ensures data == if error == None then Deleted(old(data), t) else old(data)
    {
      if Blocked(data, triggers, t) {
        return Some(DeleteAborted(t));
      }
      var after := Deleted(data, t);
      if enforced && !ForeignKeysHold(after) {
        return Some(ForeignKeyNow(t));
      }
      data := after;
      return None;
    }

    /** The insert of the opening row under the unique keys of the ledger. */
    method Open(openedAt: string) returns (error: Option<ResetError>)
      modifies this`data
      ensures (exists r :: r in old(data)[Ledger] && Conflicting(r)) ==> error == Some(LedgerConflict)
      ensures !(exists r :: r in old(data)[Ledger] && Conflicting(r)) ==>
                error == if enforced && !ForeignKeysHold(Opened(old(data), openedAt)) then Some(ForeignKeyNow(Ledger))
                         else None
      ensures data == if error == None then Opened(old(data), openedAt) else old(data)
      ensures forall at :: OpenedOnce(old(data)[Ledger], at) ==> error == Some(LedgerConflict)
      ensures error == None ==>
                exists open :: IsOpening(open, openedAt) && data == old(data)[Ledger := old(data)[Ledger] + [open]]
    {
      OpenRowIs(openedAt);
      forall at | OpenedOnce(data[Ledger], at) {
        OpeningConflicts(data[Ledger], at);
      }
      if exists r :: r in data[Ledger] && Conflicting(r) {
        return Some(LedgerConflict);
      }
      var after := Opened(data, openedAt);
      if enforced && !ForeignKeysHold(after) {
        return Some(ForeignKeyNow(Ledger));
      }
      data := after;
      return None;
    }

    method DeleteNext(t: Table, ghost before: Data) returns (error: Option<ResetError>)
      requires Schema(before) && Problem(before) == None && NoGuards(triggers)
      requires Stage(t) < TARGETS && data == After(before, Stage(t))
      modifies this`data
      ensures error == if Stage(t) + 1 == TARGETS && enforced && !OriginsAgree(before) then Some(ForeignKeyNow(t))
                       else None
      ensures error == None ==> data == After(before, Stage(t) + 1)
    {
      hide *;
      StepAdvances(before, t);
      Unblocked(data, triggers, t);
      error := Delete(t);
    }

    /** The delete statements of the child tables. */
    method DeleteChildren(ghost before: Data) returns (error: Option<ResetError>)
      requires Schema(before) && Problem(before) == None && NoGuards(triggers) && data == After(before, 2)
      modifies this`data
      ensures error == None && data == After(before, 11)
    {
      hide *;
      StageOrder();
      error := None;
      for i := 0 to |CHILDREN|
        invariant error == None && data == After(before, 2 + i)
      {
        error := DeleteNext(CHILDREN[i], before);
      }
    }

    /** The delete statements of the family tables, decisions last. */
    method DeleteFamilies(ghost before: Data) returns (error: Option<ResetError>)
      requires Schema(before) && Problem(before) == None && NoGuards(triggers) && data == After(before, 13)
      modifies this`data
      ensures error == if enforced && !OriginsAgree(before) then Some(ForeignKeyNow(Decisions)) else None
      ensures error == None ==> data == After(before, TARGETS)
    {
      hide *;
      StageOrder();
      error := None;
      for i := 0 to |FAMILY_TABLES|
        invariant error == None && data == After(before, 13 + i)
        invariant i == |FAMILY_TABLES| ==> !(enforced && !OriginsAgree(before))
      {
        error := DeleteNext(FAMILY_TABLES[i], before);
        if error.Some? {
          return;
        }
      }
    }

    /** The deletes, in order. */
    method DeleteAll() returns (error: Option<ResetError>)
      requires Schema(data) && Problem(data) == None && NoGuards(triggers)
      modifies this`data
      ensures error == if enforced && !OriginsAgree(old(data)) then Some(ForeignKeyNow(Decisions)) else None
      ensures error == None ==> data == After(old(data), TARGETS)
    {
      hide *;
      StageOrder();
      ghost var before := data;
      NothingDeleted(before);
      error := DeleteNext(ForecastResults, before);
      if error == None {
        error := DeleteNext(PairedForecasts, before);
      }
      if error == None {
        error := DeleteChildren(before);
      }
      if error == None {
        error := DeleteNext(BetCancellations, before);
      }
      if error == None {
        error := DeleteNext(Ledger, before);
      }
      if error == None {
        error := DeleteFamilies(before);
      }
    }

    /** The whole reset inside its transaction; on an error the caller rolls back. */
    method Reset(expected: Report, openedAt: string, validEpoch: bool) returns (error: Option<ResetError>)
      requires Schema(data)
      modifies this
      ensures error == None <==>
                && validEpoch && Inspect(old(data), old(triggers)) == Ok(expected) && GuardsSound(expected.guards)
                && Resettable(old(data))
      ensures error == None ==> data == ResetData(old(data), openedAt) && triggers == old(triggers)
      ensures error == None ==> Leaves(old(data), data, openedAt) && OpenedOnce(data[Ledger], openedAt)
      ensures error == Some(ProtectedDataChanged) <==>
                && validEpoch && Inspect(old(data), old(triggers)) == Ok(expected) && GuardsSound(expected.guards)
                && OriginsAgree(old(data)) && OpeningIdFree(old(data))
                && Some(SHADOW_C) in AllIds(old(data), Portfolios)
                && !NothingUnknown(old(data))
      ensures error != Some(BalanceMismatch) && error != Some(SchemaChanged)
      ensures forall t :: error != Some(DeleteAborted(t))
                          && (error == Some(ForeignKeyNow(t)) ==> t == Decisions || t == Ledger)
    {
      hide *;
      if !validEpoch {
        return Some(InvalidEpoch);
      }
      InspectIff(data, triggers);
      var current := Inspect(data, triggers);
      if current.Err? {
        return Some(current.error);
      }
      if current.value != expected {
        return Some(PlanChanged);
      }
      var guards := expected.guards;
      if !GuardsSound(guards) {
        return Some(InvalidTrigger);
      }
      ghost var before, all := data, triggers;
      GuardsDropped(all);
      ConflictIff(before);
      FinalReferencesIff(before, openedAt);
      ResetIsOpened(before, openedAt);
      SingleOpening(before, openedAt);
      PreservedKeptIff(before, openedAt);
      ResettableIff(before);
      ResetLeaves(before, openedAt);
      OpeningIsLast(before, openedAt);
      triggers := triggers - guards.Keys;
      error := DeleteAll();
      if error.Some? {
        return;
      }
      error := Open(openedAt);
      if error.Some? {
        return;
      }
      triggers := triggers + guards;
      if Balance(data) != (OPENING, 0) {
        return Some(BalanceMismatch);
      }
      if !ForeignKeysHold(data) {
        return Some(ForeignKeyAfter);
      }
      SecondInspection(before, openedAt);
      InspectIff(data, triggers);
      match Inspect(data, triggers)
      case Err(problem) =>
        return Some(problem);
      case Ok(after) =>
        if after.preserved != expected.preserved {
          return Some(ProtectedDataChanged);
        }
        if after.guards != expected.guards || after.schema != expected.schema {
          return Some(SchemaChanged);
        }
        return None;
    }
  }
}
