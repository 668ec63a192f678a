/** The reset of the challenger's operational history: ordered deletes that keep references, preserve every other
    population and leave one opening ledger row. */
module OperationalReset {
  import opened Wrappers
  import opened Sequences
  import opened OperationalData

  // ---------- The contents during the deletes ----------

  /** Contents once the deletes of all tables at stages below k are done: each table processed so far keeps the
      rows that its condition spares on the original contents. */
  function After(data: Data, k: nat): Data {
    map t: Table | true :: if Stage(t) < k then Filter(data[t], Survives(data, t)) else data[t]
  }

  lemma StageFacts(t: Table)
    ensures Stage(t) <= TARGETS && (Stage(t) == TARGETS <==> KindOf(t) == Kept)
    ensures KindOf(t).Child? ==> KindOf(KindOf(t).parent) == OfFamily && Stage(t) < Stage(KindOf(t).parent)
    ensures KindOf(t).ResultsOfPaired? ==> t == ForecastResults
  {
  }

  lemma KeyFacts(t: Table, c: Column)
    requires Parent(t, c).Some?
    ensures Stage(t) < Stage(Parent(t, c).value)
    ensures KindOf(Parent(t, c).value) in {OfFamily, Paired, Kept}
    ensures KindOf(Parent(t, c).value) == Paired ==> t == ForecastResults && c == ForecastId
    ensures KindOf(t).Child? && KindOf(Parent(t, c).value) != Kept ==> KindOf(t) == Child(Parent(t, c).value, c)
    ensures KindOf(t) in {OfFamily, LedgerRows, ResultsOfPaired} || KindOf(t).Child?
    ensures Covered(t, c) || (KindOf(t) == OfFamily && c == OriginDecisionId && Parent(t, c) == Some(Decisions))
    ensures KindOf(t) == OfFamily && Covered(t, c) && KindOf(Parent(t, c).value) == OfFamily ==>
              (t, c) in {(ExecutionDecisions, OriginDecisionId), (Bets, ExecutionDecisionId),
                         (PaperBets, ExecutionDecisionId),
                         (FundedBets, ExecutionDecisionId), (DynamicBets, ExecutionDecisionId), (Bets, DecisionId)}
    ensures KindOf(t) == LedgerRows && KindOf(Parent(t, c).value) == OfFamily ==> (t, c) == (Ledger, BetId)
    ensures KindOf(t) == ResultsOfPaired ==> c == ForecastId
  {
    hide *;
    KeyOrder(t, c);
    KeyKinds(t, c);
    KeyChild(t, c);
    KeyOrigin(t, c);
    KeyFamily(t, c);
  }

  lemma KeyOrder(t: Table, c: Column)
    requires Parent(t, c).Some?
    ensures Stage(t) < Stage(Parent(t, c).value)
  {
  }

  lemma KeyKinds(t: Table, c: Column)
    requires Parent(t, c).Some?
    ensures KindOf(Parent(t, c).value) in {OfFamily, Paired, Kept}
    ensures KindOf(Parent(t, c).value) == Paired ==> t == ForecastResults && c == ForecastId
    ensures KindOf(t) == ResultsOfPaired ==> c == ForecastId
  {
    hide Stage;
  }

  lemma KeyChild(t: Table, c: Column)
    requires Parent(t, c).Some?
    ensures KindOf(t).Child? && KindOf(Parent(t, c).value) != Kept ==> KindOf(t) == Child(Parent(t, c).value, c)
    ensures KindOf(t) in {OfFamily, LedgerRows, ResultsOfPaired} || KindOf(t).Child?
    ensures KindOf(t) == LedgerRows && KindOf(Parent(t, c).value) == OfFamily ==> (t, c) == (Ledger, BetId)
  {
    hide Stage;
  }

  lemma KeyOrigin(t: Table, c: Column)
    requires Parent(t, c).Some?
    ensures Covered(t, c) || (KindOf(t) == OfFamily && c == OriginDecisionId && Parent(t, c) == Some(Decisions))
  {
    hide Stage;
  }

  lemma KeyFamily(t: Table, c: Column)
    requires Parent(t, c).Some?
    ensures KindOf(t) == OfFamily && Covered(t, c) && KindOf(Parent(t, c).value) == OfFamily ==>
              (t, c) in {(ExecutionDecisions, OriginDecisionId), (Bets, ExecutionDecisionId),
                         (PaperBets, ExecutionDecisionId),
                         (FundedBets, ExecutionDecisionId), (DynamicBets, ExecutionDecisionId), (Bets, DecisionId)}
  {
    hide Stage;
  }

  /** Keys whose families the inspection compares, or that a delete follows. The origin decisions of paper,
      funded and dynamic bets are neither. */
  predicate Covered(t: Table, c: Column) {
    c != OriginDecisionId || t == ExecutionDecisions
  }

  /** A delete sees the same condition in mid-reset as on the original contents. */
  lemma SameCondition(data: Data, t: Table, r: Row)
    ensures Doomed(After(data, Stage(t)), t, r) == Doomed(data, t, r)
  {
    StageFacts(t);
  }

  lemma ConditionKept(data: Data, t: Table)
    ensures Filter(data[t], Survives(After(data, Stage(t)), t)) == Filter(data[t], Survives(data, t))
  {
    forall r ensures Survives(After(data, Stage(t)), t)(r) == Survives(data, t)(r) {
      SameCondition(data, t, r);
    }
    hide Survives;
    FilterCong(data[t], Survives(After(data, Stage(t)), t), Survives(data, t));
  }

  /** One delete statement. */
  function Deleted(data: Data, t: Table): Data {
    data[t := Filter(data[t], Survives(data, t))]
  }

  lemma AfterTable(data: Data, k: nat, t: Table)
    ensures After(data, k)[t] == if Stage(t) < k then Filter(data[t], Survives(data, t)) else data[t]
  {
    hide Stage;
    hide Filter;
    hide Survives;
  }

  lemma DeletedTable(data: Data, t: Table, u: Table)
    ensures Deleted(data, t)[u] == if u == t then Filter(data[t], Survives(data, t)) else data[u]
  {
    hide Filter;
    hide Survives;
  }

  lemma SameTables(a: Data, b: Data)
    requires forall t: Table :: a[t] == b[t]
    ensures a == b
  {
  }

  lemma DeleteAdvances(data: Data, t: Table)
    requires Stage(t) < TARGETS
    ensures Deleted(After(data, Stage(t)), t) == After(data, Stage(t) + 1)
  {
    hide *;
    var before, after := After(data, Stage(t)), After(data, Stage(t) + 1);
    ConditionKept(data, t);
    forall u: Table ensures Deleted(before, t)[u] == after[u] {
      DeletedTable(before, t, u);
      AfterTable(data, Stage(t), u);
      AfterTable(data, Stage(t) + 1, u);
      if u != t && Stage(u) == Stage(t) {
        StageInjective(t, u);
      }
    }
    SameTables(Deleted(before, t), after);
  }

  lemma StageInjective(t: Table, u: Table)
    requires Stage(t) == Stage(u) < TARGETS
    ensures t == u
  {
  }

  // ---------- References during the deletes ----------

  lemma InspectedFacts(data: Data)
    requires Problem(data) == None
    ensures NoCrossFamily(data) && ForeignKeysHold(data)
    ensures forall r :: r in data[BetCancellations] ==> Classified(r)
    ensures data[CandidateReviews] == [] && data[AdoptionEvents] == []
  {
    hide NoCrossFamily;
    hide ForeignKeysHold;
    hide Classified;
  }

  lemma FamilyKey(data: Data, t: Table, c: Column)
    requires NoCrossFamily(data) && Parent(t, c).Some?
    requires (t, c) in {(ExecutionDecisions, OriginDecisionId), (Bets, ExecutionDecisionId),
                        (PaperBets, ExecutionDecisionId),
                        (FundedBets, ExecutionDecisionId), (DynamicBets, ExecutionDecisionId), (Bets, DecisionId)}
    ensures FamiliesAgree(data, t, c)
  {
    hide FamiliesAgree;
    hide References;
  }

  lemma LedgerKey(data: Data, l: Row, b: Row)
    requires NoCrossFamily(data) && l in data[Ledger] && b in data[Bets] && References(l, BetId, b) && !InShadowC(l)
    ensures b.family != Some(C)
  {
    hide FamiliesAgree;
  }

  /** A surviving row refers, through a covered key, only to surviving rows. */
  lemma SurvivorsClosed(data: Data, t: Table, c: Column, r: Row, p: Row)
    requires NoCrossFamily(data) && Parent(t, c).Some? && Covered(t, c)
    requires r in data[t] && p in data[Parent(t, c).value] && References(r, c, p) && !Doomed(data, t, r)
    ensures !Doomed(data, Parent(t, c).value, p)
  {
    KeyFacts(t, c);
    hide Stage;
    hide NoCrossFamily;
    hide FamiliesAgree;
    var parent := Parent(t, c).value;
    if KindOf(parent) == OfFamily {
      if KindOf(t) == OfFamily {
        FamilyKey(data, t, c);
        AgreeingFamilies(data, t, c, r, p);
      } else if KindOf(t) == LedgerRows {
        LedgerKey(data, r, p);
      }
    }
  }

  lemma AgreeingFamilies(data: Data, t: Table, c: Column, r: Row, p: Row)
    requires Parent(t, c).Some? && FamiliesAgree(data, t, c)
    requires r in data[t] && p in data[Parent(t, c).value] && References(r, c, p)
    ensures r.family == p.family
  {
  }

  /** Bets in the three uncovered tables have origin decisions of their own side. */
  ghost predicate OriginsAgree(data: Data) {
    forall t: Table, r, d :: UncoveredOrigin(data, t, r, d) && d.family == Some(C) ==> r.family == Some(C)
  }

  predicate UncoveredOrigin(data: Data, t: Table, r: Row, d: Row) {
    && Parent(t, OriginDecisionId).Some? && !Covered(t, OriginDecisionId)
    && r in data[t] && d in data[Decisions] && References(r, OriginDecisionId, d)
  }

  lemma AfterMembers(data: Data, k: nat, t: Table, r: Row)
    ensures r in After(data, k)[t] <==> r in data[t] && (Stage(t) < k ==> !Doomed(data, t, r))
  {
    hide Stage;
    hide Doomed;
    hide After;
    AfterTable(data, k, t);
    FilterMembers(data[t], Survives(data, t));
  }

  lemma KeyHoldsAfter(data: Data, k: nat, t: Table, c: Column)
    requires NoCrossFamily(data) && Parent(t, c).Some? && KeyHolds(data, t, c)
    requires Covered(t, c) || k <= Stage(Parent(t, c).value)
    ensures KeyHolds(After(data, k), t, c)
  {
    KeyFacts(t, c);
    hide *;
    var parent := Parent(t, c).value;
    forall r | r in After(data, k)[t] && c in r.keys
      ensures exists p :: p in After(data, k)[parent] && References(r, c, p)
    {
      AfterMembers(data, k, t, r);
      var p := Referred(data, t, c, r);
      AfterMembers(data, k, parent, p);
      if Stage(parent) < k {
        SurvivorsClosed(data, t, c, r, p);
      }
    }
    KeyHoldsIntro(After(data, k), t, c);
  }

  lemma Referred(data: Data, t: Table, c: Column, r: Row) returns (p: Row)
    requires Parent(t, c).Some? && KeyHolds(data, t, c) && r in data[t] && c in r.keys
    ensures p in data[Parent(t, c).value] && References(r, c, p)
  {
    hide Parent;
    hide References;
    p :| p in data[Parent(t, c).value] && References(r, c, p);
  }

  lemma KeyHoldsIntro(data: Data, t: Table, c: Column)
    requires Parent(t, c).Some?
    requires forall r :: r in data[t] && c in r.keys ==>
               exists p :: p in data[Parent(t, c).value] && References(r, c, p)
    ensures KeyHolds(data, t, c)
  {
    hide Parent;
    hide References;
  }

  /** No delete but the last one can break a reference. */
  lemma ReferencesKept(data: Data, k: nat)
    requires NoCrossFamily(data) && ForeignKeysHold(data) && k < TARGETS
    ensures ForeignKeysHold(After(data, k))
  {
    hide NoCrossFamily;
    hide KeyHolds;
    hide Parent;
    hide Stage;
    hide After;
    forall t: Table, c: Column | Parent(t, c).Some? ensures KeyHolds(After(data, k), t, c) {
      assert KeyHolds(data, t, c);
      KeyFacts(t, c);
      DecisionsLast();
      KeyHoldsAfter(data, k, t, c);
    }
  }

  lemma DecisionsLast()
    ensures Stage(Decisions) == TARGETS - 1
  {
  }

  /** Keys that hold once every delete is done: the covered ones always. */
  lemma CoveredKept(data: Data, k: nat, t: Table, c: Column)
    requires NoCrossFamily(data) && ForeignKeysHold(data) && Parent(t, c).Some? && Covered(t, c)
    ensures KeyHolds(After(data, k), t, c)
  {
    hide NoCrossFamily;
    hide KeyHolds;
    KeyHoldsAfter(data, k, t, c);
  }

  lemma UniqueDecision(data: Data, p: Row, q: Row)
    requires Schema(data) && p in data[Decisions] && q in data[Decisions] && p.id == q.id && p.id.Some?
    ensures p == q
  {
    hide KindOf;
  }

  lemma FamilyRowAfter(data: Data, t: Table, r: Row)
    requires KindOf(t) == OfFamily
    ensures r in After(data, TARGETS)[t] <==> r in data[t] && r.family != Some(C)
  {
    StageFacts(t);
    hide Stage;
    AfterMembers(data, TARGETS, t, r);
  }

  lemma UncoveredFacts(data: Data, t: Table, r: Row, d: Row)
    requires UncoveredOrigin(data, t, r, d)
    ensures KindOf(t) == OfFamily && KindOf(Decisions) == OfFamily && Parent(t, OriginDecisionId) == Some(Decisions)
    ensures r in data[t] && OriginDecisionId in r.keys && d in data[Decisions] && References(r, OriginDecisionId, d)
  {
    KeyFacts(t, OriginDecisionId);
    hide Parent;
  }

  lemma SameTarget(r: Row, c: Column, p: Row, q: Row)
    requires References(r, c, p) && References(r, c, q)
    ensures p.id == q.id && p.id.Some?
  {
  }

  lemma OriginBroken(data: Data, t: Table, r: Row, d: Row)
    requires Schema(data) && UncoveredOrigin(data, t, r, d) && d.family == Some(C)
    requires KeyHolds(After(data, TARGETS), t, OriginDecisionId)
    ensures r.family == Some(C)
  {
    hide *;
    UncoveredFacts(data, t, r, d);
    var after := After(data, TARGETS);
    FamilyRowAfter(data, t, r);
    if r.family != Some(C) {
      var p := Referred(after, t, OriginDecisionId, r);
      SameTarget(r, OriginDecisionId, p, d);
      FamilyRowAfter(data, Decisions, p);
      UniqueDecision(data, p, d);
    }
  }

  lemma OriginHeld(data: Data, t: Table)
    requires ForeignKeysHold(data) && Parent(t, OriginDecisionId).Some? && !Covered(t, OriginDecisionId)
    requires forall r, d :: UncoveredOrigin(data, t, r, d) && d.family == Some(C) ==> r.family == Some(C)
    ensures KeyHolds(After(data, TARGETS), t, OriginDecisionId)
  {
    hide *;
    KeyFacts(t, OriginDecisionId);
    DecisionsAreFamily();
    var after := After(data, TARGETS);
    OneKey(data, t, OriginDecisionId);
    forall r | r in after[t] && OriginDecisionId in r.keys
      ensures exists p :: p in after[Decisions] && References(r, OriginDecisionId, p)
    {
      FamilyRowAfter(data, t, r);
      var d := Referred(data, t, OriginDecisionId, r);
      IsUncovered(data, t, r, d);
      FamilyRowAfter(data, Decisions, d);
    }
    KeyHoldsIntro(after, t, OriginDecisionId);
  }

  lemma DecisionsAreFamily()
    ensures KindOf(Decisions) == OfFamily
  {
  }

  lemma OneKey(data: Data, t: Table, c: Column)
    requires ForeignKeysHold(data) && Parent(t, c).Some?
    ensures KeyHolds(data, t, c)
  {
    hide Parent;
    hide KeyHolds;
  }

  lemma IsUncovered(data: Data, t: Table, r: Row, d: Row)
    requires Parent(t, OriginDecisionId).Some? && !Covered(t, OriginDecisionId)
    requires r in data[t] && d in data[Decisions] && References(r, OriginDecisionId, d)
    ensures UncoveredOrigin(data, t, r, d)
  {
    hide Parent;
  }

  /** After the last delete the references hold exactly when no surviving bet had a challenger's origin decision. */
  lemma ReferencesAtEndIff(data: Data)
    requires Schema(data) && NoCrossFamily(data) && ForeignKeysHold(data)
    ensures ForeignKeysHold(After(data, TARGETS)) <==> OriginsAgree(data)
  {
    hide NoCrossFamily;
    hide KeyHolds;
    hide Parent;
    hide After;
    hide UncoveredOrigin;
    hide Schema;
    hide KindOf;
    hide Stage;
    if ForeignKeysHold(After(data, TARGETS)) {
      forall t: Table, r, d | UncoveredOrigin(data, t, r, d) && d.family == Some(C) ensures r.family == Some(C) {
        UncoveredKey(data, t, r, d);
        OriginBroken(data, t, r, d);
      }
    }
    if OriginsAgree(data) {
      forall t: Table, c: Column | Parent(t, c).Some? ensures KeyHolds(After(data, TARGETS), t, c) {
        KeyFacts(t, c);
        if Covered(t, c) {
          CoveredKept(data, TARGETS, t, c);
        } else {
          OriginHeld(data, t);
        }
      }
    }
  }

  lemma UncoveredKey(data: Data, t: Table, r: Row, d: Row)
    requires UncoveredOrigin(data, t, r, d)
    ensures Parent(t, OriginDecisionId).Some?
  {
  }

  // ---------- The final contents ----------

  function OpenRow(openedAt: string): Row {
    Row(Some(OPEN_ID), None, map[PortfolioId := SHADOW_C], None, false, false, "OPEN", OPENING, 0, openedAt)
  }

  function Opened(data: Data, openedAt: string): Data {
    data[Ledger := data[Ledger] + [OpenRow(openedAt)]]
  }

  function ResetData(data: Data, openedAt: string): Data {
    Opened(After(data, TARGETS), openedAt)
  }

  lemma ResetMembers(data: Data, at: string, t: Table, r: Row)
    ensures r in ResetData(data, at)[t] <==> (r in data[t] && !Doomed(data, t, r)) || (t == Ledger && r == OpenRow(at))
  {
    hide *;
    AfterMembers(data, TARGETS, t, r);
    OpenedMembers(After(data, TARGETS), at, t, r);
    StageFacts(t);
    if KindOf(t) == Kept {
      KeptNotDoomed(data, t, r);
    }
    ResetIsOpened(data, at);
  }

  lemma ResetIsOpened(data: Data, at: string)
    ensures ResetData(data, at) == Opened(After(data, TARGETS), at)
  {
  }

  lemma OpenedMembers(data: Data, at: string, t: Table, r: Row)
    ensures r in Opened(data, at)[t] <==> r in data[t] || (t == Ledger && r == OpenRow(at))
  {
    hide OpenRow;
  }

  lemma KeptNotDoomed(data: Data, t: Table, r: Row)
    requires KindOf(t) == Kept
    ensures !Doomed(data, t, r)
  {
    hide KindOf;
  }

  lemma OpenedKey(data: Data, at: string, t: Table, c: Column)
    requires Parent(t, c).Some?
    ensures KeyHolds(Opened(data, at), t, c) <==>
              KeyHolds(data, t, c) && ((t, c) == (Ledger, PortfolioId) ==> Some(SHADOW_C) in AllIds(data, Portfolios))
  {
    hide *;
    KeyFacts(t, c);
    LedgerKind();
    LedgerPortfolio();
    OpenRowKeys(at);
    OpenReferences(data, at);
    var parent, after, open := Parent(t, c).value, Opened(data, at), OpenRow(at);
    OpenedTable(data, at, parent);
    if KeyHolds(after, t, c) {
      forall r | r in data[t] && c in r.keys ensures exists p :: p in data[parent] && References(r, c, p) {
        OpenedMembers(data, at, t, r);
        var p := Referred(after, t, c, r);
      }
      KeyHoldsIntro(data, t, c);
      if (t, c) == (Ledger, PortfolioId) {
        OpenedMembers(data, at, t, open);
        var p := Referred(after, t, c, open);
      }
    }
    if KeyHolds(data, t, c) && ((t, c) == (Ledger, PortfolioId) ==> Some(SHADOW_C) in AllIds(data, Portfolios)) {
      forall r | r in after[t] && c in r.keys ensures exists p :: p in after[parent] && References(r, c, p) {
        OpenedMembers(data, at, t, r);
        if r in data[t] {
          var p := Referred(data, t, c, r);
        }
      }
      KeyHoldsIntro(after, t, c);
    }
  }

  lemma OpenRowKeys(at: string)
    ensures forall c :: c in OpenRow(at).keys <==> c == PortfolioId
  {
  }

  lemma LedgerPortfolio()
    ensures Parent(Ledger, PortfolioId) == Some(Portfolios)
  {
  }

  lemma OpenReferences(data: Data, at: string)
    ensures (exists p :: p in data[Portfolios] && References(OpenRow(at), PortfolioId, p))
            <==> Some(SHADOW_C) in AllIds(data, Portfolios)
  {
    if Some(SHADOW_C) in AllIds(data, Portfolios) {
      var p :| p in data[Portfolios] && p.id == Some(SHADOW_C);
      assert References(OpenRow(at), PortfolioId, p);
    }
  }

  /** The opening row refers to its portfolio and to nothing else. */
  lemma OpenedKeysIff(data: Data, at: string)
    ensures ForeignKeysHold(Opened(data, at)) <==>
              ForeignKeysHold(data) && Some(SHADOW_C) in AllIds(data, Portfolios)
  {
    LedgerPortfolio();
    hide KeyHolds;
    hide Parent;
    hide Opened;
    hide AllIds;
    forall t: Table, c: Column | Parent(t, c).Some?
      ensures KeyHolds(Opened(data, at), t, c) <==>
                KeyHolds(data, t, c) && ((t, c) == (Ledger, PortfolioId) ==> Some(SHADOW_C) in AllIds(data, Portfolios))
    {
      OpenedKey(data, at, t, c);
    }
  }

  // ---------- Preserved populations ----------

  /** No row of a child table on which the preserving condition is unknown to SQL rather than true or false. */
  ghost predicate NothingUnknown(data: Data) {
    forall t: Table :: KindOf(t).Child? ==> NothingUnknownIn(data, t)
  }

  ghost predicate NothingUnknownIn(data: Data, t: Table) {
    forall r :: r in data[t] ==> Protected(data, t, r) || Doomed(data, t, r)
  }

  lemma ProtectedSurvives(data: Data, t: Table, r: Row)
    requires Protected(data, t, r) && KindOf(t) != Paired && KindOf(t) != ResultsOfPaired
    ensures !Doomed(data, t, r)
  {
    hide KindOf;
  }

  lemma NoChallengersLeft(data: Data, at: string, t: Table)
    requires KindOf(t) == OfFamily
    ensures ChallengerIds(ResetData(data, at), t) == {}
  {
    forall r | r in ResetData(data, at)[t] ensures r.family != Some(C) {
      ResetMembers(data, at, t, r);
    }
    hide ResetData;
  }

  lemma ChildProtectedAfter(data: Data, at: string, t: Table, r: Row)
    requires KindOf(t).Child?
    ensures Protected(ResetData(data, at), t, r)
  {
    StageFacts(t);
    hide Stage;
    hide ResetData;
    NoChallengersLeft(data, at, KindOf(t).parent);
    hide KindOf;
  }

  lemma OtherProtected(a: Data, b: Data, t: Table, r: Row)
    requires !KindOf(t).Child?
    ensures Protected(a, t, r) <==> Protected(b, t, r)
  {
    hide KindOf;
  }

  lemma OtherProtectedIff(data: Data, t: Table, r: Row)
    requires Problem(data) == None && Schema(data) && r in data[t]
    requires !KindOf(t).Child? && KindOf(t) != Paired && KindOf(t) != ResultsOfPaired
    ensures Protected(data, t, r) <==> !Doomed(data, t, r)
  {
    hide *;
    InspectedFacts(data);
    KindTables(t);
    FamilyGiven(data, t, r);
    ProtectedByKind(data, t, r);
  }

  lemma KindTables(t: Table)
    ensures KindOf(t) == Archive ==> t == BetCancellations
    ensures KindOf(t) == LedgerRows ==> t == Ledger
  {
  }

  lemma FamilyGiven(data: Data, t: Table, r: Row)
    requires Schema(data) && r in data[t]
    ensures KindOf(t) == OfFamily ==> r.family.Some?
    ensures t == Ledger ==> PortfolioId in r.keys
  {
    hide KindOf;
  }

  lemma ProtectedByKind(data: Data, t: Table, r: Row)
    requires !KindOf(t).Child? && KindOf(t) != Paired && KindOf(t) != ResultsOfPaired
    requires KindOf(t) == Archive ==> Classified(r)
    requires KindOf(t) == LedgerRows ==> PortfolioId in r.keys
    requires KindOf(t) == OfFamily ==> r.family.Some?
    ensures Protected(data, t, r) <==> !Doomed(data, t, r)
  {
    hide KindOf;
  }

  /** The preserved part of a table after the reset: all of what is left, but for the opening row. */
  function Left(data: Data, t: Table): seq<Row> {
    Filter(data[t], Survives(data, t))
  }

  lemma ResetTable(data: Data, at: string, t: Table)
    ensures ResetData(data, at)[t] == if t == Ledger then Left(data, t) + [OpenRow(at)] else Left(data, t)
  {
    hide *;
    AfterTable(data, TARGETS, t);
    ResetIsOpened(data, at);
    OpenedTable(After(data, TARGETS), at, t);
    LeftIsFilter(data, t);
    StageFacts(t);
    if KindOf(t) == Kept {
      forall r | r in data[t] ensures Survives(data, t)(r) {
        KeptNotDoomed(data, t, r);
        SurvivesIs(data, t, r);
      }
      FilterAll(data[t], Survives(data, t));
    }
  }

  lemma OpenedTable(data: Data, at: string, t: Table)
    ensures Opened(data, at)[t] == if t == Ledger then data[t] + [OpenRow(at)] else data[t]
  {
    hide OpenRow;
  }

  /** The preserved part of a table after the reset is what the deletes left of it. */
  lemma PreservedIsLeft(data: Data, at: string, t: Table)
    requires Problem(data) == None && Schema(data) && KindOf(t) != Paired && KindOf(t) != ResultsOfPaired
    ensures Filter(ResetData(data, at)[t], Preserve(ResetData(data, at), t)) == Left(data, t)
  {
    var after := ResetData(data, at);
    ResetTable(data, at, t);
    hide *;
    FilterMembers(data[t], Survives(data, t));
    var left := Left(data, t);
    forall r | r in left ensures Preserve(after, t)(r) {
      LeftMember(data, t, r);
      if KindOf(t).Child? {
        ChildProtectedAfter(data, at, t, r);
      } else {
        OtherProtectedIff(data, t, r);
        OtherProtected(after, data, t, r);
      }
      PreserveIsProtected(after, t, r);
    }
    FilterAll(left, Preserve(after, t));
    if t == Ledger {
      OpenNotProtected(after, at);
      DropLast(left, OpenRow(at), Preserve(after, t));
    }
  }

  lemma LeftMember(data: Data, t: Table, r: Row)
    requires r in Left(data, t)
    ensures r in data[t] && !Doomed(data, t, r)
  {
    hide Doomed;
    FilterMembers(data[t], Survives(data, t));
  }

  lemma PreserveIsProtected(data: Data, t: Table, r: Row)
    ensures Preserve(data, t)(r) == Protected(data, t, r)
  {
    hide Protected;
  }

  lemma OpenNotProtected(data: Data, at: string)
    ensures !Preserve(data, Ledger)(OpenRow(at))
  {
  }

  lemma DropLast<T>(s: seq<T>, x: T, p: T -> bool)
    requires !p(x)
    ensures Filter(s + [x], p) == Filter(s, p)
  {
    assert (s + [x])[..|s|] == s;
  }

  /** One population is unchanged, row for row; for a child table, exactly when nothing in it is unknown. */
  lemma PopulationKeptIff(data: Data, at: string, t: Table)
    requires Problem(data) == None && Schema(data) && KindOf(t) != Paired && KindOf(t) != ResultsOfPaired
    ensures var after := ResetData(data, at);
            && (multiset(Filter(after[t], Preserve(after, t))) == multiset(Filter(data[t], Preserve(data, t)))
                <==> (KindOf(t).Child? ==> NothingUnknownIn(data, t)))
            && ((KindOf(t).Child? ==> NothingUnknownIn(data, t)) ==>
                  Filter(after[t], Preserve(after, t)) == Filter(data[t], Preserve(data, t)))
  {
    hide *;
    PreservedIsLeft(data, at, t);
    LeftIsFilter(data, t);
    if KindOf(t).Child? ==> NothingUnknownIn(data, t) {
      forall r | r in data[t] ensures Survives(data, t)(r) == Preserve(data, t)(r) {
        PreserveIsProtected(data, t, r);
        SurvivesIs(data, t, r);
        if KindOf(t).Child? {
          KnownRow(data, t, r);
          if Protected(data, t, r) {
            ProtectedSurvives(data, t, r);
          }
        } else {
          OtherProtectedIff(data, t, r);
        }
      }
      FilterCong(data[t], Survives(data, t), Preserve(data, t));
    } else {
      var r := UnknownRow(data, t);
      SurvivesIs(data, t, r);
      PreserveIsProtected(data, t, r);
      FilterMembers(data[t], Survives(data, t));
      FilterMembers(data[t], Preserve(data, t));
      assert r in multiset(Filter(data[t], Survives(data, t)));
      assert r !in multiset(Filter(data[t], Preserve(data, t)));
    }
  }

  lemma LeftIsFilter(data: Data, t: Table)
    ensures Left(data, t) == Filter(data[t], Survives(data, t))
  {
  }

  lemma SurvivesIs(data: Data, t: Table, r: Row)
    ensures Survives(data, t)(r) == !Doomed(data, t, r)
  {
    hide Doomed;
  }

  lemma KnownRow(data: Data, t: Table, r: Row)
    requires NothingUnknownIn(data, t) && r in data[t]
    ensures Protected(data, t, r) || Doomed(data, t, r)
  {
    hide Doomed;
    hide Protected;
  }

  lemma UnknownRow(data: Data, t: Table) returns (r: Row)
    requires !NothingUnknownIn(data, t)
    ensures r in data[t] && !Protected(data, t, r) && !Doomed(data, t, r)
  {
    hide Doomed;
    hide Protected;
    r :| r in data[t] && !Protected(data, t, r) && !Doomed(data, t, r);
  }

  predicate Recorded(t: Table) {
    KindOf(t) != Paired && KindOf(t) != ResultsOfPaired
  }

  lemma PreservedAt(data: Data, t: Table)
    ensures t in Preserved(data) <==> Recorded(t)
    ensures Recorded(t) ==> Preserved(data)[t] == multiset(Filter(data[t], Preserve(data, t)))
  {
    hide KindOf;
    hide Filter;
    hide Preserve;
  }

  lemma RecordedOneIff(data: Data, at: string, t: Table)
    requires Problem(data) == None && Schema(data) && Recorded(t)
    ensures t in Preserved(ResetData(data, at)) && t in Preserved(data)
    ensures Preserved(ResetData(data, at))[t] == Preserved(data)[t]
            <==> (KindOf(t).Child? ==> NothingUnknownIn(data, t))
  {
    PreservedAt(data, t);
    PreservedAt(ResetData(data, at), t);
    hide *;
    RecordedKind(t);
    PopulationKeptIff(data, at, t);
  }

  lemma RecordedKind(t: Table)
    ensures Recorded(t) <==> KindOf(t) != Paired && KindOf(t) != ResultsOfPaired
  {
  }

  /** The fingerprints of the protected data agree exactly when no child row is unknown to the preserving condition. */
  lemma PreservedKeptIff(data: Data, at: string)
    requires Problem(data) == None && Schema(data)
    ensures Preserved(ResetData(data, at)) == Preserved(data) <==> NothingUnknown(data)
  {
    hide *;
    var a, b := Preserved(ResetData(data, at)), Preserved(data);
    forall t: Table
      ensures t in a <==> t in b
      ensures t in a ==> (a[t] == b[t] <==> (KindOf(t).Child? ==> NothingUnknownIn(data, t)))
      ensures KindOf(t).Child? ==> t in a
    {
      PreservedAt(data, t);
      PreservedAt(ResetData(data, at), t);
      RecordedKind(t);
      if Recorded(t) {
        RecordedOneIff(data, at, t);
      }
    }
    NothingUnknownIff(data);
    if a == b {
      forall t: Table | KindOf(t).Child? ensures NothingUnknownIn(data, t) {
        assert t in a && a[t] == b[t];
      }
    }
    if forall t: Table :: KindOf(t).Child? ==> NothingUnknownIn(data, t) {
      forall t | t in a ensures t in b && a[t] == b[t] {
        assert KindOf(t).Child? ==> NothingUnknownIn(data, t);
      }
      assert a.Keys == b.Keys;
      assert a == b;
    }
  }

  lemma NothingUnknownIff(data: Data)
    ensures NothingUnknown(data) <==> forall t: Table :: KindOf(t).Child? ==> NothingUnknownIn(data, t)
  {
    hide KindOf;
    hide NothingUnknownIn;
  }

  // ---------- The second inspection and the balance ----------

  lemma LedgerKind()
    ensures KindOf(Ledger) == LedgerRows
  {
  }

  lemma FamiliesAgreeKept(data: Data, at: string, t: Table, c: Column)
    requires Parent(t, c).Some? && FamiliesAgree(data, t, c) && t != Ledger
    ensures FamiliesAgree(ResetData(data, at), t, c)
  {
    hide ResetData;
    hide Parent;
    hide References;
    hide KindOf;
    hide Stage;
    hide OpenRow;
    KeyFacts(t, c);
    LedgerKind();
    var after, parent := ResetData(data, at), Parent(t, c).value;
    forall r | r in after[t] ensures r in data[t] {
      ResetMembers(data, at, t, r);
    }
    forall p | p in after[parent] ensures p in data[parent] {
      ResetMembers(data, at, parent, p);
    }
  }

  lemma LedgerAgreeKept(data: Data, at: string, l: Row, b: Row)
    requires NoCrossFamily(data)
    requires l in ResetData(data, at)[Ledger] && b in ResetData(data, at)[Bets] && References(l, BetId, b)
    ensures PortfolioId in l.keys && l.keys[PortfolioId] == ShadowOf(b.family)
  {
    ResetMembers(data, at, Ledger, l);
    ResetMembers(data, at, Bets, b);
    hide ResetData;
    hide FamiliesAgree;
  }

  lemma CrossParents()
    ensures Parent(ExecutionDecisions, OriginDecisionId).Some? && Parent(Bets, ExecutionDecisionId).Some?
    ensures Parent(PaperBets, ExecutionDecisionId).Some? && Parent(FundedBets, ExecutionDecisionId).Some?
    ensures Parent(DynamicBets, ExecutionDecisionId).Some? && Parent(Bets, DecisionId).Some?
  {
  }

  lemma NoCrossFamilyKept(data: Data, at: string)
    requires NoCrossFamily(data)
    ensures NoCrossFamily(ResetData(data, at))
  {
    hide FamiliesAgree;
    hide ResetData;
    hide References;
    hide ShadowOf;
    hide Parent;
    hide KindOf;
    CrossParents();
    FamiliesAgreeKept(data, at, ExecutionDecisions, OriginDecisionId);
    FamiliesAgreeKept(data, at, Bets, ExecutionDecisionId);
    FamiliesAgreeKept(data, at, PaperBets, ExecutionDecisionId);
    FamiliesAgreeKept(data, at, FundedBets, ExecutionDecisionId);
    FamiliesAgreeKept(data, at, DynamicBets, ExecutionDecisionId);
    FamiliesAgreeKept(data, at, Bets, DecisionId);
    forall l, b | l in ResetData(data, at)[Ledger] && b in ResetData(data, at)[Bets] && References(l, BetId, b)
      ensures PortfolioId in l.keys && l.keys[PortfolioId] == ShadowOf(b.family)
    {
      LedgerAgreeKept(data, at, l, b);
    }
  }

  lemma KeptIsNotLedger(t: Table)
    requires KindOf(t) == Kept
    ensures t != Ledger
  {
  }

  lemma KeptTable(data: Data, at: string, t: Table)
    requires KindOf(t) == Kept
    ensures ResetData(data, at)[t] == data[t]
  {
    hide *;
    KeptIsNotLedger(t);
    ResetTable(data, at, t);
    forall r | r in data[t] ensures Survives(data, t)(r) {
      KeptNotDoomed(data, t, r);
      SurvivesIs(data, t, r);
    }
    FilterAll(data[t], Survives(data, t));
    LeftIsFilter(data, t);
  }

  lemma NoProblem(data: Data)
    requires NoCrossFamily(data) && ForeignKeysHold(data)
    requires data[PairedForecasts] == [] && data[CandidateReviews] == [] && data[AdoptionEvents] == []
    requires forall r :: r in data[BetCancellations] ==> Classified(r)
    ensures Problem(data) == None
  {
    hide NoCrossFamily;
    hide ForeignKeysHold;
    hide Classified;
  }

  lemma PairedEmptied(data: Data, at: string)
    ensures ResetData(data, at)[PairedForecasts] == []
  {
    ResetTable(data, at, PairedForecasts);
    hide ResetData;
    FilterNone(data[PairedForecasts], Survives(data, PairedForecasts));
  }

  /** Nothing but a reference can be wrong at the second inspection. */
  lemma SecondInspection(data: Data, at: string)
    requires Problem(data) == None && ForeignKeysHold(ResetData(data, at))
    ensures Problem(ResetData(data, at)) == None
  {
    hide *;
    InspectedFacts(data);
    NoCrossFamilyKept(data, at);
    KeptKinds();
    KeptTable(data, at, CandidateReviews);
    KeptTable(data, at, AdoptionEvents);
    PairedEmptied(data, at);
    forall r | r in ResetData(data, at)[BetCancellations] ensures Classified(r) {
      ResetMembers(data, at, BetCancellations, r);
    }
    NoProblem(ResetData(data, at));
  }

  lemma KeptKinds()
    ensures KindOf(CandidateReviews) == Kept && KindOf(AdoptionEvents) == Kept
  {
  }

  function Shadow(): Row -> bool {
    (r: Row) => InShadowC(r)
  }

  /** SUM over a column. */
  function Total(rows: seq<Row>, f: Row -> int): int {
    if rows == [] then 0 else Total(rows[..|rows| - 1], f) + f(rows[|rows| - 1])
  }

  function Balance(data: Data): (int, int) {
    var rows := Filter(data[Ledger], Shadow());
    (Total(rows, (r: Row) => r.available), Total(rows, (r: Row) => r.committed))
  }

  /** The challenger's portfolio ends with the opening row alone. */
  lemma SingleOpening(data: Data, at: string)
    ensures Filter(ResetData(data, at)[Ledger], Shadow()) == [OpenRow(at)]
    ensures Balance(ResetData(data, at)) == (OPENING, 0)
  {
    ResetTable(data, at, Ledger);
    hide ResetData;
    var left, open := Left(data, Ledger), OpenRow(at);
    forall r | r in left ensures !Shadow()(r) {
      LeftMember(data, Ledger, r);
    }
    hide Left;
    FilterNone(left, Shadow());
    assert (left + [open])[..|left|] == left;
    TotalOne(open, (r: Row) => r.available);
    TotalOne(open, (r: Row) => r.committed);
  }

  lemma TotalOne(r: Row, f: Row -> int)
    ensures Total([r], f) == f(r)
  {
    assert [r][..0] == [];
  }
}
