/** Where the inspection before the reset is not enough, and what closes the gap for origin decisions. */
module OperationalGaps {
  import opened Wrappers
  import opened OperationalData
  import opened OperationalReset
  import opened OperationalStore

  // ---------- Origin decisions ----------

  /** The insert trigger of paper, funded and dynamic bets: the execution decision of the bet is of its family and
      has the same origin decision. The tables are immutable, so this holds of every stored bet. */
  ghost predicate Authorized(data: Data) {
    forall t: Table, r :: t in {PaperBets, FundedBets, DynamicBets} && r in data[t] ==> AuthorizedBet(data, r)
  }

  ghost predicate AuthorizedBet(data: Data, r: Row) {
    && OriginDecisionId in r.keys
    && exists d :: d in data[ExecutionDecisions] && References(r, ExecutionDecisionId, d) && d.family == r.family
         && OriginDecisionId in d.keys && d.keys[OriginDecisionId] == r.keys[OriginDecisionId]
  }

  /** With the insert triggers in force the cross-family checks do cover origin decisions, indirectly. */
  lemma AuthorizedOriginsAgree(data: Data)
    requires NoCrossFamily(data) && Authorized(data)
    ensures OriginsAgree(data)
  {
    hide NoCrossFamily;
    forall t: Table, r, o | UncoveredOrigin(data, t, r, o) && o.family == Some(C) ensures r.family == Some(C) {
      UncoveredTables(data, t, r, o);
      hide UncoveredOrigin;
      AuthorizedOrigin(data, r, o);
    }
  }

  lemma UncoveredTables(data: Data, t: Table, r: Row, o: Row)
    requires UncoveredOrigin(data, t, r, o)
    ensures t in {PaperBets, FundedBets, DynamicBets} && r in data[t] && o in data[Decisions]
            && References(r, OriginDecisionId, o)
  {
  }

  lemma AuthorizedOrigin(data: Data, r: Row, o: Row)
    requires NoCrossFamily(data) && AuthorizedBet(data, r) && o in data[Decisions] && References(r, OriginDecisionId, o)
    ensures r.family == o.family
  {
    var d :| d in data[ExecutionDecisions] && References(r, ExecutionDecisionId, d) && d.family == r.family
      && OriginDecisionId in d.keys && d.keys[OriginDecisionId] == r.keys[OriginDecisionId];
    OriginKey();
    FamilyKey(data, ExecutionDecisions, OriginDecisionId);
    hide NoCrossFamily;
    AgreeingFamilies(data, ExecutionDecisions, OriginDecisionId, d, o);
  }

  lemma OriginKey()
    ensures Parent(ExecutionDecisions, OriginDecisionId) == Some(Decisions)
  {
  }

  // ---------- Contents that pass the inspection and cannot be reset ----------

  function Plain(id: string, family: Option<Family>, keys: map<Column, string>): Row {
    Row(Some(id), family, keys, None, true, true, "", 0, 0, "")
  }

  function Empty(): (data: Data)
    ensures forall t: Table :: data[t] == []
  {
    map t: Table {:trigger Stage(t)} | true :: []
  }

  const BET := Plain("bet", Some(A), map[ExecutionDecisionId := "run", OriginDecisionId := "c"])
  const RUN := Plain("run", Some(A), map[OriginDecisionId := "a", PortfolioId := "shadow_A"])
  const ORIGIN_A := Plain("a", Some(A), map[PortfolioId := "shadow_A"])
  const ORIGIN_C := Plain("c", Some(C), map[PortfolioId := SHADOW_C])

  /** An A paper bet with an A execution decision, itself of an A origin, whose own origin column names a C decision. */
  function CrossedOrigin(): (data: Data)
    ensures data[PaperBets] == [BET] && data[ExecutionDecisions] == [RUN] && data[Decisions] == [ORIGIN_A, ORIGIN_C]
    ensures data[Portfolios] == [Plain("shadow_A", None, map[]), Plain(SHADOW_C, None, map[])]
    ensures forall t: Table :: t in {PaperBets, ExecutionDecisions, Decisions, Portfolios} || data[t] == []
  {
    Empty()[PaperBets := [BET]][ExecutionDecisions := [RUN]][Decisions := [ORIGIN_A, ORIGIN_C]]
           [Portfolios := [Plain("shadow_A", None, map[]), Plain(SHADOW_C, None, map[])]]
  }

  /** Every row of a table is matched in the parent table. */
  lemma KeyByRows(data: Data, t: Table, c: Column, parent: Table)
    requires Parent(t, c) == Some(parent)
    requires forall r :: r in data[t] ==> exists p :: p in data[parent] && References(r, c, p)
    ensures KeyHolds(data, t, c)
  {
    hide Parent;
    hide References;
  }

  lemma PaperKeys(c: Column)
    ensures Parent(PaperBets, c) == if c == ExecutionDecisionId then Some(ExecutionDecisions)
                                    else if c == OriginDecisionId then Some(Decisions) else None
    ensures Parent(ExecutionDecisions, c) == if c == OriginDecisionId then Some(Decisions)
                                             else if c == PortfolioId then Some(Portfolios) else None
    ensures Parent(Decisions, c) == if c == PortfolioId then Some(Portfolios) else None
    ensures Parent(Portfolios, c) == None
  {
  }

  lemma CrossedKeys(data: Data, t: Table, c: Column)
    requires data == CrossedOrigin() && Parent(t, c).Some?
    ensures KeyHolds(data, t, c)
  {
    PaperKeys(c);
    hide CrossedOrigin;
    hide Parent;
    hide KeyHolds;
    var a, sc := data[Portfolios][0], data[Portfolios][1];
    assert RUN == data[ExecutionDecisions][0];
    assert data[Decisions][0] == ORIGIN_A && data[Decisions][1] == ORIGIN_C;
    assert References(BET, ExecutionDecisionId, RUN) && References(BET, OriginDecisionId, ORIGIN_C);
    assert References(RUN, OriginDecisionId, ORIGIN_A) && References(RUN, PortfolioId, a);
    assert References(ORIGIN_A, PortfolioId, a) && References(ORIGIN_C, PortfolioId, sc);
    hide References;
    KeyByRows(data, t, c, Parent(t, c).value);
  }

  lemma EmptyAgrees(data: Data, t: Table, c: Column)
    requires Parent(t, c).Some? && data[t] == []
    ensures FamiliesAgree(data, t, c)
  {
    hide Parent;
  }

  lemma BetKeys()
    ensures Parent(Bets, ExecutionDecisionId).Some? && Parent(Bets, DecisionId).Some?
    ensures Parent(FundedBets, ExecutionDecisionId).Some? && Parent(DynamicBets, ExecutionDecisionId).Some?
    ensures KindOf(Portfolios) == Kept
  {
  }

  lemma CrossedFamilies(data: Data)
    requires data == CrossedOrigin()
    ensures NoCrossFamily(data)
  {
    hide CrossedOrigin;
    PaperKeys(OriginDecisionId);
    PaperKeys(ExecutionDecisionId);
    BetKeys();
    hide Parent;
    hide KindOf;
    assert FamiliesAgree(data, ExecutionDecisions, OriginDecisionId);
    assert FamiliesAgree(data, PaperBets, ExecutionDecisionId);
    hide FamiliesAgree;
    EmptyAgrees(data, Bets, ExecutionDecisionId);
    EmptyAgrees(data, Bets, DecisionId);
    EmptyAgrees(data, FundedBets, ExecutionDecisionId);
    EmptyAgrees(data, DynamicBets, ExecutionDecisionId);
  }

  lemma CrossedSchema(data: Data)
    requires data == CrossedOrigin()
    ensures Schema(data)
  {
    hide *;
    BetKeys();
    CrossedRows(data);
    SchemaOf(data);
  }

  lemma CrossedRow(data: Data, t: Table, r: Row)
    requires data == CrossedOrigin() && r in data[t]
    ensures r.family.Some? || t == Portfolios
  {
    hide CrossedOrigin;
    assert t == PaperBets || t == ExecutionDecisions || t == Decisions || t == Portfolios;
  }

  lemma CrossedRows(data: Data)
    requires data == CrossedOrigin()
    ensures forall t: Table, r :: r in data[t] ==> r.family.Some? || t == Portfolios
    ensures forall p, q :: p in data[Decisions] && q in data[Decisions] && p.id == q.id ==> p == q
    ensures data[Ledger] == []
  {
    hide CrossedOrigin;
    forall p, q | p in data[Decisions] && q in data[Decisions] && p.id == q.id ensures p == q {
      assert p in {ORIGIN_A, ORIGIN_C} && q in {ORIGIN_A, ORIGIN_C};
    }
    assert data[Ledger] == [];
    hide *;
    forall t: Table, r | r in data[t] ensures r.family.Some? || t == Portfolios {
      CrossedRow(data, t, r);
    }
  }

  lemma SchemaOf(data: Data)
    requires forall t: Table, r :: r in data[t] ==> r.family.Some? || t == Portfolios
    requires forall p, q :: p in data[Decisions] && q in data[Decisions] && p.id == q.id ==> p == q
    requires data[Ledger] == [] && KindOf(Portfolios) == Kept
    ensures Schema(data)
  {
    hide KindOf;
  }

  lemma CrossedUncovered(data: Data)
    requires data == CrossedOrigin()
    ensures !OriginsAgree(data)
  {
    hide CrossedOrigin;
    PaperKeys(OriginDecisionId);
    hide Parent;
    assert data[Decisions][1] == ORIGIN_C && data[PaperBets][0] == BET;
    assert References(BET, OriginDecisionId, ORIGIN_C);
    assert UncoveredOrigin(data, PaperBets, BET, ORIGIN_C);
  }

  /** The inspection lets these contents pass, though the reset would orphan the bet. */
  lemma CrossedOriginPasses()
    ensures Problem(CrossedOrigin()) == None && Schema(CrossedOrigin()) && !OriginsAgree(CrossedOrigin())
  {
    var data := CrossedOrigin();
    hide *;
    CrossedFamilies(data);
    CrossedSchema(data);
    CrossedUncovered(data);
    forall t: Table, c: Column | Parent(t, c).Some? ensures KeyHolds(data, t, c) {
      CrossedKeys(data, t, c);
    }
    KeysHold(data);
    CrossedEmpty(data);
    NoProblem(data);
  }

  lemma KeysHold(data: Data)
    requires forall t: Table, c: Column :: Parent(t, c).Some? ==> KeyHolds(data, t, c)
    ensures ForeignKeysHold(data)
  {
    hide Parent;
    hide KeyHolds;
  }

  lemma CrossedEmpty(data: Data)
    requires data == CrossedOrigin()
    ensures data[PairedForecasts] == [] && data[CandidateReviews] == [] && data[AdoptionEvents] == []
    ensures data[BetCancellations] == []
  {
  }

  // ---------- Unknown rows ----------

  /** When a child row is neither deleted nor counted as preserved: its key is NULL while some challenger bet exists,
      or its key matches no challenger bet while one of those has a NULL id. */
  lemma UnknownIff(data: Data, t: Table, r: Row)
    requires KindOf(t).Child?
    ensures (!Protected(data, t, r) && !Doomed(data, t, r)) <==>
              var ids, key := ChallengerIds(data, KindOf(t).parent), KindOf(t).key;
              ids != {} && (key !in r.keys || (Some(r.keys[key]) !in ids && None in ids))
  {
    hide KindOf;
  }

  /** With ids and keys that are never NULL, nothing is unknown. */
  lemma NothingUnknownWithoutNulls(data: Data)
    requires forall t: Table, r :: KindOf(t).Child? && r in data[t] ==> KindOf(t).key in r.keys
    requires forall t: Table, r :: KindOf(t) == OfFamily && r in data[t] ==> r.id.Some?
    ensures NothingUnknown(data)
  {
    forall t: Table | KindOf(t).Child? ensures NothingUnknownIn(data, t) {
      StageFacts(t);
      hide KindOf;
      hide Stage;
      forall r | r in data[t] ensures Protected(data, t, r) || Doomed(data, t, r) {
        UnknownIff(data, t, r);
      }
    }
  }

  // ---------- Contents whose reset fails on what it protects, or on its opening row ----------

  const SIDES: seq<Row> := [Plain("shadow_A", None, map[]), Plain(SHADOW_C, None, map[])]
  const OBSERVED := Plain("c", Some(C), map[])
  const UNKEYED := Plain("result", None, map[])
  const FOREIGN := Plain(OPEN_ID, None, map[PortfolioId := "shadow_A"])

  /** A challenger observation, and a result whose observation id is NULL. */
  function NullKey(): (data: Data)
    ensures data[Observations] == [OBSERVED] && data[ProspectiveResults] == [UNKEYED] && data[Portfolios] == SIDES
    ensures forall t: Table :: t in {Observations, ProspectiveResults, Portfolios} || data[t] == []
  {
    Empty()[Observations := [OBSERVED]][ProspectiveResults := [UNKEYED]][Portfolios := SIDES]
  }

  /** A ledger row of the other portfolio with the id of the opening row. */
  function TakenId(): (data: Data)
    ensures data[Ledger] == [FOREIGN] && data[Portfolios] == SIDES
    ensures forall t: Table :: t in {Ledger, Portfolios} || data[t] == []
  {
    Empty()[Ledger := [FOREIGN]][Portfolios := SIDES]
  }

  /** No bets and no decisions: nothing can cross, and nothing is uncovered. */
  ghost predicate NoBets(data: Data) {
    && data[ExecutionDecisions] == [] && data[Bets] == [] && data[PaperBets] == [] && data[FundedBets] == []
    && data[DynamicBets] == [] && data[Decisions] == [] && data[PairedForecasts] == []
    && data[CandidateReviews] == [] && data[AdoptionEvents] == [] && data[BetCancellations] == []
  }

  lemma NothingCrosses(data: Data)
    requires NoBets(data)
    ensures NoCrossFamily(data) && OriginsAgree(data)
  {
    PaperKeys(OriginDecisionId);
    BetKeys();
    PaperKeys(ExecutionDecisionId);
    hide Parent;
    hide KindOf;
    EmptyAgrees(data, ExecutionDecisions, OriginDecisionId);
    EmptyAgrees(data, PaperBets, ExecutionDecisionId);
    hide FamiliesAgree;
    EmptyAgrees(data, Bets, ExecutionDecisionId);
    EmptyAgrees(data, Bets, DecisionId);
    EmptyAgrees(data, FundedBets, ExecutionDecisionId);
    EmptyAgrees(data, DynamicBets, ExecutionDecisionId);
  }

  lemma Inspected(data: Data)
    requires NoBets(data) && forall t: Table, c: Column :: Parent(t, c).Some? ==> KeyHolds(data, t, c)
    ensures Problem(data) == None
  {
    NothingCrosses(data);
    KeysHold(data);
    hide *;
    NoProblem(data);
  }

  lemma FewKeys(c: Column)
    ensures Parent(Observations, c) == None && Parent(Portfolios, c) == None
    ensures Parent(ProspectiveResults, c) == if c == ObservationId then Some(Observations) else None
    ensures Parent(Ledger, c) == if c == BetId then Some(Bets) else if c == PortfolioId then Some(Portfolios) else None
    ensures KindOf(ProspectiveResults) == Child(Observations, ObservationId) && KindOf(Portfolios) == Kept
    ensures KindOf(Ledger) == LedgerRows && KindOf(Observations) == OfFamily
  {
  }

  lemma NullKeyKeys(data: Data, t: Table, c: Column)
    requires data == NullKey() && Parent(t, c).Some?
    ensures KeyHolds(data, t, c)
  {
    FewKeys(c);
    hide Parent;
    hide KindOf;
  }

  lemma TakenIdKeys(data: Data, t: Table, c: Column)
    requires data == TakenId() && Parent(t, c).Some?
    ensures KeyHolds(data, t, c)
  {
    FewKeys(c);
    hide Parent;
    hide KindOf;
    assert References(FOREIGN, PortfolioId, SIDES[0]);
    assert data[Portfolios][0] == SIDES[0];
  }

  /** The inspection lets a NULL key pass, and everything else that the reset needs holds: it then fails on the
      comparison of protected data. */
  lemma NullKeyFails()
    ensures var data := NullKey();
            && Problem(data) == None && Schema(data) && OriginsAgree(data) && OpeningIdFree(data)
            && Some(SHADOW_C) in AllIds(data, Portfolios) && !NothingUnknown(data)
  {
    var data := NullKey();
    forall t: Table, c: Column | Parent(t, c).Some? ensures KeyHolds(data, t, c) {
      NullKeyKeys(data, t, c);
    }
    hide Parent;
    hide NullKey;
    FewKeys(PortfolioId);
    assert NoBets(data) && data[Ledger] == [];
    NothingCrosses(data);
    Inspected(data);
    hide KindOf;
    hide Problem;
    hide OriginsAgree;
    hide NoBets;
    assert data[Observations][0] == OBSERVED && data[ProspectiveResults][0] == UNKEYED;
    assert data[Portfolios][1] == SIDES[1] && SIDES[1].id == Some(SHADOW_C);
    UnknownIff(data, ProspectiveResults, UNKEYED);
    assert OBSERVED.id in ChallengerIds(data, Observations);
    assert !NothingUnknownIn(data, ProspectiveResults);
    NullKeySchema(data);
  }

  lemma NullKeySchema(data: Data)
    requires data[Observations] == [OBSERVED] && data[Ledger] == [] && data[Decisions] == []
    requires forall t: Table :: t in {Observations, ProspectiveResults, Portfolios} || data[t] == []
    requires KindOf(ProspectiveResults) == Child(Observations, ObservationId) && KindOf(Portfolios) == Kept
    ensures Schema(data)
  {
    hide KindOf;
  }

  /** Or an opening row cannot be inserted, because another portfolio has its id. */
  lemma TakenIdFails()
    ensures var data := TakenId();
            && Problem(data) == None && Schema(data) && OriginsAgree(data) && NothingUnknown(data)
            && Some(SHADOW_C) in AllIds(data, Portfolios) && !OpeningIdFree(data)
  {
    var data := TakenId();
    forall t: Table, c: Column | Parent(t, c).Some? ensures KeyHolds(data, t, c) {
      TakenIdKeys(data, t, c);
    }
    hide Parent;
    hide TakenId;
    FewKeys(PortfolioId);
    assert NoBets(data);
    NothingCrosses(data);
    Inspected(data);
    hide KindOf;
    hide Problem;
    hide OriginsAgree;
    hide NoBets;
    assert data[Ledger][0] == FOREIGN;
    assert data[Portfolios][1] == SIDES[1] && SIDES[1].id == Some(SHADOW_C);
    assert !InShadowC(FOREIGN);
    TakenIdSchema(data);
  }

  lemma TakenIdSchema(data: Data)
    requires data[Ledger] == [FOREIGN]
    requires forall t: Table :: t in {Ledger, Portfolios} || data[t] == []
    requires KindOf(Ledger) == LedgerRows && KindOf(Portfolios) == Kept
    ensures Schema(data) && NothingUnknown(data)
  {
    hide KindOf;
  }
}
