/** What a reset leaves behind, table by table, and what an inspection accepts, in the terms of the schema. */
module OperationalOutcome {
  import opened Wrappers
  import opened Sequences
  import opened OperationalData
  import opened OperationalReset

  // ---------- The opening row ----------

  /** A row with a portfolio and no other key that opens the challenger's ledger with 100000 cents at that time. */
  predicate IsOpening(r: Row, openedAt: string) {
    && r.id == Some("open:shadow_C") && r.keys == map[PortfolioId := "shadow_C"] && r.event == "OPEN"
    && r.available == 100_000 && r.committed == 0 && r.rest == openedAt && r.family == None && r.archived == None
  }

  /** The ledger has exactly one row of the portfolio shadow_C, and it is the opening. */
  ghost predicate OpenedOnce(ledger: seq<Row>, openedAt: string) {
    exists i :: 0 <= i < |ledger| && IsOpening(ledger[i], openedAt)
      && forall j :: 0 <= j < |ledger| && j != i ==>
           !(PortfolioId in ledger[j].keys && ledger[j].keys[PortfolioId] == "shadow_C")
  }

  lemma OpeningIsLast(data: Data, at: string)
    ensures OpenedOnce(ResetData(data, at)[Ledger], at)
  {
    hide *;
    ResetLedger(data, at);
    OpenRowIs(at);
    LastOpens(Left(data, Ledger), OpenRow(at), at);
  }

  lemma OpenRowIs(at: string)
    ensures IsOpening(OpenRow(at), at)
  {
  }

  lemma ResetLedger(data: Data, at: string)
    ensures ResetData(data, at)[Ledger] == Left(data, Ledger) + [OpenRow(at)]
    ensures forall r :: r in Left(data, Ledger) ==> !(PortfolioId in r.keys && r.keys[PortfolioId] == "shadow_C")
  {
    hide *;
    ResetTable(data, at, Ledger);
    forall r | r in Left(data, Ledger) ensures !(PortfolioId in r.keys && r.keys[PortfolioId] == "shadow_C") {
      LeftMember(data, Ledger, r);
      LedgerDoomed(data, r);
    }
  }

  lemma LedgerDoomed(data: Data, r: Row)
    ensures Doomed(data, Ledger, r) <==> PortfolioId in r.keys && r.keys[PortfolioId] == "shadow_C"
  {
  }

  lemma LastOpens(left: seq<Row>, open: Row, at: string)
    requires IsOpening(open, at)
    requires forall r :: r in left ==> !(PortfolioId in r.keys && r.keys[PortfolioId] == "shadow_C")
    ensures OpenedOnce(left + [open], at)
  {
    var ledger := left + [open];
    assert IsOpening(ledger[|left|], at);
    forall j | 0 <= j < |ledger| && j != |left|
      ensures !(PortfolioId in ledger[j].keys && ledger[j].keys[PortfolioId] == "shadow_C")
    {
      assert ledger[j] in left;
    }
  }

  // ---------- The rows that go ----------

  predicate PointsTo(r: Row, c: Column, rows: seq<Row>) {
    c in r.keys && exists p :: p in rows && p.id == Some(r.keys[c])
  }

  predicate PointsToC(r: Row, c: Column, rows: seq<Row>) {
    c in r.keys && exists p :: p in rows && p.id == Some(r.keys[c]) && p.family == Some(C)
  }

  /** The rows of a table that the reset removes: those of the challenger, and what points to them. */
  predicate Gone(data: Data, t: Table, r: Row) {
    match t
    case ForecastResults => PointsTo(r, ForecastId, data[PairedForecasts])
    case PairedForecasts => true
    case Settlements => PointsToC(r, BetId, data[Bets])
    case PaperSettlements => PointsToC(r, BetId, data[PaperBets])
    case PaperCancellations => PointsToC(r, BetId, data[PaperBets])
    case FundedSettlements => PointsToC(r, BetId, data[FundedBets])
    case FundedCancellations => PointsToC(r, BetId, data[FundedBets])
    case DynamicSettlements => PointsToC(r, BetId, data[DynamicBets])
    case ManualSettlements => PointsToC(r, BetId, data[ManualBets])
    case ProspectiveResults => PointsToC(r, ObservationId, data[Observations])
    case ProspectiveInvalidations => PointsToC(r, ObservationId, data[Observations])
    case BetCancellations => r.archived == Some("C")
    case Ledger => PortfolioId in r.keys && r.keys[PortfolioId] == "shadow_C"
    case _ =>
      && t in {Bets, PaperBets, FundedBets, DynamicBets, ManualBets, ManualArchives, Observations, ExecutionDecisions,
               Decisions}
      && r.family == Some(C)
  }

  function Stays(data: Data, t: Table): Row -> bool {
    (r: Row) => !Gone(data, t, r)
  }

  lemma InChallengerIds(r: Row, c: Column, data: Data, parent: Table)
    ensures SqlIn(r, c, ChallengerIds(data, parent)) <==> PointsToC(r, c, data[parent])
    ensures SqlIn(r, c, AllIds(data, parent)) <==> PointsTo(r, c, data[parent])
  {
  }

  lemma GoneIsDoomed(data: Data, t: Table, r: Row)
    ensures Gone(data, t, r) <==> Doomed(data, t, r)
  {
    hide SqlIn;
    hide PointsTo;
    hide PointsToC;
    forall parent: Table, c: Column {
      InChallengerIds(r, c, data, parent);
    }
  }

  /** Every table keeps its other rows in their order; the ledger gets one more. */
  ghost predicate Leaves(before: Data, after: Data, openedAt: string) {
    && (forall t: Table :: t != Ledger ==> after[t] == Filter(before[t], Stays(before, t)))
    && exists open :: IsOpening(open, openedAt)
                      && after[Ledger] == Filter(before[Ledger], Stays(before, Ledger)) + [open]
  }

  lemma ResetLeaves(data: Data, at: string)
    ensures Leaves(data, ResetData(data, at), at)
  {
    hide *;
    forall t: Table ensures Left(data, t) == Filter(data[t], Stays(data, t)) {
      LeftStays(data, t);
    }
    forall t: Table
      ensures ResetData(data, at)[t] == if t == Ledger then Left(data, t) + [OpenRow(at)] else Left(data, t)
    {
      ResetTable(data, at, t);
    }
    OpenRowIs(at);
    LeavesIntro(data, ResetData(data, at), at, OpenRow(at));
  }

  lemma LeavesIntro(before: Data, after: Data, at: string, open: Row)
    requires forall t: Table :: t != Ledger ==> after[t] == Filter(before[t], Stays(before, t))
    requires IsOpening(open, at) && after[Ledger] == Filter(before[Ledger], Stays(before, Ledger)) + [open]
    ensures Leaves(before, after, at)
  {
  }

  lemma LeftStays(data: Data, t: Table)
    ensures Left(data, t) == Filter(data[t], Stays(data, t))
  {
    forall r | r in data[t] ensures Survives(data, t)(r) <==> Stays(data, t)(r) {
      GoneIsDoomed(data, t, r);
    }
    hide Doomed;
    hide Gone;
    FilterCong(data[t], Survives(data, t), Stays(data, t));
  }

  // ---------- The references of the schema ----------

  /** Child table, key column, parent table. */
  predicate Declared(t: Table, c: Column, p: Table) {
    match c
    case BetId =>
      || (p == Bets && t in {Settlements, Ledger})
      || (p == PaperBets && t in {PaperSettlements, PaperCancellations})
      || (p == FundedBets && t in {FundedSettlements, FundedCancellations})
      || (p == DynamicBets && t == DynamicSettlements)
      || (p == ManualBets && t == ManualSettlements)
    case ObservationId => p == Observations && t in {ProspectiveResults, ProspectiveInvalidations}
    case DecisionId => p == Decisions && t == Bets
    case ExecutionDecisionId => p == ExecutionDecisions && t in {Bets, PaperBets, FundedBets, DynamicBets}
    case OriginDecisionId => p == Decisions && t in {ExecutionDecisions, PaperBets, FundedBets, DynamicBets}
    case ForecastId => p == PairedForecasts && t == ForecastResults
    case PortfolioId =>
      p == Portfolios && t in {Decisions, Bets, Ledger, ExecutionDecisions, ManualBets, FundedBets, DynamicBets}
  }

  lemma ChildReads(t: Table)
    ensures KindOf(t).Child? <==>
              t in {Settlements, PaperSettlements, PaperCancellations, FundedSettlements, FundedCancellations,
                    DynamicSettlements, ManualSettlements, ProspectiveResults, ProspectiveInvalidations}
    ensures t == Settlements ==> KindOf(t) == Child(Bets, BetId)
    ensures t in {PaperSettlements, PaperCancellations} ==> KindOf(t) == Child(PaperBets, BetId)
    ensures t in {FundedSettlements, FundedCancellations} ==> KindOf(t) == Child(FundedBets, BetId)
    ensures t == DynamicSettlements ==> KindOf(t) == Child(DynamicBets, BetId)
    ensures t == ManualSettlements ==> KindOf(t) == Child(ManualBets, BetId)
    ensures t in {ProspectiveResults, ProspectiveInvalidations} ==> KindOf(t) == Child(Observations, ObservationId)
  {
  }

  lemma ParentReads(t: Table, c: Column, p: Table)
    ensures Parent(t, c) == Some(p) <==> Declared(t, c, p)
  {
    hide *;
    if c == BetId || c == ObservationId {
      ParentOfChild(t, c, p);
    } else {
      ParentOfOther(t, c, p);
    }
  }

  lemma ParentOfOther(t: Table, c: Column, p: Table)
    requires c != BetId && c != ObservationId
    ensures Parent(t, c) == Some(p) <==> Declared(t, c, p)
  {
    hide *;
    match c
    case DecisionId => ParentByDecision(t, p);
    case ExecutionDecisionId => ParentByExecutionDecision(t, p);
    case OriginDecisionId => ParentByOriginDecision(t, p);
    case ForecastId => ParentByForecast(t, p);
    case PortfolioId => ParentByPortfolio(t, p);
  }

  lemma ParentByDecision(t: Table, p: Table)
    ensures Parent(t, DecisionId) == Some(p) <==> Declared(t, DecisionId, p)
  {
    hide KindOf;
  }

  lemma ParentByExecutionDecision(t: Table, p: Table)
    ensures Parent(t, ExecutionDecisionId) == Some(p) <==> Declared(t, ExecutionDecisionId, p)
  {
    hide KindOf;
  }

  lemma ParentByOriginDecision(t: Table, p: Table)
    ensures Parent(t, OriginDecisionId) == Some(p) <==> Declared(t, OriginDecisionId, p)
  {
    hide KindOf;
  }

  lemma ParentByForecast(t: Table, p: Table)
    ensures Parent(t, ForecastId) == Some(p) <==> Declared(t, ForecastId, p)
  {
    hide KindOf;
  }

  lemma ParentByPortfolio(t: Table, p: Table)
    ensures Parent(t, PortfolioId) == Some(p) <==> Declared(t, PortfolioId, p)
  {
    hide KindOf;
  }

  lemma ParentOfChild(t: Table, c: Column, p: Table)
    requires c == BetId || c == ObservationId
    ensures Parent(t, c) == Some(p) <==> Declared(t, c, p)
  {
    ChildReads(t);
    hide KindOf;
    match t
    case Settlements =>
    case PaperSettlements =>
    case PaperCancellations =>
    case FundedSettlements =>
    case FundedCancellations =>
    case DynamicSettlements =>
    case ManualSettlements =>
    case ProspectiveResults =>
    case ProspectiveInvalidations =>
    case Ledger =>
    case _ =>
  }

  /** The key of a row, if it is not NULL, is the id of a row of the other table. */
  predicate Dangles(data: Data, r: Row, c: Column, p: Table) {
    c in r.keys && forall q :: q in data[p] ==> q.id != Some(r.keys[c])
  }

  lemma KeysRead(data: Data)
    ensures ForeignKeysHold(data) <==>
              forall t: Table, c: Column, p: Table, r :: Declared(t, c, p) && r in data[t] ==> !Dangles(data, r, c, p)
  {
    forall t: Table, c: Column, p: Table ensures Parent(t, c) == Some(p) <==> Declared(t, c, p) {
      ParentReads(t, c, p);
    }
    hide Parent;
    hide Declared;
    if ForeignKeysHold(data) {
      forall t: Table, c: Column, p: Table, r | Declared(t, c, p) && r in data[t] ensures !Dangles(data, r, c, p) {
        assert KeyHolds(data, t, c);
      }
    }
    if forall t: Table, c: Column, p: Table, r :: Declared(t, c, p) && r in data[t] ==> !Dangles(data, r, c, p) {
      forall t: Table, c: Column | Parent(t, c).Some? ensures KeyHolds(data, t, c) {
        forall r | r in data[t] && c in r.keys
          ensures exists q :: q in data[Parent(t, c).value] && References(r, c, q)
        {
          assert !Dangles(data, r, c, Parent(t, c).value);
        }
      }
    }
  }

  // ---------- The inspection ----------

  /** A bet or execution decision that refers across the families. */
  predicate Crosses(r: Row, c: Column, p: Row) {
    c in r.keys && Some(r.keys[c]) == p.id && p.family != r.family
  }

  /** A ledger row of a bet in the portfolio of the other family, or in none. */
  predicate Misbooked(l: Row, b: Row) {
    && BetId in l.keys && b.id == Some(l.keys[BetId])
    && !(PortfolioId in l.keys
         && ((b.family == Some(A) && l.keys[PortfolioId] == "shadow_A")
             || (b.family == Some(C) && l.keys[PortfolioId] == "shadow_C")))
  }

  /** Some row of the first table crosses to some row of the second. */
  predicate AnyCrosses(data: Data, t: Table, c: Column, p: Table) {
    exists r, q :: r in data[t] && q in data[p] && Crosses(r, c, q)
  }

  lemma AgreeIff(data: Data, t: Table, c: Column, p: Table)
    requires Parent(t, c) == Some(p)
    ensures FamiliesAgree(data, t, c) <==> !AnyCrosses(data, t, c, p)
  {
    hide Parent;
  }

  predicate Crossed(data: Data) {
    || AnyCrosses(data, ExecutionDecisions, OriginDecisionId, Decisions)
    || AnyCrosses(data, Bets, ExecutionDecisionId, ExecutionDecisions)
    || AnyCrosses(data, PaperBets, ExecutionDecisionId, ExecutionDecisions)
    || AnyCrosses(data, FundedBets, ExecutionDecisionId, ExecutionDecisions)
    || AnyCrosses(data, DynamicBets, ExecutionDecisionId, ExecutionDecisions)
    || AnyCrosses(data, Bets, DecisionId, Decisions)
    || AnyMisbooked(data)
  }

  predicate AnyMisbooked(data: Data) {
    exists l, b :: l in data[Ledger] && b in data[Bets] && Misbooked(l, b)
  }

  lemma MisbookedIff(data: Data)
    requires forall b :: b in data[Bets] ==> b.family.Some?
    ensures AnyMisbooked(data)
       <==> !forall l, b :: l in data[Ledger] && b in data[Bets] && References(l, BetId, b) ==>
              PortfolioId in l.keys && l.keys[PortfolioId] == ShadowOf(b.family)
  {
    forall l, b | l in data[Ledger] && b in data[Bets]
      ensures Misbooked(l, b) <==>
                References(l, BetId, b) && !(PortfolioId in l.keys && l.keys[PortfolioId] == ShadowOf(b.family))
    {
      MisbookedIs(l, b);
    }
    hide Misbooked;
    hide References;
    hide ShadowOf;
  }

  lemma CrossedIff(data: Data)
    requires forall b :: b in data[Bets] ==> b.family.Some?
    ensures NoCrossFamily(data) <==> !Crossed(data)
  {
    hide Parent;
    ParentReads(ExecutionDecisions, OriginDecisionId, Decisions);
    ParentReads(Bets, ExecutionDecisionId, ExecutionDecisions);
    ParentReads(PaperBets, ExecutionDecisionId, ExecutionDecisions);
    ParentReads(FundedBets, ExecutionDecisionId, ExecutionDecisions);
    ParentReads(DynamicBets, ExecutionDecisionId, ExecutionDecisions);
    ParentReads(Bets, DecisionId, Decisions);
    AgreeIff(data, ExecutionDecisions, OriginDecisionId, Decisions);
    AgreeIff(data, Bets, ExecutionDecisionId, ExecutionDecisions);
    AgreeIff(data, PaperBets, ExecutionDecisionId, ExecutionDecisions);
    AgreeIff(data, FundedBets, ExecutionDecisionId, ExecutionDecisions);
    AgreeIff(data, DynamicBets, ExecutionDecisionId, ExecutionDecisions);
    AgreeIff(data, Bets, DecisionId, Decisions);
    MisbookedIff(data);
    hide Declared;
    hide AnyCrosses;
    hide AnyMisbooked;
    hide FamiliesAgree;
    hide References;
    hide ShadowOf;
  }

  lemma MisbookedIs(l: Row, b: Row)
    requires b.family.Some?
    ensures Misbooked(l, b) <==>
              References(l, BetId, b) && !(PortfolioId in l.keys && l.keys[PortfolioId] == ShadowOf(b.family))
  {
  }

  /** The inspection stops at the first of these. */
  lemma ProblemReads(data: Data)
    requires forall b :: b in data[Bets] ==> b.family.Some?
    ensures Problem(data)
         == if exists r :: r in data[BetCancellations] && !(r.archived in {Some("A"), Some("C")})
            then Some(UnclassifiedArchive)
            else if |data[CandidateReviews]| > 0 || |data[AdoptionEvents]| > 0 then Some(RequiredByAdoption)
            else if exists r :: r in data[PairedForecasts] && !r.sound then Some(InvalidPaired)
            else if exists r :: r in data[PairedForecasts] && !r.linked then Some(RequiredByAdoption)
            else if Crossed(data) then Some(CrossFamilyReference)
            else if exists t: Table, c: Column, p: Table, r ::
                      Declared(t, c, p) && r in data[t] && Dangles(data, r, c, p)
            then Some(ForeignKeyBefore)
            else None
  {
    CrossedIff(data);
    KeysRead(data);
    hide NoCrossFamily;
    hide ForeignKeysHold;
    hide Crossed;
    hide Declared;
    hide Dangles;
  }

  /** An inspection without a problem reports the triggers, the contents of the tables that the reset empties in part
      or in whole, the protected contents and the guards. */
  lemma InspectReads(data: Data, triggers: map<string, Trigger>)
    requires Problem(data) == None
    ensures Inspect(data, triggers).Ok?
    ensures var report := Inspect(data, triggers).value;
            && report.schema == triggers && report.preserved == Preserved(data) && report.guards == Guards(triggers)
            && forall t: Table ::
                 && (t in report.targets <==> !Spared(t))
                 && (t in report.targets ==> report.targets[t] == multiset(data[t]))
  {
    forall t: Table ensures Stage(t) < TARGETS <==> !Spared(t) {
      SparedIs(t);
    }
    hide Problem;
    hide Preserved;
    hide Guards;
    hide Stage;
    hide Spared;
  }

  /** The tables in which no reset deletes. */
  predicate Spared(t: Table) {
    t in {Inputs, ExecutionInputs, Jobs, ExecutionJobs, Models, Markets, Portfolios, ExecutionPolicies, Candidates,
          CandidateReviews, AdoptionEvents}
  }

  lemma SparedIs(t: Table)
    ensures Stage(t) < TARGETS <==> !Spared(t)
  {
  }

  // ---------- Guards and protected rows ----------

  /** The triggers to lift: before a delete, on a table that the reset empties in part or in whole. */
  lemma GuardsRead(triggers: map<string, Trigger>, name: string)
    ensures name in Guards(triggers) <==>
              name in triggers && triggers[name].beforeDelete && !Spared(triggers[name].table)
    ensures name in Guards(triggers) ==> Guards(triggers)[name] == triggers[name]
  {
    if name in triggers {
      SparedIs(triggers[name].table);
    }
    hide Stage;
    hide Spared;
  }

  /** The NOT IN of SQL against the challenger's rows of a table: true of every row when there are none, otherwise of
      a row with a key that is the id of none of them, if each of them has an id. */
  predicate NotOfC(r: Row, c: Column, rows: seq<Row>) {
    (forall p :: p in rows ==> p.family != Some(C))
    || (c in r.keys && forall p :: p in rows && p.family == Some(C) ==> p.id.Some? && p.id.value != r.keys[c])
  }

  /** The rows that a reset must leave as they are. */
  predicate MustStay(data: Data, t: Table, r: Row) {
    match t
    case Settlements => NotOfC(r, BetId, data[Bets])
    case PaperSettlements => NotOfC(r, BetId, data[PaperBets])
    case PaperCancellations => NotOfC(r, BetId, data[PaperBets])
    case FundedSettlements => NotOfC(r, BetId, data[FundedBets])
    case FundedCancellations => NotOfC(r, BetId, data[FundedBets])
    case DynamicSettlements => NotOfC(r, BetId, data[DynamicBets])
    case ManualSettlements => NotOfC(r, BetId, data[ManualBets])
    case ProspectiveResults => NotOfC(r, ObservationId, data[Observations])
    case ProspectiveInvalidations => NotOfC(r, ObservationId, data[Observations])
    case BetCancellations => r.archived.Some? && r.archived.value != "C"
    case Ledger => PortfolioId in r.keys && r.keys[PortfolioId] != "shadow_C"
    case _ =>
      t in {Bets, PaperBets, FundedBets, DynamicBets, ManualBets, ManualArchives, Observations, ExecutionDecisions,
            Decisions}
      ==> r.family == Some(A)
  }

  function Staying(data: Data, t: Table): Row -> bool {
    (r: Row) => MustStay(data, t, r)
  }

  lemma NotInReads(r: Row, c: Column, data: Data, parent: Table)
    ensures SqlNotIn(r, c, ChallengerIds(data, parent)) <==> NotOfC(r, c, data[parent])
  {
    hide ChallengerIds;
    if SqlNotIn(r, c, ChallengerIds(data, parent)) {
      NotOfCIn(r, c, data, parent);
    }
    if NotOfC(r, c, data[parent]) {
      NotOfCOut(r, c, data, parent);
    }
    hide SqlNotIn;
    hide NotOfC;
  }

  lemma NotOfCIn(r: Row, c: Column, data: Data, parent: Table)
    requires SqlNotIn(r, c, ChallengerIds(data, parent))
    ensures NotOfC(r, c, data[parent])
  {
    hide ChallengerIds;
    forall p | p in data[parent] && p.family == Some(C)
      ensures c in r.keys && p.id.Some? && p.id.value != r.keys[c]
    {
      IdsOfC(data, parent, p.id);
    }
  }

  lemma NotOfCOut(r: Row, c: Column, data: Data, parent: Table)
    requires NotOfC(r, c, data[parent])
    ensures SqlNotIn(r, c, ChallengerIds(data, parent))
  {
    hide ChallengerIds;
    if id :| id in ChallengerIds(data, parent) {
      IdsOfC(data, parent, id);
      IdsOfC(data, parent, None);
      IdsOfC(data, parent, Some(r.keys[c]));
    }
  }

  lemma IdsOfC(data: Data, parent: Table, id: Option<string>)
    ensures id in ChallengerIds(data, parent) <==> exists p :: p in data[parent] && p.family == Some(C) && p.id == id
  {
  }

  lemma StayingIs(data: Data, t: Table, r: Row)
    requires t != PairedForecasts && t != ForecastResults
    ensures Protected(data, t, r) <==> MustStay(data, t, r)
  {
    hide SqlNotIn;
    hide NotOfC;
    hide ChallengerIds;
    forall c: Column, parent: Table {
      NotInReads(r, c, data, parent);
    }
  }

  /** Every table but those of the paired forecasts is compared on these rows. */
  lemma PreservedReads(data: Data, t: Table)
    ensures t in Preserved(data) <==> t != PairedForecasts && t != ForecastResults
    ensures t in Preserved(data) ==> Preserved(data)[t] == multiset(Filter(data[t], Staying(data, t)))
  {
    hide *;
    PreservedAt(data, t);
    PairedTables(t);
    if Recorded(t) {
      forall r | r in data[t] ensures Preserve(data, t)(r) == Staying(data, t)(r) {
        StayingIs(data, t, r);
        PreserveIsProtected(data, t, r);
        StayingIsMust(data, t, r);
      }
      FilterCong(data[t], Preserve(data, t), Staying(data, t));
    }
  }

  lemma StayingIsMust(data: Data, t: Table, r: Row)
    ensures Staying(data, t)(r) == MustStay(data, t, r)
  {
    hide MustStay;
  }

  lemma PairedTables(t: Table)
    ensures Recorded(t) <==> t != PairedForecasts && t != ForecastResults
  {
  }
}
