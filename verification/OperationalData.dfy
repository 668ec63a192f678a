/** The operational tables of the challenger family: their references, the inspection of their contents,
    and what the reset removes. */
module OperationalData {
  import opened Wrappers
  import opened Sequences

  datatype Family = A | C

  datatype Table =
    | ForecastResults | PairedForecasts
    | Settlements | PaperSettlements | PaperCancellations | FundedSettlements | FundedCancellations
    | DynamicSettlements | ManualSettlements | ProspectiveResults | ProspectiveInvalidations
    | BetCancellations | Ledger
    | Bets | PaperBets | FundedBets | DynamicBets | ManualBets | ManualArchives | Observations
    | ExecutionDecisions | Decisions
    | Inputs | ExecutionInputs | Jobs | ExecutionJobs | Models | Markets | Portfolios | ExecutionPolicies
    | Candidates | CandidateReviews | AdoptionEvents

  datatype Column =
    BetId | ObservationId | DecisionId | ExecutionDecisionId | OriginDecisionId | ForecastId | PortfolioId

  /** One row. A key column that is absent from `keys`, and an `id` of None, is NULL. `archived` is the family
      read from an archived bet, None when it is missing or the text is not JSON. `sound` says that a paired
      forecast parses, matches its hash and names C models, `linked` that these models and its candidate are
      registered. `rest` is everything else. */
  datatype Row = Row(id: Option<string>, family: Option<Family>, keys: map<Column, string>, archived: Option<string>,
                     sound: bool, linked: bool, event: string, available: int, committed: int, rest: string)

  type Data = d: map<Table, seq<Row>> | forall t: Table :: t in d witness (map t: Table | true :: [])

  datatype Trigger = Trigger(table: Table, beforeDelete: bool, sql: string)

  const SHADOW_C := "shadow_C"
  const OPEN_ID := "open:shadow_C"
  const OPENING := 100_000

  // ---------- The tables of the reset ----------

  /** How the reset treats a table. */
  datatype Kind =
    | ResultsOfPaired | Paired
    | Child(parent: Table, key: Column)
    | Archive | LedgerRows
    | OfFamily
    | Kept

  function KindOf(t: Table): Kind {
    match t
    case ForecastResults => ResultsOfPaired
    case PairedForecasts => Paired
    case Settlements => Child(Bets, BetId)
    case PaperSettlements => Child(PaperBets, BetId)
    case PaperCancellations => Child(PaperBets, BetId)
    case FundedSettlements => Child(FundedBets, BetId)
    case FundedCancellations => Child(FundedBets, BetId)
    case DynamicSettlements => Child(DynamicBets, BetId)
    case ManualSettlements => Child(ManualBets, BetId)
    case ProspectiveResults => Child(Observations, ObservationId)
    case ProspectiveInvalidations => Child(Observations, ObservationId)
    case BetCancellations => Archive
    case Ledger => LedgerRows
    case Bets => OfFamily
    case PaperBets => OfFamily
    case FundedBets => OfFamily
    case DynamicBets => OfFamily
    case ManualBets => OfFamily
    case ManualArchives => OfFamily
    case Observations => OfFamily
    case ExecutionDecisions => OfFamily
    case Decisions => OfFamily
    case _ => Kept
  }

  const TARGETS: nat := 22

  const CHILDREN: seq<Table> :=
    [Settlements, PaperSettlements, PaperCancellations, FundedSettlements, FundedCancellations, DynamicSettlements,
     ManualSettlements, ProspectiveResults, ProspectiveInvalidations]

  const FAMILY_TABLES: seq<Table> :=
    [Bets, PaperBets, FundedBets, DynamicBets, ManualBets, ManualArchives, Observations, ExecutionDecisions, Decisions]

  /** Position of a table in the order of the deletes; TARGETS for tables that are not touched. */
  function Stage(t: Table): nat {
    match t
    case ForecastResults => 0
    case PairedForecasts => 1
    case Settlements => 2
    case PaperSettlements => 3
    case PaperCancellations => 4
    case FundedSettlements => 5
    case FundedCancellations => 6
    case DynamicSettlements => 7
    case ManualSettlements => 8
    case ProspectiveResults => 9
    case ProspectiveInvalidations => 10
    case BetCancellations => 11
    case Ledger => 12
    case Bets => 13
    case PaperBets => 14
    case FundedBets => 15
    case DynamicBets => 16
    case ManualBets => 17
    case ManualArchives => 18
    case Observations => 19
    case ExecutionDecisions => 20
    case Decisions => 21
    case _ => TARGETS
  }

  /** The declared foreign keys among these tables and into the portfolios. */
  function Parent(t: Table, c: Column): Option<Table> {
    match c
    case BetId =>
      if t == Ledger then Some(Bets)
      else if KindOf(t).Child? && KindOf(t).key == BetId then Some(KindOf(t).parent)
      else None
    case ObservationId => if KindOf(t).Child? && KindOf(t).key == ObservationId then Some(KindOf(t).parent) else None
    case DecisionId => if t == Bets then Some(Decisions) else None
    case ExecutionDecisionId =>
      if t == Bets || t == PaperBets || t == FundedBets || t == DynamicBets then Some(ExecutionDecisions) else None
    case OriginDecisionId =>
      if t == ExecutionDecisions || t == PaperBets || t == FundedBets || t == DynamicBets then Some(Decisions) else None
    case ForecastId => if t == ForecastResults then Some(PairedForecasts) else None
    case PortfolioId =>
      if t == Decisions || t == Bets || t == Ledger || t == ExecutionDecisions
         || t == ManualBets || t == FundedBets || t == DynamicBets
      then Some(Portfolios) else None
  }

  // ---------- SQL conditions ----------

  /** `key IN (SELECT id ...)` is true: NULL matches nothing. */
  predicate SqlIn(r: Row, c: Column, ids: set<Option<string>>) {
    c in r.keys && Some(r.keys[c]) in ids
  }

  /** `key NOT IN (SELECT id ...)` is true: unknown when the key is NULL or, without a match, some id is NULL. */
  predicate SqlNotIn(r: Row, c: Column, ids: set<Option<string>>) {
    ids == {} || (c in r.keys && Some(r.keys[c]) !in ids && None !in ids)
  }

  function AllIds(data: Data, t: Table): set<Option<string>> {
    set r | r in data[t] :: r.id
  }

  function ChallengerIds(data: Data, t: Table): set<Option<string>> {
    set r | r in data[t] && r.family == Some(C) :: r.id
  }

  predicate InShadowC(r: Row) {
    PortfolioId in r.keys && r.keys[PortfolioId] == SHADOW_C
  }

  /** The condition of the delete statement on a table, evaluated against given contents. */
  predicate Doomed(data: Data, t: Table, r: Row) {
    match KindOf(t)
    case ResultsOfPaired => SqlIn(r, ForecastId, AllIds(data, PairedForecasts))
    case Paired => true
    case Child(parent, key) => SqlIn(r, key, ChallengerIds(data, parent))
    case Archive => r.archived == Some("C")
    case LedgerRows => InShadowC(r)
    case OfFamily => r.family == Some(C)
    case Kept => false
  }

  function Survives(data: Data, t: Table): Row -> bool {
    (r: Row) => !Doomed(data, t, r)
  }

  /** The condition that selects the population to preserve. */
  predicate Protected(data: Data, t: Table, r: Row) {
    match KindOf(t)
    case Child(parent, key) => SqlNotIn(r, key, ChallengerIds(data, parent))
    case Archive => r.archived.Some? && r.archived.value != "C"
    case LedgerRows => PortfolioId in r.keys && r.keys[PortfolioId] != SHADOW_C
    case OfFamily => r.family.Some? && r.family.value != C
    case _ => true
  }

  function Preserve(data: Data, t: Table): Row -> bool {
    (r: Row) => Protected(data, t, r)
  }

  // ---------- Inspection ----------

  datatype ResetError =
    | InvalidEpoch | UnclassifiedArchive | RequiredByAdoption | InvalidPaired | CrossFamilyReference
    | ForeignKeyBefore | PlanChanged | InvalidTrigger | DeleteAborted(table: Table) | ForeignKeyNow(table: Table)
    | LedgerConflict | BalanceMismatch | ForeignKeyAfter | ProtectedDataChanged | SchemaChanged

  /** Contents are compared by hashes of sorted row hashes; injective hashes make these multisets of rows. */
  datatype Report = Report(schema: map<string, Trigger>, targets: map<Table, multiset<Row>>,
                           preserved: map<Table, multiset<Row>>, guards: map<string, Trigger>)

  predicate References(r: Row, c: Column, p: Row) {
    c in r.keys && p.id == Some(r.keys[c])
  }

  predicate ForeignKeysHold(data: Data) {
    forall t: Table, c: Column :: Parent(t, c).Some? ==> KeyHolds(data, t, c)
  }

  predicate KeyHolds(data: Data, t: Table, c: Column)
    requires Parent(t, c).Some?
  {
    forall r :: r in data[t] && c in r.keys ==> exists p :: p in data[Parent(t, c).value] && References(r, c, p)
  }

  predicate FamiliesAgree(data: Data, t: Table, c: Column)
    requires Parent(t, c).Some?
  {
    forall r, p :: r in data[t] && p in data[Parent(t, c).value] && References(r, c, p) ==> r.family == p.family
  }

  function ShadowOf(f: Option<Family>): string {
    match f
    case Some(A) => "shadow_A"
    case Some(C) => SHADOW_C
    case None => ""
  }

  /** No row found by the cross-family queries. */
  predicate NoCrossFamily(data: Data) {
    && FamiliesAgree(data, ExecutionDecisions, OriginDecisionId)
    && FamiliesAgree(data, Bets, ExecutionDecisionId) && FamiliesAgree(data, PaperBets, ExecutionDecisionId)
    && FamiliesAgree(data, FundedBets, ExecutionDecisionId) && FamiliesAgree(data, DynamicBets, ExecutionDecisionId)
    && FamiliesAgree(data, Bets, DecisionId)
    && forall l, b :: l in data[Ledger] && b in data[Bets] && References(l, BetId, b) ==>
         PortfolioId in l.keys && l.keys[PortfolioId] == ShadowOf(b.family)
  }

  predicate Classified(r: Row) {
    r.archived == Some("A") || r.archived == Some("C")
  }

  function Problem(data: Data): Option<ResetError> {
    if exists r :: r in data[BetCancellations] && !Classified(r) then Some(UnclassifiedArchive)
    else if data[CandidateReviews] != [] || data[AdoptionEvents] != [] then Some(RequiredByAdoption)
    else if exists r :: r in data[PairedForecasts] && !r.sound then Some(InvalidPaired)
    else if exists r :: r in data[PairedForecasts] && !r.linked then Some(RequiredByAdoption)
    else if !NoCrossFamily(data) then Some(CrossFamilyReference)
    else if !ForeignKeysHold(data) then Some(ForeignKeyBefore)
    else None
  }

  function Guards(triggers: map<string, Trigger>): map<string, Trigger> {
    map name | name in triggers && triggers[name].beforeDelete && Stage(triggers[name].table) < TARGETS ::
      triggers[name]
  }

  function Preserved(data: Data): map<Table, multiset<Row>> {
    map t: Table | KindOf(t) != Paired && KindOf(t) != ResultsOfPaired :: multiset(Filter(data[t], Preserve(data, t)))
  }

  function Inspect(data: Data, triggers: map<string, Trigger>): Result<Report, ResetError> {
    match Problem(data)
    case Some(e) => Err(e)
    case None =>
      Ok(Report(triggers, map t: Table | Stage(t) < TARGETS :: multiset(data[t]), Preserved(data), Guards(triggers)))
  }

  /** What the schema itself guarantees: families are given, portfolios of ledger rows are not NULL, and
      non-NULL ids of decisions are unique. */
  ghost predicate Schema(data: Data) {
    && (forall t: Table, r :: KindOf(t) == OfFamily && r in data[t] ==> r.family.Some?)
    && (forall r :: r in data[Ledger] ==> PortfolioId in r.keys)
    && (forall p, q :: p in data[Decisions] && q in data[Decisions] && p.id == q.id && p.id.Some? ==> p == q)
  }
}
