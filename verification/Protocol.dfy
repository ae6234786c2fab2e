/**
 The decision/outcome protocol: its records, the shared state, and what one call of
 `create_decision` or `record_outcome` does to that state when nothing else runs in between.
 */
module Protocol {
  import opened Wrappers
  import opened Schemas
  import PricingEngine

  type Id = string

  // ----- principals and clocks

  /** Quotas are kept per environment and agent. */
  datatype Owner = Owner(environment: string, agentId: string)

  datatype Principal = Principal(
    agentId: string,
    environment: string,
    rateLimitRpm: int,
    concurrentLimit: int,
    dailyBudgetUsd: real,
    defaultPolicyId: string)
  {
    /** The bounds a credential is configured under. */
    predicate Valid() { rateLimitRpm >= 1 && concurrentLimit >= 1 && dailyBudgetUsd >= 0.0 }

    function Key(): Owner { Owner(environment, agentId) }
  }

  lemma BudgetNonNegative(p: Principal)
    requires p.Valid()
    ensures p.dailyBudgetUsd >= 0.0 && p.concurrentLimit >= 1
  {
  }

  /** The readings of `time.time()` and `date.today()` during one call. */
  datatype Clock = Clock(seconds: real, day: int) {
    function Minute(): int { (seconds / 60.0).Floor }

    /** Both readings come from one clock, whose date changes at midnight UTC. */
    predicate Consistent() { day == (seconds / 86400.0).Floor }
  }

  const MINUTES_A_DAY := 1440

  /** The clock at the start of a minute. */
  function AtMinute(minute: int): Clock { Clock(60.0 * minute as real, minute / MINUTES_A_DAY) }

  lemma MinuteOfDay(c: Clock)
    ensures c.Consistent() <==> c.day == c.Minute() / MINUTES_A_DAY
  {
    var x, n := c.seconds / 60.0, c.Minute();
    var q := n / MINUTES_A_DAY;
    assert q * MINUTES_A_DAY <= n < (q + 1) * MINUTES_A_DAY;
    assert c.seconds / 86400.0 == x / 1440.0;
    assert q as real <= x / 1440.0 < q as real + 1.0;
  }

  lemma AtMinuteReads(minute: int)
    ensures AtMinute(minute).Minute() == minute && AtMinute(minute).Consistent()
  {
    assert 60.0 * minute as real / 60.0 == minute as real;
    MinuteOfDay(AtMinute(minute));
  }

  datatype MinuteKey = MinuteKey(owner: Owner, minute: int)

  datatype DayKey = DayKey(owner: Owner, day: int)

  datatype IdempotencyKey = IdempotencyKey(agentId: string, key: string)

  // ----- decisions and outcomes

  datatype Response = Response(decisionId: Id, policyId: string, decision: Decision)

  datatype AttemptStatus = Succeeded | Timeout | RateLimited | UpstreamError | ValidationError | Cancelled

  datatype Attempt = Attempt(
    modelId: string,
    provider: string,
    rank: int,
    status: AttemptStatus,
    errorClass: Option<string>,
    latencyMs: int,
    inputTokens: int,
    outputTokens: int,
    costUsd: real)

  datatype FinalStatus = Success | Partial | Failed

  datatype Outcome = Outcome(
    decisionId: Id,
    agentId: string,
    requestId: string,
    finalStatus: FinalStatus,
    attempts: seq<Attempt>,
    finalModelId: Option<string>,
    fallbackDepth: int,
    endToEndLatencyMs: int,
    finalCostUsd: real)
  {
    predicate Valid() { attempts != [] && fallbackDepth >= 0 && endToEndLatencyMs >= 0 && finalCostUsd >= 0.0 }
  }

  datatype OutcomeStatus = Recorded | Duplicate

  datatype OutcomeResponse = OutcomeResponse(
    decisionId: Id,
    status: OutcomeStatus,
    finalStatus: FinalStatus,
    attemptsRecorded: nat,
    fallbackDepth: int)

  datatype RecordStatus = Open | Completed

  /** A row of the decision table. */
  datatype Record = Record(
    agentId: string,
    environment: string,
    request: DecisionRequest,
    idempotencyKey: Option<string>,
    response: Response,
    status: RecordStatus,
    outcomeKey: Option<string>,
    finalModelId: Option<string>,
    outcome: Option<OutcomeResponse>)

  datatype OutcomeEvent = OutcomeEvent(
    decisionId: Id,
    agentId: string,
    requestId: string,
    finalStatus: FinalStatus,
    finalModelId: Option<string>,
    fallbackDepth: int,
    finalCostUsd: real,
    endToEndLatencyMs: int)

  // ----- the shared state

  datatype State = State(
    rpm: map<MinuteKey, nat>,
    slots: map<Owner, set<Id>>,
    spend: map<DayKey, real>,
    decisions: map<Id, Record>,
    index: map<IdempotencyKey, Id>,      // the unique constraint on (agent_id, idempotency_key)
    attemptRows: map<Id, seq<Attempt>>,
    events: seq<OutcomeEvent>)

  const EMPTY := State(map[], map[], map[], map[], map[], map[], [])

  // The quota dictionaries read as zero, or as the empty set, where they have no entry.

  function Hits(rpm: map<MinuteKey, nat>, k: MinuteKey): nat { if k in rpm then rpm[k] else 0 }

  function Held(slots: map<Owner, set<Id>>, o: Owner): set<Id> { if o in slots then slots[o] else {} }

  function Spent(spend: map<DayKey, real>, k: DayKey): real { if k in spend then spend[k] else 0.0 }

  function CountHit(rpm: map<MinuteKey, nat>, k: MinuteKey): map<MinuteKey, nat> { rpm[k := Hits(rpm, k) + 1] }

  function AddSlot(slots: map<Owner, set<Id>>, o: Owner, id: Id): map<Owner, set<Id>> {
    slots[o := Held(slots, o) + {id}]
  }

  function DropSlot(slots: map<Owner, set<Id>>, o: Owner, id: Id): map<Owner, set<Id>> {
    slots[o := Held(slots, o) - {id}]
  }

  function AddSpend(spend: map<DayKey, real>, k: DayKey, amount: real): map<DayKey, real> {
    spend[k := Spent(spend, k) + amount]
  }

  // ----- store operations

  /** Falsy keys, absent or empty, are never looked up. */
  function Lookup(decisions: map<Id, Record>, index: map<IdempotencyKey, Id>, agentId: string,
                  key: Option<string>): Option<Response> {
    if key.None? || key.value == "" then None
    else
      var k := IdempotencyKey(agentId, key.value);
      if k in index && index[k] in decisions then Some(decisions[index[k]].response) else None
  }

  /** The primary key and the unique constraint; a NULL key conflicts with nothing, an empty one does. */
  predicate Insertable(decisions: map<Id, Record>, index: map<IdempotencyKey, Id>, agentId: string, id: Id,
                       key: Option<string>) {
    id !in decisions && (key.Some? ==> IdempotencyKey(agentId, key.value) !in index)
  }

  function NewRecord(p: Principal, request: DecisionRequest, key: Option<string>, response: Response): Record {
    Record(p.agentId, p.environment, request, key, response, Open, None, None, None)
  }

  function Indexed(index: map<IdempotencyKey, Id>, agentId: string, key: Option<string>,
                   id: Id): map<IdempotencyKey, Id> {
    if key.Some? then index[IdempotencyKey(agentId, key.value) := id] else index
  }

  function RecordedResponse(o: Outcome): OutcomeResponse {
    OutcomeResponse(o.decisionId, Recorded, o.finalStatus, |o.attempts|, o.fallbackDepth)
  }

  /** `duplicate_outcome_payload` */
  function DuplicateOf(r: OutcomeResponse): OutcomeResponse { r.(status := Duplicate) }

  function CompletedRecord(r: Record, o: Outcome, key: Option<string>): Record {
    r.(status := Completed, outcomeKey := key, finalModelId := o.finalModelId, outcome := Some(RecordedResponse(o)))
  }

  function EventOf(p: Principal, o: Outcome): OutcomeEvent {
    OutcomeEvent(o.decisionId, p.agentId, o.requestId, o.finalStatus, o.finalModelId, o.fallbackDepth, o.finalCostUsd,
                 o.endToEndLatencyMs)
  }

  // ----- answers

  datatype Refusal =
    | AgentMismatch
    | RpmExceeded
    | BudgetExceeded
    | UnknownPolicy
    | ConcurrencyExceeded
    | EngineFailed(error: PricingEngine.EngineError)
    | DuplicateKey
    | UnknownDecision
    | OwnershipMismatch
    | RequestMismatch

  datatype Answer = Decided(response: Response) | Settled(outcome: OutcomeResponse) | Refused(reason: Refusal)

  /** What policy lookup and the engine yield for a request. */
  datatype Routing = NoSuchPolicy | Routed(policyId: string, result: Result<Decision, PricingEngine.EngineError>)

  // ----- the two calls, each as one atomic step

  predicate RpmAllows(s: State, p: Principal, clock: Clock) {
    Hits(s.rpm, MinuteKey(p.Key(), clock.Minute())) + 1 <= p.rateLimitRpm
  }

  function Counted(s: State, p: Principal, clock: Clock): State {
    s.(rpm := CountHit(s.rpm, MinuteKey(p.Key(), clock.Minute())))
  }

  predicate WithinDailyBudget(s: State, p: Principal, request: DecisionRequest, day: int) {
    Spent(s.spend, DayKey(p.Key(), day)) + request.budgetLimitUsd <= p.dailyBudgetUsd
  }

  function Stored(s: State, p: Principal, request: DecisionRequest, key: Option<string>, response: Response): State {
    s.(decisions := s.decisions[response.decisionId := NewRecord(p, request, key, response)],
       index := Indexed(s.index, p.agentId, key, response.decisionId))
  }

  /** The reservation and everything under its `try`: on any failure the slot is given back. */
  function Reserved(s: State, p: Principal, request: DecisionRequest, key: Option<string>, id: Id,
                    routing: Routing): (State, Answer)
    requires routing.Routed?
  {
    var holding := s.(slots := AddSlot(s.slots, p.Key(), id));
    var released := holding.(slots := DropSlot(holding.slots, p.Key(), id));
    if |Held(holding.slots, p.Key())| > p.concurrentLimit then (released, Refused(ConcurrencyExceeded))
    else
      match routing.result
      case Err(e) => (released, Refused(EngineFailed(e)))
      case Ok(d) =>
        var response := Response(id, routing.policyId, d);
        if Insertable(s.decisions, s.index, p.agentId, id, key) then
          (Stored(holding, p, request, key, response), Decided(response))
        else (released, Refused(DuplicateKey))
  }

  function CreateStep(s: State, p: Principal, request: DecisionRequest, key: Option<string>, id: Id, routing: Routing,
                      clock: Clock)
    : (State, Answer)
  {
    if p.agentId != request.agentId then (s, Refused(AgentMismatch))
    else
      match Lookup(s.decisions, s.index, p.agentId, key)
      case Some(response) => (s, Decided(response))
      case None =>
        var counted := Counted(s, p, clock);
        if !RpmAllows(s, p, clock) then (counted, Refused(RpmExceeded))
        else if !WithinDailyBudget(s, p, request, clock.day) then (counted, Refused(BudgetExceeded))
        else if routing.NoSuchPolicy? then (counted, Refused(UnknownPolicy))
        else Reserved(counted, p, request, key, id, routing)
  }

  /** The store transaction, then release, charge and publish. */
  function SettledBy(s: State, p: Principal, o: Outcome, key: Option<string>, day: int): State
    requires o.decisionId in s.decisions
  {
    s.(decisions := s.decisions[o.decisionId := CompletedRecord(s.decisions[o.decisionId], o, key)],
       attemptRows := s.attemptRows[o.decisionId := o.attempts],
       slots := DropSlot(s.slots, p.Key(), o.decisionId),
       spend := AddSpend(s.spend, DayKey(p.Key(), day), o.finalCostUsd),
       events := s.events + [EventOf(p, o)])
  }

  function ReportStep(s: State, p: Principal, o: Outcome, key: Option<string>, clock: Clock): (State, Answer) {
    if p.agentId != o.agentId then (s, Refused(AgentMismatch))
    else
      var counted := Counted(s, p, clock);
      if !RpmAllows(s, p, clock) then (counted, Refused(RpmExceeded))
      else if o.decisionId !in s.decisions then (counted, Refused(UnknownDecision))
      else
        var record := s.decisions[o.decisionId];
        if record.agentId != p.agentId then (counted, Refused(OwnershipMismatch))
        else if record.request.requestId != o.requestId then (counted, Refused(RequestMismatch))
        else
          match record.outcome
          case Some(first) => (counted, Settled(DuplicateOf(first)))
          case None => (SettledBy(counted, p, o, key, clock.day), Settled(RecordedResponse(o)))
  }

  // ----- runs of atomic calls

  datatype Call =
    | Create(p: Principal, request: DecisionRequest, key: Option<string>, id: Id, routing: Routing, clock: Clock)
    | Report(p: Principal, outcome: Outcome, key: Option<string>, clock: Clock)

  function Apply(s: State, c: Call): (State, Answer) {
    match c
    case Create(p, request, key, id, routing, clock) => CreateStep(s, p, request, key, id, routing, clock)
    case Report(p, outcome, key, clock) => ReportStep(s, p, outcome, key, clock)
  }

  /** The state after a sequence of calls on an empty control plane. */
  function Exec(calls: seq<Call>): State {
    if calls == [] then EMPTY else Apply(Exec(calls[..|calls| - 1]), calls[|calls| - 1]).0
  }

  /** All calls read one clock, which never goes back. */
  ghost predicate Clocked(calls: seq<Call>) {
    && (forall c :: c in calls ==> c.clock.Consistent())
    && (forall i, j :: 0 <= i < j < |calls| ==> calls[i].clock.seconds <= calls[j].clock.seconds)
  }

  /** What call number `i` was answered. */
  function AnswerAt(calls: seq<Call>, i: nat): Answer
    requires i < |calls|
  {
    Apply(Exec(calls[..i]), calls[i]).1
  }
}
