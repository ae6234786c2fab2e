/**
 The same protocol as the Redis runtime executes it: every Redis command and every database
 transaction is a step of its own, and steps of any number of requests interleave freely.
 A request that crashes is one whose next step is never taken.
 */
module Interleaving {
  import opened Wrappers
  import opened Schemas
  import PricingEngine
  import opened Protocol
  import opened Sums
  import opened AtomicRuns

  // ----- the machine

  /** How far the life of one decision id has come. */
  datatype Stage =
    | Looked                              // lookup missed
    | Admitted                            // passed the rate check
    | Checked                             // passed the budget check
    | Added                               // SADD done
    | Rejecting                           // SCARD above the limit, SREM to come
    | Holding                             // SCARD within the limit
    | Aborting                            // engine or insert failed, SREM to come
    | Dropped                             // create has failed
    | InTable                             // decision stored and open
    | Committed(who: Principal, o: Outcome)  // first outcome stored, SREM to come
    | Released(who: Principal, o: Outcome)   // slot given back, charge to come
    | Charged(who: Principal, o: Outcome)    // spend recorded, event to come
    | Published(who: Principal, o: Outcome)

  datatype Flight = Flight(p: Principal, request: DecisionRequest, key: Option<string>, stage: Stage)

  /** A report that has passed its rate check and is on its way to the store. */
  datatype Clearance = Clearance(p: Principal, id: Id)

  datatype Machine = Machine(shared: State, flights: map<Id, Flight>, cleared: set<Clearance>)

  datatype Act =
    | Begin(id: Id, p: Principal, request: DecisionRequest, key: Option<string>)
    | Incr(id: Id)
    | ReadBudget(id: Id, policyFound: bool)
    | Sadd(id: Id)
    | Scard(id: Id)
    | Srem(id: Id)
    | Insert(id: Id, policyId: string, result: Result<Decision, PricingEngine.EngineError>)
    | ReportIncr(p: Principal, id: Id)
    | Commit(p: Principal, o: Outcome, key: Option<string>)
    | IncrSpend(id: Id)
    | Xadd(id: Id)

  /** One step, with the clock it reads. */
  datatype Step = Step(act: Act, clock: Clock)

  const START := Machine(EMPTY, map[], {})

  predicate At(m: Machine, id: Id, stage: Stage) { id in m.flights && m.flights[id].stage == stage }

  function Move(m: Machine, id: Id, stage: Stage): Machine
    requires id in m.flights
  {
    m.(flights := m.flights[id := m.flights[id].(stage := stage)])
  }

  function WithSlots(m: Machine, slots: map<Owner, set<Id>>): Machine { m.(shared := m.shared.(slots := slots)) }

  predicate Begins(m: Machine, id: Id, p: Principal, request: DecisionRequest, key: Option<string>) {
    && id !in m.flights
    && p.agentId == request.agentId
    && Lookup(m.shared.decisions, m.shared.index, p.agentId, key).None?
  }

  predicate Commits(m: Machine, p: Principal, o: Outcome) {
    && p.agentId == o.agentId
    && o.decisionId in m.shared.decisions
    && m.shared.decisions[o.decisionId].agentId == p.agentId
    && m.shared.decisions[o.decisionId].request.requestId == o.requestId
    && m.shared.decisions[o.decisionId].outcome.None?
    && At(m, o.decisionId, InTable)
    && Clearance(p, o.decisionId) in m.cleared
  }

  // A step whose turn it is not changes nothing.

  function DoBegin(m: Machine, id: Id, p: Principal, request: DecisionRequest, key: Option<string>): Machine {
    if Begins(m, id, p, request, key) then m.(flights := m.flights[id := Flight(p, request, key, Looked)]) else m
  }

  function DoIncr(m: Machine, id: Id, clock: Clock): Machine {
    if !At(m, id, Looked) then m
    else
      var p := m.flights[id].p;
      Move(m.(shared := Counted(m.shared, p, clock)), id, if RpmAllows(m.shared, p, clock) then Admitted else Dropped)
  }

  function DoReadBudget(m: Machine, id: Id, policyFound: bool, day: int): Machine {
    if !At(m, id, Admitted) then m
    else
      var f := m.flights[id];
      Move(m, id, if WithinDailyBudget(m.shared, f.p, f.request, day) && policyFound then Checked else Dropped)
  }

  function DoSadd(m: Machine, id: Id): Machine {
    if !At(m, id, Checked) then m
    else Move(WithSlots(m, AddSlot(m.shared.slots, m.flights[id].p.Key(), id)), id, Added)
  }

  function DoScard(m: Machine, id: Id): Machine {
    if !At(m, id, Added) then m
    else
      var p := m.flights[id].p;
      Move(m, id, if |Held(m.shared.slots, p.Key())| > p.concurrentLimit then Rejecting else Holding)
  }

  function DoSrem(m: Machine, id: Id): Machine {
    if id !in m.flights then m
    else
      var f := m.flights[id];
      if f.stage.Rejecting? || f.stage.Aborting? then
        Move(WithSlots(m, DropSlot(m.shared.slots, f.p.Key(), id)), id, Dropped)
      else if f.stage.Committed? then
        Move(WithSlots(m, DropSlot(m.shared.slots, f.stage.who.Key(), id)), id, Released(f.stage.who, f.stage.o))
      else m
  }

  /** The engine call and the insert under the `try`. */
  function DoInsert(m: Machine, id: Id, policyId: string,
                    result: Result<Decision, PricingEngine.EngineError>): Machine {
    if !At(m, id, Holding) then m
    else
      var (f, s) := (m.flights[id], m.shared);
      if result.Ok? && Insertable(s.decisions, s.index, f.p.agentId, id, f.key) then
        Move(m.(shared := Stored(s, f.p, f.request, f.key, Response(id, policyId, result.value))), id, InTable)
      else Move(m, id, Aborting)
  }

  function DoCommit(m: Machine, p: Principal, o: Outcome, key: Option<string>): Machine {
    if !Commits(m, p, o) then m
    else
      var s := m.shared;
      Move(m.(shared := s.(decisions := s.decisions[o.decisionId := CompletedRecord(s.decisions[o.decisionId], o, key)],
                           attemptRows := s.attemptRows[o.decisionId := o.attempts])),
           o.decisionId, Committed(p, o))
  }

  function DoIncrSpend(m: Machine, id: Id, day: int): Machine {
    if id !in m.flights || !m.flights[id].stage.Released? then m
    else
      var st := m.flights[id].stage;
      Move(m.(shared := m.shared.(spend := AddSpend(m.shared.spend, DayKey(st.who.Key(), day), st.o.finalCostUsd))), id,
           Charged(st.who, st.o))
  }

  function DoXadd(m: Machine, id: Id): Machine {
    if id !in m.flights || !m.flights[id].stage.Charged? then m
    else
      var st := m.flights[id].stage;
      Move(m.(shared := m.shared.(events := m.shared.events + [EventOf(st.who, st.o)])), id, Published(st.who, st.o))
  }

  function DoReportIncr(m: Machine, p: Principal, id: Id, clock: Clock): Machine {
    m.(shared := Counted(m.shared, p, clock),
       cleared := if RpmAllows(m.shared, p, clock) then m.cleared + {Clearance(p, id)} else m.cleared)
  }

  function Next(m: Machine, step: Step): Machine {
    match step.act
    case Begin(id, p, request, key) => DoBegin(m, id, p, request, key)
    case Incr(id) => DoIncr(m, id, step.clock)
    case ReadBudget(id, policyFound) => DoReadBudget(m, id, policyFound, step.clock.day)
    case Sadd(id) => DoSadd(m, id)
    case Scard(id) => DoScard(m, id)
    case Srem(id) => DoSrem(m, id)
    case Insert(id, policyId, result) => DoInsert(m, id, policyId, result)
    case ReportIncr(p, id) => DoReportIncr(m, p, id, step.clock)
    case Commit(p, o, key) => DoCommit(m, p, o, key)
    case IncrSpend(id) => DoIncrSpend(m, id, step.clock.day)
    case Xadd(id) => DoXadd(m, id)
  }

  /** The machine after a sequence of steps from the empty start. */
  function RunSteps(steps: seq<Step>): Machine {
    if steps == [] then START else Next(RunSteps(steps[..|steps| - 1]), steps[|steps| - 1])
  }

  /** All steps read one clock, which never goes back. */
  ghost predicate ClockedSteps(steps: seq<Step>) {
    && (forall step :: step in steps ==> step.clock.Consistent())
    && (forall i, j :: 0 <= i < j < |steps| ==> steps[i].clock.seconds <= steps[j].clock.seconds)
  }

  /** The machine after further steps. */
  function Continue(m: Machine, steps: seq<Step>): Machine
    decreases |steps|
  {
    if steps == [] then m else Continue(Next(m, steps[0]), steps[1..])
  }

  lemma {:induction false} ContinueRuns(before: seq<Step>, steps: seq<Step>)
    ensures Continue(RunSteps(before), steps) == RunSteps(before + steps)
    decreases |steps|
  {
    hide Next;
    if steps == [] {
      assert before + steps == before;
    } else {
      var longer := before + [steps[0]];
      assert longer[..|before|] == before;
      assert RunSteps(longer) == Next(RunSteps(before), steps[0]);
      ContinueRuns(longer, steps[1..]);
      assert longer + steps[1..] == before + steps;
    }
  }

  // ----- the id a step is about, and the ids in a class of stages

  function Subject(a: Act): Option<Id> {
    match a
    case Begin(id, _, _, _) => Some(id)
    case Incr(id) => Some(id)
    case ReadBudget(id, _) => Some(id)
    case Sadd(id) => Some(id)
    case Scard(id) => Some(id)
    case Srem(id) => Some(id)
    case Insert(id, _, _) => Some(id)
    case ReportIncr(_, _) => None
    case Commit(_, o, _) => Some(o.decisionId)
    case IncrSpend(id) => Some(id)
    case Xadd(id) => Some(id)
  }

  datatype Class =
    | Occupying   // in the slot set
    | Passed      // passed the SCARD check and not released
    | Exposed     // may still be charged, or has been committed and not charged
    | Waiting     // exposed without a slot of its own that was checked: before SCARD, or after SREM
    | Kept        // exposed and past SCARD
    | Paid        // charged
    | Announced   // published

  predicate InClass(c: Class, s: Stage) {
    match c
    case Occupying => s.Added? || s.Rejecting? || s.Holding? || s.Aborting? || s.InTable? || s.Committed?
    case Passed => s.Holding? || s.Aborting? || s.InTable? || s.Committed?
    case Exposed => s.Checked? || s.Added? || s.Holding? || s.InTable? || s.Committed? || s.Released?
    case Waiting => s.Checked? || s.Added? || s.Released?
    case Kept => s.Holding? || s.InTable? || s.Committed? || s.Released?
    case Paid => s.Charged? || s.Published?
    case Announced => s.Published?
  }

  predicate Stores(s: Stage) { s.InTable? || HasOutcome(s) }

  predicate HasOutcome(s: Stage) { s.Committed? || s.Released? || s.Charged? || s.Published? }

  /** What the flight may cost: its outcome's cost once there is one, what is set aside for its limit before. */
  function Amount(f: Flight, reserve: real -> real): real {
    if HasOutcome(f.stage) then f.stage.o.finalCostUsd else reserve(f.request.budgetLimitUsd)
  }

  /** The limit itself. */
  function AtLimit(limit: real): real { limit }

  function Ids(m: Machine, k: Owner, c: Class): set<Id> {
    set id | id in m.flights && m.flights[id].p.Key() == k && InClass(c, m.flights[id].stage)
  }

  ghost function Amounts(m: Machine, k: Owner, c: Class, reserve: real -> real): map<Id, real> {
    map id | id in Ids(m, k, c) :: Amount(m.flights[id], reserve)
  }

  /** The life of a decision id. */
  predicate Follows(a: Stage, b: Stage) {
    match a
    case Looked => b.Admitted? || b.Dropped?
    case Admitted => b.Checked? || b.Dropped?
    case Checked => b.Added?
    case Added => b.Rejecting? || b.Holding?
    case Rejecting => b.Dropped?
    case Holding => b.InTable? || b.Aborting?
    case Aborting => b.Dropped?
    case Dropped => false
    case InTable => b.Committed?
    case Committed(who, o) => b == Released(who, o)
    case Released(who, o) => b == Charged(who, o)
    case Charged(who, o) => b == Published(who, o)
    case Published(_, _) => false
  }

  /** What a step does to the flights: nothing, a new one, or one move of its subject along its life. */
  ghost predicate Moves(m: Machine, t: Machine, id: Id) {
    || t.flights == m.flights
    || (id !in m.flights && id in t.flights && t.flights[id].stage == Looked
        && t.flights == m.flights[id := t.flights[id]])
    || (&& id in m.flights && id in t.flights && Follows(m.flights[id].stage, t.flights[id].stage)
        && t.flights == m.flights[id := m.flights[id].(stage := t.flights[id].stage)])
  }

  lemma CreateMoves(m: Machine, id: Id, clock: Clock, policyFound: bool, day: int)
    ensures Moves(m, DoIncr(m, id, clock), id) && Moves(m, DoReadBudget(m, id, policyFound, day), id)
    ensures Moves(m, DoSadd(m, id), id) && Moves(m, DoScard(m, id), id)
  {
    hide RpmAllows, WithinDailyBudget, AddSlot, Held, CountHit;
  }

  lemma RestMoves(m: Machine, id: Id, day: int, policyId: string, result: Result<Decision, PricingEngine.EngineError>)
    ensures Moves(m, DoSrem(m, id), id) && Moves(m, DoInsert(m, id, policyId, result), id)
    ensures Moves(m, DoIncrSpend(m, id, day), id) && Moves(m, DoXadd(m, id), id)
  {
    hide DropSlot, AddSpend, EventOf, Stored, Insertable;
  }

  lemma BeginMoves(m: Machine, id: Id, p: Principal, request: DecisionRequest, key: Option<string>)
    ensures Moves(m, DoBegin(m, id, p, request, key), id)
  {
    hide Lookup;
  }

  lemma CommitMoves(m: Machine, p: Principal, o: Outcome, key: Option<string>)
    ensures Moves(m, DoCommit(m, p, o, key), o.decisionId)
  {
    hide CompletedRecord;
  }

  lemma StepMoves(m: Machine, step: Step)
    ensures Moves(m, Next(m, step), Subject(step.act).GetOr(""))
  {
    hide Moves, DoBegin, DoIncr, DoReadBudget, DoSadd, DoScard, DoSrem, DoInsert, DoCommit, DoIncrSpend, DoXadd;
    match step.act
    case Begin(id, p, request, key) => BeginMoves(m, id, p, request, key);
    case Incr(id) => CreateMoves(m, id, step.clock, false, step.clock.day);
    case ReadBudget(id, policyFound) => CreateMoves(m, id, step.clock, policyFound, step.clock.day);
    case Sadd(id) => CreateMoves(m, id, step.clock, false, step.clock.day);
    case Scard(id) => CreateMoves(m, id, step.clock, false, step.clock.day);
    case Insert(id, policyId, result) => RestMoves(m, id, step.clock.day, policyId, result);
    case ReportIncr(p, id) => StillFlights(m, DoReportIncr(m, p, id, step.clock));
    case Commit(p, o, key) => CommitMoves(m, p, o, key);
    case Srem(id) => RestMoves(m, id, step.clock.day, "", Err(PricingEngine.NoSurvivors));
    case IncrSpend(id) => RestMoves(m, id, step.clock.day, "", Err(PricingEngine.NoSurvivors));
    case Xadd(id) => RestMoves(m, id, step.clock.day, "", Err(PricingEngine.NoSurvivors));
  }

  lemma StillFlights(m: Machine, t: Machine)
    requires t.flights == m.flights
    ensures Moves(m, t, "")
  {
  }

  ghost predicate SameMoney(m: Machine, t: Machine) {
    t.shared.spend == m.shared.spend && t.shared.events == m.shared.events
  }

  lemma CreateTouches(m: Machine, id: Id, clock: Clock, policyFound: bool, day: int)
    ensures SameMoney(m, DoIncr(m, id, clock)) && DoIncr(m, id, clock).shared.slots == m.shared.slots
    ensures DoReadBudget(m, id, policyFound, day).shared == m.shared && DoScard(m, id).shared == m.shared
    ensures SameMoney(m, DoSadd(m, id))
  {
    hide RpmAllows, WithinDailyBudget, AddSlot, Held, CountHit;
  }

  lemma RestTouches(m: Machine, id: Id, day: int)
    ensures SameMoney(m, DoSrem(m, id))
    ensures DoIncrSpend(m, id, day).shared == m.shared.(spend := DoIncrSpend(m, id, day).shared.spend)
    ensures DoXadd(m, id).shared == m.shared.(events := DoXadd(m, id).shared.events)
  {
    hide DropSlot, AddSpend, EventOf;
  }

  lemma InsertTouches(m: Machine, id: Id, policyId: string, result: Result<Decision, PricingEngine.EngineError>)
    ensures SameMoney(m, DoInsert(m, id, policyId, result))
            && DoInsert(m, id, policyId, result).shared.slots == m.shared.slots
  {
    hide Insertable, Indexed, NewRecord;
  }

  lemma BeginTouches(m: Machine, id: Id, p: Principal, request: DecisionRequest, key: Option<string>)
    ensures DoBegin(m, id, p, request, key).shared == m.shared
  {
    hide Lookup;
  }

  lemma CommitTouches(m: Machine, p: Principal, o: Outcome, key: Option<string>)
    ensures SameMoney(m, DoCommit(m, p, o, key)) && DoCommit(m, p, o, key).shared.slots == m.shared.slots
  {
    hide CompletedRecord;
  }

  /** Which steps touch which of the quota and event keys. */
  lemma StepTouches(m: Machine, step: Step)
    ensures !step.act.Sadd? && !step.act.Srem? ==> Next(m, step).shared.slots == m.shared.slots
    ensures !step.act.IncrSpend? ==> Next(m, step).shared.spend == m.shared.spend
    ensures !step.act.Xadd? ==> Next(m, step).shared.events == m.shared.events
  {
    hide DoBegin, DoIncr, DoReadBudget, DoSadd, DoScard, DoSrem, DoInsert, DoCommit, DoIncrSpend, DoXadd, CountHit;
    match step.act
    case Begin(id, p, request, key) => BeginTouches(m, id, p, request, key);
    case Incr(id) => CreateTouches(m, id, step.clock, false, step.clock.day);
    case ReadBudget(id, policyFound) => CreateTouches(m, id, step.clock, policyFound, step.clock.day);
    case Sadd(id) => CreateTouches(m, id, step.clock, false, step.clock.day);
    case Scard(id) => CreateTouches(m, id, step.clock, false, step.clock.day);
    case Insert(id, policyId, result) => InsertTouches(m, id, policyId, result);
    case ReportIncr(p, id) =>
    case Commit(p, o, key) => CommitTouches(m, p, o, key);
    case Srem(id) => RestTouches(m, id, step.clock.day);
    case IncrSpend(id) => RestTouches(m, id, step.clock.day);
    case Xadd(id) => RestTouches(m, id, step.clock.day);
  }

  /** What moving one flight does to a class. */
  lemma ClassMoves(m: Machine, t: Machine, id: Id, f: Flight, k: Owner, c: Class, reserve: real -> real)
    requires t.flights == m.flights[id := f]
    ensures var ids := Ids(m, k, c) - {id};
            Ids(t, k, c) == if f.p.Key() == k && InClass(c, f.stage) then ids + {id} else ids
    ensures Amounts(t, k, c, reserve)
            == if f.p.Key() == k && InClass(c, f.stage) then Amounts(m, k, c, reserve)[id := Amount(f, reserve)]
               else Amounts(m, k, c, reserve) - {id}
  {
    hide InClass, Amount, Amounts;
    ClassIds(m, t, id, f, k, c);
    ClassAmounts(m, t, id, f, k, c, reserve);
  }

  lemma ClassIds(m: Machine, t: Machine, id: Id, f: Flight, k: Owner, c: Class)
    requires t.flights == m.flights[id := f]
    ensures var ids := Ids(m, k, c) - {id};
            Ids(t, k, c) == if f.p.Key() == k && InClass(c, f.stage) then ids + {id} else ids
  {
    hide InClass;
  }

  lemma ClassAmounts(m: Machine, t: Machine, id: Id, f: Flight, k: Owner, c: Class, reserve: real -> real)
    requires t.flights == m.flights[id := f]
    requires var ids := Ids(m, k, c) - {id};
             Ids(t, k, c) == if f.p.Key() == k && InClass(c, f.stage) then ids + {id} else ids
    ensures Amounts(t, k, c, reserve)
            == if f.p.Key() == k && InClass(c, f.stage) then Amounts(m, k, c, reserve)[id := Amount(f, reserve)]
               else Amounts(m, k, c, reserve) - {id}
  {
    hide InClass, Amount, Amounts, Ids;
    AmountsAt(m, k, c, reserve);
    AmountsAt(t, k, c, reserve);
  }

  lemma AmountsAt(m: Machine, k: Owner, c: Class, reserve: real -> real)
    ensures Amounts(m, k, c, reserve).Keys == Ids(m, k, c)
    ensures forall id :: id in Ids(m, k, c) ==>
              id in m.flights && Amounts(m, k, c, reserve)[id] == Amount(m.flights[id], reserve)
  {
    hide InClass, Amount;
  }

  // ----- coherence of table and flights

  ghost predicate FlightCoherent(m: Machine, id: Id)
    requires id in m.flights
  {
    var f, s := m.flights[id], m.shared;
    && (Stores(f.stage) <==> id in s.decisions)
    && (id in s.decisions ==>
          && s.decisions[id].agentId == f.p.agentId && s.decisions[id].request == f.request
          && s.decisions[id].idempotencyKey == f.key && s.decisions[id].response.decisionId == id
          && (f.stage.InTable? <==> s.decisions[id].outcome.None?))
    && (HasOutcome(f.stage) ==>
          && f.stage.o.decisionId == id && f.stage.who.agentId == f.p.agentId
          && s.decisions[id].outcome == Some(OutcomeResponse(id, Recorded, f.stage.o.finalStatus,
                                                             |f.stage.o.attempts|, f.stage.o.fallbackDepth))
          && id in s.attemptRows && s.attemptRows[id] == f.stage.o.attempts)
  }

  ghost predicate Coherent(m: Machine) {
    && (forall id :: id in m.flights ==> FlightCoherent(m, id))
    && (forall id :: id in m.shared.decisions ==> id in m.flights)
    && IndexConsistent(m.shared)
  }

  /** The tables, as far as coherence reads them. */
  ghost predicate SameTables(s: State, t: State) {
    t.decisions == s.decisions && t.index == s.index && t.attemptRows == s.attemptRows
  }

  lemma MoveKeepsCoherence(m: Machine, t: Machine, id: Id, f: Flight)
    requires Coherent(m) && SameTables(m.shared, t.shared) && t.flights == m.flights[id := f]
    requires FlightCoherent(t, id)
    ensures Coherent(t)
  {
    forall other | other in t.flights
      ensures FlightCoherent(t, other)
    {
      assert other != id ==> FlightCoherent(m, other);
    }
    assert IndexConsistent(t.shared);
    hide IndexConsistent, FlightCoherent;
  }

  /** A new decision is coherent with its flight, and conflicts with no other flight. */
  lemma InsertedCoherent(m: Machine, id: Id, policyId: string, d: Decision, other: Id)
    requires Coherent(m) && At(m, id, Holding)
    requires Insertable(m.shared.decisions, m.shared.index, m.flights[id].p.agentId, id, m.flights[id].key)
    requires other in m.flights
    ensures FlightCoherent(DoInsert(m, id, policyId, Result.Ok(d)), other)
  {
    hide IndexConsistent, Indexed;
    assert FlightCoherent(m, other);
    hide Coherent;
  }

  lemma InsertedIndex(m: Machine, id: Id, policyId: string, d: Decision)
    requires IndexConsistent(m.shared) && At(m, id, Holding)
    requires Insertable(m.shared.decisions, m.shared.index, m.flights[id].p.agentId, id, m.flights[id].key)
    ensures IndexConsistent(DoInsert(m, id, policyId, Result.Ok(d)).shared)
  {
  }

  lemma InsertKeepsCoherence(m: Machine, id: Id, policyId: string, result: Result<Decision, PricingEngine.EngineError>)
    requires Coherent(m)
    ensures Coherent(DoInsert(m, id, policyId, result))
  {
    hide FlightCoherent, IndexConsistent, Indexed, NewRecord, Insertable;
    var t := DoInsert(m, id, policyId, result);
    if At(m, id, Holding) {
      var f := m.flights[id];
      if result.Ok? && Insertable(m.shared.decisions, m.shared.index, f.p.agentId, id, f.key) {
        forall other | other in t.flights
          ensures FlightCoherent(t, other)
        {
          InsertedCoherent(m, id, policyId, result.value, other);
        }
        InsertedIndex(m, id, policyId, result.value);
      } else {
        AbortCoherent(m, id);
        MoveKeepsCoherence(m, t, id, t.flights[id]);
      }
    }
  }

  lemma AbortCoherent(m: Machine, id: Id)
    requires Coherent(m) && At(m, id, Holding)
    ensures FlightCoherent(Move(m, id, Aborting), id)
  {
    assert FlightCoherent(m, id);
    hide IndexConsistent, Coherent;
  }

  lemma CommittedCoherent(m: Machine, p: Principal, o: Outcome, key: Option<string>, other: Id)
    requires Coherent(m) && Commits(m, p, o) && other in m.flights
    ensures FlightCoherent(DoCommit(m, p, o, key), other)
  {
    hide IndexConsistent;
    assert FlightCoherent(m, other);
    hide Coherent;
  }

  lemma CommittedIndex(m: Machine, p: Principal, o: Outcome, key: Option<string>)
    requires IndexConsistent(m.shared) && Commits(m, p, o)
    ensures IndexConsistent(DoCommit(m, p, o, key).shared)
  {
    hide RecordedResponse;
  }

  lemma CommitKeepsCoherence(m: Machine, p: Principal, o: Outcome, key: Option<string>)
    requires Coherent(m)
    ensures Coherent(DoCommit(m, p, o, key))
  {
    hide FlightCoherent, IndexConsistent, CompletedRecord, Commits;
    var t := DoCommit(m, p, o, key);
    if Commits(m, p, o) {
      CommitsHere(m, p, o);
      forall other | other in t.flights
        ensures FlightCoherent(t, other)
      {
        CommittedCoherent(m, p, o, key, other);
      }
      CommittedIndex(m, p, o, key);
    }
  }

  lemma CommitsHere(m: Machine, p: Principal, o: Outcome)
    requires Commits(m, p, o)
    ensures o.decisionId in m.shared.decisions && At(m, o.decisionId, InTable)
  {
  }

  /** Two stages of which coherence demands the same. */
  predicate Compatible(a: Stage, b: Stage) {
    && Stores(a) == Stores(b) && a.InTable? == b.InTable? && HasOutcome(a) == HasOutcome(b)
    && (HasOutcome(a) ==> a.who == b.who && a.o == b.o)
  }

  ghost predicate QuietMove(m: Machine, t: Machine, id: Id) {
    && SameTables(m.shared, t.shared)
    && (t.flights == m.flights
        || (&& id in m.flights && id in t.flights
            && t.flights == m.flights[id := m.flights[id].(stage := t.flights[id].stage)]
            && Compatible(m.flights[id].stage, t.flights[id].stage)))
  }

  lemma AdmissionMovesQuietly(m: Machine, id: Id, clock: Clock, policyFound: bool, day: int)
    ensures QuietMove(m, DoIncr(m, id, clock), id) && QuietMove(m, DoReadBudget(m, id, policyFound, day), id)
  {
    hide RpmAllows, WithinDailyBudget, CountHit;
  }

  lemma ReservationMovesQuietly(m: Machine, id: Id)
    ensures QuietMove(m, DoSadd(m, id), id) && QuietMove(m, DoScard(m, id), id)
  {
    hide AddSlot, Held;
  }

  lemma RestMovesQuietly(m: Machine, id: Id, day: int)
    ensures QuietMove(m, DoSrem(m, id), id)
    ensures QuietMove(m, DoIncrSpend(m, id, day), id) && QuietMove(m, DoXadd(m, id), id)
  {
    hide DropSlot, AddSpend, EventOf;
  }

  ghost predicate OnlyBegins(m: Machine, t: Machine, step: Step) {
    && step.act.Begin? && step.act.id !in m.flights && SameTables(m.shared, t.shared)
    && t.flights == m.flights[step.act.id := Flight(step.act.p, step.act.request, step.act.key, Looked)]
  }

  lemma BeginsQuietly(m: Machine, step: Step)
    requires step.act.Begin?
    ensures Next(m, step) == m || OnlyBegins(m, Next(m, step), step)
  {
    hide Lookup;
  }

  lemma NothingMoves(m: Machine, t: Machine, id: Id)
    requires t.flights == m.flights && SameTables(m.shared, t.shared)
    ensures QuietMove(m, t, id)
  {
  }

  /** All steps but insert and commit leave the tables alone and move their subject between compatible stages. */
  lemma QuietStep(m: Machine, step: Step)
    requires !step.act.Insert? && !step.act.Commit?
    ensures QuietMove(m, Next(m, step), Subject(step.act).GetOr("")) || OnlyBegins(m, Next(m, step), step)
  {
    hide QuietMove, OnlyBegins, DoIncr, DoReadBudget, DoSadd, DoScard, DoSrem, DoIncrSpend, DoXadd, DoBegin, CountHit;
    match step.act
    case Begin(id, p, request, key) =>
      BeginsQuietly(m, step);
      NothingMoves(m, m, id);
    case Incr(id) => AdmissionMovesQuietly(m, id, step.clock, false, step.clock.day);
    case ReadBudget(id, policyFound) => AdmissionMovesQuietly(m, id, step.clock, policyFound, step.clock.day);
    case Sadd(id) => ReservationMovesQuietly(m, id);
    case Scard(id) => ReservationMovesQuietly(m, id);
    case ReportIncr(p, id) => NothingMoves(m, Next(m, step), "");
    case Srem(id) => RestMovesQuietly(m, id, step.clock.day);
    case IncrSpend(id) => RestMovesQuietly(m, id, step.clock.day);
    case Xadd(id) => RestMovesQuietly(m, id, step.clock.day);
  }

  lemma CompatibleCoherent(m: Machine, t: Machine, id: Id, stage: Stage)
    requires id in m.flights && FlightCoherent(m, id) && SameTables(m.shared, t.shared)
    requires id in t.flights && t.flights[id] == m.flights[id].(stage := stage)
             && Compatible(m.flights[id].stage, stage)
    ensures FlightCoherent(t, id)
  {
  }

  lemma QuietKeepsCoherence(m: Machine, t: Machine, id: Id)
    requires Coherent(m) && QuietMove(m, t, id)
    ensures Coherent(t)
  {
    hide Compatible, FlightCoherent, IndexConsistent;
    if t.flights == m.flights {
      SameTablesIndex(m, t);
      forall other | other in t.flights
        ensures FlightCoherent(t, other)
      {
        SameFlightCoherent(m, t, other);
      }
    } else {
      CompatibleCoherent(m, t, id, t.flights[id].stage);
      MoveKeepsCoherence(m, t, id, t.flights[id]);
    }
  }

  lemma SameTablesIndex(m: Machine, t: Machine)
    requires SameTables(m.shared, t.shared) && IndexConsistent(m.shared)
    ensures IndexConsistent(t.shared)
  {
  }

  lemma SameFlightCoherent(m: Machine, t: Machine, id: Id)
    requires t.flights == m.flights && SameTables(m.shared, t.shared) && id in m.flights && FlightCoherent(m, id)
    ensures FlightCoherent(t, id)
  {
  }

  lemma BeginKeepsCoherence(m: Machine, t: Machine, step: Step)
    requires Coherent(m) && OnlyBegins(m, t, step)
    ensures Coherent(t)
  {
    assert step.act.id !in m.shared.decisions;
    hide Coherent, IndexConsistent;
    MoveKeepsCoherence(m, t, step.act.id, t.flights[step.act.id]);
  }

  lemma CoherentStep(m: Machine, step: Step)
    requires Coherent(m)
    ensures Coherent(Next(m, step))
  {
    hide Coherent, QuietMove, OnlyBegins, DoInsert, DoCommit;
    if step.act.Insert? {
      InsertKeepsCoherence(m, step.act.id, step.act.policyId, step.act.result);
    } else if step.act.Commit? {
      CommitKeepsCoherence(m, step.act.p, step.act.o, step.act.key);
    } else {
      QuietStep(m, step);
      hide Next;
      if OnlyBegins(m, Next(m, step), step) {
        BeginKeepsCoherence(m, Next(m, step), step);
      } else {
        QuietKeepsCoherence(m, Next(m, step), Subject(step.act).GetOr(""));
      }
    }
  }

  lemma {:induction false} ReachableCoherent(steps: seq<Step>)
    ensures Coherent(RunSteps(steps))
  {
    if steps != [] {
      ReachableCoherent(steps[..|steps| - 1]);
      CoherentStep(RunSteps(steps[..|steps| - 1]), steps[|steps| - 1]);
    }
  }
}
