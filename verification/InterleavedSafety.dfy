/** Slot safety, slot accounting, idempotency and exactly-once settlement under every interleaving. */
module InterleavedSafety {
  import opened Wrappers
  import opened Schemas
  import PricingEngine
  import opened Protocol
  import opened Sums
  import opened AtomicRuns
  import opened Interleaving

  /** The agent has one credential: whoever acts under its id is `p`. */
  ghost predicate OneCredential(p: Principal, steps: seq<Step>) {
    forall step :: step in steps ==> LoyalStep(p, step)
  }

  ghost predicate LoyalStep(p: Principal, step: Step) {
    && (step.act.Begin? && step.act.p.agentId == p.agentId ==> step.act.p == p)
    && (step.act.Commit? && step.act.p.agentId == p.agentId ==> step.act.p == p)
  }

  ghost predicate Mine(p: Principal, m: Machine) {
    forall id :: id in m.flights && m.flights[id].p.agentId == p.agentId ==>
      m.flights[id].p == p && (HasOutcome(m.flights[id].stage) ==> m.flights[id].stage.who == p)
  }

  lemma MineCommit(p: Principal, m: Machine, who: Principal, o: Outcome, key: Option<string>)
    requires Mine(p, m) && Coherent(m) && (who.agentId == p.agentId ==> who == p)
    ensures Mine(p, DoCommit(m, who, o, key))
  {
    hide IndexConsistent, CompletedRecord, RecordedResponse, Stores, HasOutcome;
    if Commits(m, who, o) {
      assert FlightCoherent(m, o.decisionId);
    }
  }

  lemma MineInsert(p: Principal, m: Machine, id: Id, policyId: string,
                   result: Result<Decision, PricingEngine.EngineError>)
    requires Mine(p, m)
    ensures Mine(p, DoInsert(m, id, policyId, result))
  {
    hide Insertable, Stored;
  }

  lemma MineQuiet(p: Principal, m: Machine, t: Machine, id: Id)
    requires Mine(p, m) && QuietMove(m, t, id)
    ensures Mine(p, t)
  {
    hide SameTables, Stores;
  }

  lemma MineBegin(p: Principal, m: Machine, id: Id, who: Principal, request: DecisionRequest, key: Option<string>)
    requires Mine(p, m) && (who.agentId == p.agentId ==> who == p)
    ensures Mine(p, DoBegin(m, id, who, request, key))
  {
    hide Lookup;
  }

  lemma MineStep(p: Principal, m: Machine, step: Step)
    requires Mine(p, m) && Coherent(m) && LoyalStep(p, step)
    ensures Mine(p, Next(m, step))
  {
    hide Coherent, Mine, DoBegin, DoCommit, DoInsert, QuietMove;
    if step.act.Commit? {
      MineCommit(p, m, step.act.p, step.act.o, step.act.key);
    } else if step.act.Insert? {
      MineInsert(p, m, step.act.id, step.act.policyId, step.act.result);
    } else if step.act.Begin? {
      MineBegin(p, m, step.act.id, step.act.p, step.act.request, step.act.key);
    } else {
      QuietStep(m, step);
      hide Next;
      MineQuiet(p, m, Next(m, step), Subject(step.act).GetOr(""));
    }
  }

  // ----- slots

  /** The slot set is exactly the ids that were added and neither removed nor released. */
  ghost predicate SlotsAre(p: Principal, m: Machine) {
    Held(m.shared.slots, p.Key()) == Ids(m, p.Key(), Occupying)
  }

  ghost predicate SlotSafe(p: Principal, m: Machine) {
    |Ids(m, p.Key(), Passed)| <= p.concurrentLimit
  }

  /** Classes of a subject that keeps its class do not change. */
  lemma ClassStays(m: Machine, t: Machine, id: Id, k: Owner, c: Class)
    requires t.flights == m.flights || (id in t.flights && t.flights == m.flights[id := t.flights[id]])
    requires id in m.flights && id in t.flights ==> t.flights[id].p == m.flights[id].p
    requires id in m.flights && id in t.flights ==> InClass(c, t.flights[id].stage) == InClass(c, m.flights[id].stage)
    requires id !in m.flights && id in t.flights ==> !InClass(c, t.flights[id].stage)
    ensures Ids(t, k, c) == Ids(m, k, c)
  {
    hide InClass;
  }

  lemma SaddFacts(p: Principal, m: Machine, id: Id)
    requires Mine(p, m) && At(m, id, Checked)
    ensures var (t, f) := (DoSadd(m, id), m.flights[id]);
            && t.flights == m.flights[id := f.(stage := Added)]
            && Held(t.shared.slots, p.Key()) == if f.p.Key() == p.Key() then Held(m.shared.slots, p.Key()) + {id}
                                                else Held(m.shared.slots, p.Key())
  {
  }

  lemma SaddKeepsSlots(p: Principal, m: Machine, id: Id)
    requires Mine(p, m) && SlotsAre(p, m) && SlotSafe(p, m)
    ensures SlotsAre(p, DoSadd(m, id)) && SlotSafe(p, DoSadd(m, id))
  {
    hide Held, Mine, Ids, AddSlot;
    var t := DoSadd(m, id);
    if At(m, id, Checked) {
      SaddFacts(p, m, id);
      hide DoSadd;
      ClassStays(m, t, id, p.Key(), Passed);
      ClassMoves(m, t, id, t.flights[id], p.Key(), Occupying, AtLimit);
      IdsHold(m, p.Key(), Occupying, id);
    }
  }

  lemma IdsHold(m: Machine, k: Owner, c: Class, id: Id)
    ensures id in Ids(m, k, c) <==> id in m.flights && m.flights[id].p.Key() == k && InClass(c, m.flights[id].stage)
  {
  }

  lemma ScardFacts(p: Principal, m: Machine, id: Id)
    requires Mine(p, m) && At(m, id, Added)
    ensures var (t, f) := (DoScard(m, id), m.flights[id]);
            && t.shared == m.shared
            && (t.flights == m.flights[id := f.(stage := Holding)]
                || t.flights == m.flights[id := f.(stage := Rejecting)])
            && (f.p.Key() == p.Key() && t.flights[id].stage == Holding ==>
                |Held(m.shared.slots, p.Key())| <= p.concurrentLimit)
  {
    hide Held;
  }

  lemma PassedAreOccupying(m: Machine, k: Owner)
    ensures Ids(m, k, Passed) <= Ids(m, k, Occupying)
  {
  }

  lemma ForeignMove(m: Machine, t: Machine, id: Id, k: Owner, c: Class)
    requires id in m.flights && id in t.flights
             && t.flights == m.flights[id := m.flights[id].(stage := t.flights[id].stage)]
    requires m.flights[id].p.Key() != k
    ensures Ids(t, k, c) == Ids(m, k, c)
  {
    hide InClass;
  }

  /** The check that makes adding and counting safe as separate steps: the count includes everyone who passed. */
  lemma ScardKeepsSlots(p: Principal, m: Machine, id: Id)
    requires Mine(p, m) && SlotsAre(p, m) && SlotSafe(p, m)
    ensures SlotsAre(p, DoScard(m, id)) && SlotSafe(p, DoScard(m, id))
  {
    hide Held, Mine, Ids, DoScard;
    if At(m, id, Added) {
      ScardFacts(p, m, id);
      ScardCounts(p, m, DoScard(m, id), id);
    } else {
      ScardIdle(m, id);
    }
  }

  lemma ScardIdle(m: Machine, id: Id)
    requires !At(m, id, Added)
    ensures DoScard(m, id) == m
  {
  }

  lemma ScardCounts(p: Principal, m: Machine, t: Machine, id: Id)
    requires SlotsAre(p, m) && SlotSafe(p, m) && At(m, id, Added)
    requires t.shared == m.shared
    requires t.flights == m.flights[id := m.flights[id].(stage := Holding)]
             || t.flights == m.flights[id := m.flights[id].(stage := Rejecting)]
    requires m.flights[id].p.Key() == p.Key() && t.flights[id].stage == Holding ==>
             |Held(m.shared.slots, p.Key())| <= p.concurrentLimit
    ensures SlotsAre(p, t) && SlotSafe(p, t)
  {
    hide Held, Ids;
    ClassStays(m, t, id, p.Key(), Occupying);
    if t.flights[id].stage == Rejecting {
      ClassStays(m, t, id, p.Key(), Passed);
    } else if m.flights[id].p.Key() != p.Key() {
      ForeignMove(m, t, id, p.Key(), Passed);
    } else {
      PassedAreOccupying(t, p.Key());
      SubsetSmaller(Ids(t, p.Key(), Passed), Ids(t, p.Key(), Occupying));
    }
  }

  lemma HeldAfterDrop(slots: map<Owner, set<Id>>, k: Owner, id: Id, o: Owner)
    ensures Held(DropSlot(slots, k, id), o) == if o == k then Held(slots, k) - {id} else Held(slots, o)
  {
  }

  /** SREM works on the set of the agent whose id it is. */
  lemma SremOwner(p: Principal, m: Machine, id: Id) returns (k: Owner)
    requires Mine(p, m) && Coherent(m) && DoSrem(m, id) != m
    ensures id in m.flights && InClass(Occupying, m.flights[id].stage)
    ensures k == p.Key() <==> m.flights[id].p.Key() == p.Key()
    ensures var t := DoSrem(m, id);
            && t.shared.slots == DropSlot(m.shared.slots, k, id)
            && id in t.flights && t.flights == m.flights[id := t.flights[id]] && t.flights[id].p == m.flights[id].p
            && !InClass(Occupying, t.flights[id].stage) && !InClass(Passed, t.flights[id].stage)
  {
    var f := m.flights[id];
    assert FlightCoherent(m, id);
    k := if f.stage.Committed? then f.stage.who.Key() else f.p.Key();
    hide DropSlot, Coherent;
  }

  lemma SremKeepsSlots(p: Principal, m: Machine, id: Id)
    requires Mine(p, m) && SlotsAre(p, m) && SlotSafe(p, m) && Coherent(m)
    ensures SlotsAre(p, DoSrem(m, id)) && SlotSafe(p, DoSrem(m, id))
  {
    var t := DoSrem(m, id);
    if t != m {
      var k := SremOwner(p, m, id);
      HeldAfterDrop(m.shared.slots, k, id, p.Key());
      hide DoSrem, DropSlot, Mine, Coherent, Held;
      ClassMoves(m, t, id, t.flights[id], p.Key(), Occupying, AtLimit);
      ClassMoves(m, t, id, t.flights[id], p.Key(), Passed, AtLimit);
      assert m.flights[id].p.Key() != p.Key() ==> id !in Ids(m, p.Key(), Occupying);
      SubsetSmaller(Ids(t, p.Key(), Passed), Ids(m, p.Key(), Passed));
    }
  }

  /** Every other step leaves the slot set and these two classes alone. */
  lemma OtherStepsKeepSlots(p: Principal, m: Machine, step: Step)
    requires SlotsAre(p, m) && SlotSafe(p, m)
    requires !step.act.Sadd? && !step.act.Scard? && !step.act.Srem?
    ensures SlotsAre(p, Next(m, step)) && SlotSafe(p, Next(m, step))
  {
    var t, id := Next(m, step), Subject(step.act).GetOr("");
    StepTouches(m, step);
    OtherStepsMove(m, step, Occupying);
    OtherStepsMove(m, step, Passed);
    hide Next, Ids, InClass;
    ClassStays(m, t, id, p.Key(), Occupying);
    ClassStays(m, t, id, p.Key(), Passed);
  }

  lemma OtherStepsMove(m: Machine, step: Step, c: Class)
    requires !step.act.Sadd? && !step.act.Scard? && !step.act.Srem? && (c == Occupying || c == Passed)
    ensures var (t, id) := (Next(m, step), Subject(step.act).GetOr(""));
            && (t.flights == m.flights || (id in t.flights && t.flights == m.flights[id := t.flights[id]]))
            && (id in m.flights && id in t.flights ==>
                  t.flights[id].p == m.flights[id].p
                    && InClass(c, t.flights[id].stage) == InClass(c, m.flights[id].stage))
            && (id !in m.flights && id in t.flights ==> !InClass(c, t.flights[id].stage))
  {
    hide Counted, RpmAllows, WithinDailyBudget, Held, Stored, Insertable, CompletedRecord, AddSpend, EventOf, Lookup;
  }

  lemma {:induction false} SlotsKept(p: Principal, steps: seq<Step>)
    requires OneCredential(p, steps) && p.Valid()
    ensures Mine(p, RunSteps(steps)) && SlotsAre(p, RunSteps(steps)) && SlotSafe(p, RunSteps(steps))
  {
    if steps == [] {
      assert Ids(START, p.Key(), Occupying) == {} && Ids(START, p.Key(), Passed) == {};
    } else {
      var front, step := steps[..|steps| - 1], steps[|steps| - 1];
      SlotsKept(p, front);
      ReachableCoherent(front);
      var m := RunSteps(front);
      MineStep(p, m, step);
      hide Mine, SlotsAre, SlotSafe, Coherent;
      if step.act.Sadd? { SaddKeepsSlots(p, m, step.act.id); }
      else if step.act.Scard? { ScardKeepsSlots(p, m, step.act.id); }
      else if step.act.Srem? { SremKeepsSlots(p, m, step.act.id); }
      else { OtherStepsKeepSlots(p, m, step); }
    }
  }

  /** However SADD, SCARD, SREM and releases interleave, at most `concurrentLimit` ids have passed the check and are
      not released; and so the agent never has more open decisions than that. */
  lemma SlotSafety(p: Principal, steps: seq<Step>)
    requires OneCredential(p, steps) && p.Valid()
    ensures |Ids(RunSteps(steps), p.Key(), Passed)| <= p.concurrentLimit
    ensures |OpenDecisions(RunSteps(steps), p.agentId)| <= p.concurrentLimit
  {
    SlotsKept(p, steps);
    ReachableCoherent(steps);
    var m := RunSteps(steps);
    forall d | d in OpenDecisions(m, p.agentId)
      ensures d in Ids(m, p.Key(), Passed)
    {
      assert FlightCoherent(m, d);
    }
    SubsetSmaller(OpenDecisions(m, p.agentId), Ids(m, p.Key(), Passed));
  }

  function OpenDecisions(m: Machine, agentId: string): set<Id> {
    set d | d in m.shared.decisions && m.shared.decisions[d].agentId == agentId && m.shared.decisions[d].outcome.None?
  }

  /** An open decision, a settled one not yet released, or a reservation in flight. */
  predicate HoldsSlot(m: Machine, id: Id)
    requires id in m.flights
  {
    var stage := m.flights[id].stage;
    || (id in m.shared.decisions && m.shared.decisions[id].outcome.None?)
    || (id in m.shared.decisions && stage.Committed?)
    || stage.Added? || stage.Rejecting? || stage.Holding? || stage.Aborting?
  }

  /** The agent's slot set is exactly the ids of its own that hold a slot. A create that has run to its refusal, be it
      by the count, the engine or the insert, has left neither slot nor decision; one whose next step never comes, say
      because EXPIRE or SCARD raises outside the `try`, stays in flight and keeps its slot. */
  lemma SlotAccounting(p: Principal, steps: seq<Step>)
    requires OneCredential(p, steps) && p.Valid()
    ensures var m := RunSteps(steps);
            && Held(m.shared.slots, p.Key())
               == set id | id in m.flights && m.flights[id].p.agentId == p.agentId && HoldsSlot(m, id)
            && forall id :: id in m.flights && m.flights[id].p.agentId == p.agentId && m.flights[id].stage.Dropped? ==>
                 id !in Held(m.shared.slots, p.Key()) && id !in m.shared.decisions
  {
    SlotsKept(p, steps);
    ReachableCoherent(steps);
    var m := RunSteps(steps);
    hide RunSteps, Held, OneCredential;
    forall id | id in m.flights
      ensures m.flights[id].p.agentId == p.agentId && HoldsSlot(m, id) <==> id in Ids(m, p.Key(), Occupying)
      ensures m.flights[id].stage.Dropped? ==> id !in m.shared.decisions && id !in Ids(m, p.Key(), Occupying)
    {
      SlotHolder(p, m, id);
    }
    hide HoldsSlot, Coherent, Mine;
    assert forall id :: id in Ids(m, p.Key(), Occupying) ==> id in m.flights;
  }

  lemma SlotHolder(p: Principal, m: Machine, id: Id)
    requires Mine(p, m) && Coherent(m) && id in m.flights
    ensures m.flights[id].p.agentId == p.agentId && HoldsSlot(m, id) <==> id in Ids(m, p.Key(), Occupying)
    ensures m.flights[id].stage.Dropped? ==> id !in m.shared.decisions && id !in Ids(m, p.Key(), Occupying)
  {
    assert FlightCoherent(m, id);
    IdsHold(m, p.Key(), Occupying, id);
    hide Coherent, IndexConsistent, Ids;
  }

  // ----- idempotency

  /** The insert race has one winner: whatever interleaves, at most one decision exists per agent and key. */
  lemma OneDecisionPerKeyInterleaved(steps: seq<Step>, d: Id, e: Id)
    requires d in RunSteps(steps).shared.decisions && e in RunSteps(steps).shared.decisions
    requires RunSteps(steps).shared.decisions[d].agentId == RunSteps(steps).shared.decisions[e].agentId
    requires RunSteps(steps).shared.decisions[d].idempotencyKey
             == RunSteps(steps).shared.decisions[e].idempotencyKey != None
    ensures d == e
  {
    ReachableCoherent(steps);
  }

  ghost predicate Keeps(s: State, t: State) {
    && (forall d :: d in s.decisions ==> d in t.decisions && t.decisions[d].response == s.decisions[d].response)
    && (forall d :: d in s.decisions && s.decisions[d].outcome.Some? ==>
          t.decisions[d] == s.decisions[d]
            && (d in s.attemptRows ==> d in t.attemptRows && t.attemptRows[d] == s.attemptRows[d]))
    && (forall k :: k in s.index ==> k in t.index && t.index[k] == s.index[k])
  }

  lemma InsertKeeps(m: Machine, id: Id, policyId: string, result: Result<Decision, PricingEngine.EngineError>)
    ensures Keeps(m.shared, DoInsert(m, id, policyId, result).shared)
  {
    hide NewRecord;
  }

  lemma CommitKeeps(m: Machine, p: Principal, o: Outcome, key: Option<string>)
    ensures Keeps(m.shared, DoCommit(m, p, o, key).shared)
  {
    hide RecordedResponse;
  }

  lemma TablesKeep(s: State, t: State)
    requires SameTables(s, t)
    ensures Keeps(s, t)
  {
  }

  lemma StepKeeps(m: Machine, step: Step)
    ensures Keeps(m.shared, Next(m, step).shared)
  {
    hide Keeps, DoInsert, DoCommit, Compatible, SameTables;
    if step.act.Insert? {
      InsertKeeps(m, step.act.id, step.act.policyId, step.act.result);
    } else if step.act.Commit? {
      CommitKeeps(m, step.act.p, step.act.o, step.act.key);
    } else {
      QuietStep(m, step);
      hide Next;
      TablesKeep(m.shared, Next(m, step).shared);
    }
  }

  lemma {:induction false} LaterKeeps(steps: seq<Step>, i: nat)
    requires i <= |steps|
    ensures Keeps(RunSteps(steps[..i]).shared, RunSteps(steps).shared)
  {
    if i == |steps| {
      assert steps[..i] == steps;
    } else {
      var front := steps[..|steps| - 1];
      assert front[..i] == steps[..i];
      LaterKeeps(front, i);
      StepKeeps(RunSteps(front), steps[|steps| - 1]);
    }
  }

  /** Once a decision is stored under a non-empty key, every later request with that key, whatever else has happened
      since, is answered with the stored response and takes no further step. */
  lemma ReplayInterleaved(steps: seq<Step>, i: nat, d: Id, retry: Step)
    requires i <= |steps| && d in RunSteps(steps[..i]).shared.decisions && retry.act.Begin?
    requires RunSteps(steps[..i]).shared.decisions[d].agentId == retry.act.p.agentId
    requires RunSteps(steps[..i]).shared.decisions[d].idempotencyKey == retry.act.key && retry.act.key.Some?
             && retry.act.key.value != ""
    ensures var m := RunSteps(steps);
            && Lookup(m.shared.decisions, m.shared.index, retry.act.p.agentId, retry.act.key)
               == Some(RunSteps(steps[..i]).shared.decisions[d].response)
            && Next(m, retry) == m
  {
    ReachableCoherent(steps[..i]);
    LaterKeeps(steps, i);
  }

  // ----- exactly-once settlement and conservation

  /** The costs of the agent's charged decisions, and of its published ones. */
  ghost function Paying(p: Principal, m: Machine): map<Id, real> { Amounts(m, p.Key(), Paid, AtLimit) }

  ghost function Announcing(p: Principal, m: Machine): map<Id, real> { Amounts(m, p.Key(), Announced, AtLimit) }

  /** Daily counters add up to the charged decisions, events to the published ones: each decision is in each sum at
      most once, with the cost of the one report that was committed. */
  ghost predicate Balanced(p: Principal, m: Machine) {
    && Sum(SpendOf(m.shared, p.agentId)) == Sum(Paying(p, m))
    && EventTotal(m.shared.events, p.agentId) == Sum(Announcing(p, m))
  }

  /** Moving one flight changes a sum over a class by what that flight contributes. */
  lemma SumMoves(m: Machine, t: Machine, id: Id, f: Flight, k: Owner, c: Class, reserve: real -> real)
    requires t.flights == m.flights[id := f]
    ensures Sum(Amounts(t, k, c, reserve))
            == Sum(Amounts(m, k, c, reserve)) - Contribution(m, id, k, c, reserve) + Contribution(t, id, k, c, reserve)
  {
    ClassMoves(m, t, id, f, k, c, reserve);
    hide InClass, Amount;
    var before, after := Amounts(m, k, c, reserve), Amounts(t, k, c, reserve);
    assert id in before <==> id in Ids(m, k, c);
    if id in before {
      SumRemove(before, id);
    }
    assert before - {id} == if id in before then before - {id} else before;
    if id in after {
      SumUpdate(before, id, Amount(f, reserve));
    }
  }

  ghost function Contribution(m: Machine, id: Id, k: Owner, c: Class, reserve: real -> real): real {
    if id in m.flights && m.flights[id].p.Key() == k && InClass(c, m.flights[id].stage) then
      Amount(m.flights[id], reserve)
    else 0.0
  }

  lemma IncrSpendFacts(p: Principal, m: Machine, id: Id, day: int) returns (k: DayKey)
    requires Mine(p, m) && Coherent(m) && DoIncrSpend(m, id, day) != m
    ensures id in m.flights && m.flights[id].stage.Released?
    ensures var (t, f) := (DoIncrSpend(m, id, day), m.flights[id]);
            && t.flights == m.flights[id := f.(stage := Charged(f.stage.who, f.stage.o))]
            && t.shared == m.shared.(spend := AddSpend(m.shared.spend, k, f.stage.o.finalCostUsd))
            && k.day == day && (k.owner.agentId == p.agentId <==> f.p.Key() == p.Key())
            && (k.owner.agentId == p.agentId ==> k.owner == p.Key())
  {
    assert FlightCoherent(m, id);
    k := DayKey(m.flights[id].stage.who.Key(), day);
    hide AddSpend, Coherent;
  }

  lemma ChargeBalances(p: Principal, m: Machine, t: Machine, id: Id, k: DayKey, who: Principal, o: Outcome)
    requires id in m.flights && m.flights[id].stage == Released(who, o)
    requires t.flights == m.flights[id := m.flights[id].(stage := Charged(who, o))]
    requires t.shared.spend == AddSpend(m.shared.spend, k, o.finalCostUsd) && t.shared.events == m.shared.events
    requires k.owner.agentId == p.agentId <==> m.flights[id].p.Key() == p.Key()
    requires Balanced(p, m)
    ensures Balanced(p, t)
  {
    hide Amounts, AddSpend, EventTotal, Sum, SpendIn, Ids;
    var f := m.flights[id].(stage := Charged(who, o));
    SumMoves(m, t, id, f, p.Key(), Paid, AtLimit);
    SumMoves(m, t, id, f, p.Key(), Announced, AtLimit);
    SpendAfter(m.shared.spend, k, o.finalCostUsd, p.agentId);
  }

  lemma IncrSpendBalances(p: Principal, m: Machine, id: Id, day: int)
    requires Mine(p, m) && Coherent(m) && Balanced(p, m)
    ensures Balanced(p, DoIncrSpend(m, id, day))
  {
    var t := DoIncrSpend(m, id, day);
    hide Coherent, Mine, Balanced, FlightCoherent;
    if t != m {
      var k := IncrSpendFacts(p, m, id, day);
      hide DoIncrSpend;
      ChargeBalances(p, m, t, id, k, m.flights[id].stage.who, m.flights[id].stage.o);
    }
  }

  lemma XaddFacts(p: Principal, m: Machine, id: Id) returns (e: OutcomeEvent)
    requires Mine(p, m) && Coherent(m) && DoXadd(m, id) != m
    ensures id in m.flights && m.flights[id].stage.Charged?
    ensures var (t, f) := (DoXadd(m, id), m.flights[id]);
            && t.flights == m.flights[id := f.(stage := Published(f.stage.who, f.stage.o))]
            && t.shared == m.shared.(events := m.shared.events + [e])
            && e.finalCostUsd == f.stage.o.finalCostUsd && (e.agentId == p.agentId <==> f.p.Key() == p.Key())
  {
    assert FlightCoherent(m, id);
    e := EventOf(m.flights[id].stage.who, m.flights[id].stage.o);
    hide Coherent;
  }

  lemma OneEventMore(events: seq<OutcomeEvent>, e: OutcomeEvent, agentId: string)
    ensures EventTotal(events + [e], agentId)
            == EventTotal(events, agentId) + (if e.agentId == agentId then e.finalCostUsd else 0.0)
  {
    assert (events + [e])[..|events|] == events;
  }

  lemma XaddBalances(p: Principal, m: Machine, id: Id)
    requires Mine(p, m) && Coherent(m) && Balanced(p, m)
    ensures Balanced(p, DoXadd(m, id))
  {
    hide Coherent, Mine, Amounts, SpendIn, EventTotal, Sum, Ids;
    var t := DoXadd(m, id);
    if t != m {
      var e := XaddFacts(p, m, id);
      hide DoXadd;
      OneEventMore(m.shared.events, e, p.agentId);
      SumMoves(m, t, id, t.flights[id], p.Key(), Paid, AtLimit);
      SumMoves(m, t, id, t.flights[id], p.Key(), Announced, AtLimit);
    }
  }

  /** A flight that is not paid before or after a move that leaves counters and events alone is in neither sum. */
  lemma UnpaidMoveBalances(p: Principal, m: Machine, t: Machine, id: Id)
    requires Balanced(p, m) && t.shared.spend == m.shared.spend && t.shared.events == m.shared.events
    requires id in t.flights && t.flights == m.flights[id := t.flights[id]]
    requires !InClass(Paid, t.flights[id].stage) && (id in m.flights ==> !InClass(Paid, m.flights[id].stage))
    ensures Balanced(p, t)
  {
    hide Amounts, SpendIn, EventTotal, Sum, Ids, Amount;
    SumMoves(m, t, id, t.flights[id], p.Key(), Paid, AtLimit);
    SumMoves(m, t, id, t.flights[id], p.Key(), Announced, AtLimit);
  }

  /** Every other step leaves both sums alone. */
  lemma OtherStepsBalance(p: Principal, m: Machine, step: Step)
    requires !step.act.IncrSpend? && !step.act.Xadd? && Balanced(p, m)
    ensures Balanced(p, Next(m, step))
  {
    hide Next, Amounts, Follows, SpendIn, EventTotal, Sum, InClass, Amount;
    var t, id := Next(m, step), Subject(step.act).GetOr("");
    StepMoves(m, step);
    StepTouches(m, step);
    NotYetPaid(m, step);
    if t.flights != m.flights {
      hide Balanced;
      UnpaidMoveBalances(p, m, t, id);
    } else {
      SameFlights(m, t, p.Key(), Paid, AtLimit);
      SameFlights(m, t, p.Key(), Announced, AtLimit);
    }
  }

  lemma SameFlights(m: Machine, t: Machine, k: Owner, c: Class, reserve: real -> real)
    requires t.flights == m.flights
    ensures Ids(t, k, c) == Ids(m, k, c) && Amounts(t, k, c, reserve) == Amounts(m, k, c, reserve)
  {
  }

  lemma NotYetPaid(m: Machine, step: Step)
    requires !step.act.IncrSpend? && !step.act.Xadd?
    ensures var (t, id) := (Next(m, step), Subject(step.act).GetOr(""));
            || t.flights == m.flights
            || (&& id in t.flights && !InClass(Paid, t.flights[id].stage)
                && (id in m.flights ==> !InClass(Paid, m.flights[id].stage)))
  {
    hide Counted, RpmAllows, WithinDailyBudget, Held, Stored, Insertable, CompletedRecord, AddSlot, DropSlot, EventOf,
      Lookup;
  }

  lemma {:induction false} SpendConservedInterleaved(p: Principal, steps: seq<Step>)
    requires OneCredential(p, steps) && p.Valid()
    ensures Balanced(p, RunSteps(steps))
  {
    if steps == [] {
      assert SpendOf(EMPTY, p.agentId) == map[] && Paying(p, START) == map[] && Announcing(p, START) == map[];
    } else {
      var front, step := steps[..|steps| - 1], steps[|steps| - 1];
      SpendConservedInterleaved(p, front);
      SlotsKept(p, front);
      ReachableCoherent(front);
      var m := RunSteps(front);
      hide Mine, SlotsAre, SlotSafe, Coherent, Balanced;
      if step.act.IncrSpend? {
        IncrSpendBalances(p, m, step.act.id, step.clock.day);
      } else if step.act.Xadd? {
        XaddBalances(p, m, step.act.id);
      } else {
        OtherStepsBalance(p, m, step);
      }
    }
  }

  /** A committed outcome is final: no later step of any request replaces the stored outcome or its attempt rows. */
  lemma CommittedOnce(steps: seq<Step>, i: nat, d: Id)
    requires i <= |steps| && d in RunSteps(steps[..i]).shared.decisions
             && RunSteps(steps[..i]).shared.decisions[d].outcome.Some?
    ensures d in RunSteps(steps).shared.decisions && d in RunSteps(steps[..i]).shared.attemptRows
            && d in RunSteps(steps).shared.attemptRows
    ensures RunSteps(steps).shared.decisions[d] == RunSteps(steps[..i]).shared.decisions[d]
    ensures RunSteps(steps).shared.attemptRows[d] == RunSteps(steps[..i]).shared.attemptRows[d]
    ensures forall p: Principal, o: Outcome :: o.decisionId == d ==> !Commits(RunSteps(steps), p, o)
  {
    LaterKeeps(steps, i);
    ReachableCoherent(steps[..i]);
    assert FlightCoherent(RunSteps(steps[..i]), d);
  }
}
