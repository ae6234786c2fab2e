/**
 What becomes of the daily spend bound when the budget check, the reservation and the charge
 interleave: it grows with the number of requests that are between them at once, and holds
 unchanged when there is never more than one.
 */
module InterleavedSpend {
  import opened Wrappers
  import opened Schemas
  import PricingEngine
  import opened Protocol
  import opened Sums
  import opened AtomicRuns
  import opened Interleaving
  import opened InterleavedSafety

  function SpentOn(p: Principal, m: Machine, day: int): real { Spent(m.shared.spend, DayKey(p.Key(), day)) }

  /** The agent's requests that were admitted by the budget check or gave their slot back, but hold no checked slot
      and are not settled in the daily counter. */
  ghost function WaitingIds(p: Principal, m: Machine): set<Id> { Ids(m, p.Key(), Waiting) }

  /** One credential, and non-negative limits and costs. */
  ghost predicate ProperStep(p: Principal, step: Step) {
    && LoyalStep(p, step)
    && (step.act.Begin? ==> step.act.request.budgetLimitUsd >= 0.0)
    && (step.act.Commit? ==> step.act.o.finalCostUsd >= 0.0)
  }

  /** A report of the agent on a decision of its own. */
  predicate OwnCommit(p: Principal, m: Machine, step: Step) {
    && step.act.Commit? && step.act.p == p
    && step.act.o.decisionId in m.shared.decisions && m.shared.decisions[step.act.o.decisionId].agentId == p.agentId
  }

  /** The agent reports nothing above its decision's limit. */
  ghost predicate FrugalStep(p: Principal, m: Machine, step: Step) {
    OwnCommit(p, m, step) ==>
      step.act.o.finalCostUsd <= m.shared.decisions[step.act.o.decisionId].request.budgetLimitUsd
  }

  /** In general, of each request `reserve` of its limit is set aside: the agent reports no more, and what its budget
      check lets through fits, reserve and all, into `most`. */
  ghost predicate CoveredStep(p: Principal, m: Machine, step: Step, reserve: real -> real, most: real) {
    && (OwnCommit(p, m, step) ==>
          step.act.o.finalCostUsd <= reserve(m.shared.decisions[step.act.o.decisionId].request.budgetLimitUsd))
    && (step.act.ReadBudget? && At(m, step.act.id, Admitted) && m.flights[step.act.id].p == p
        && WithinDailyBudget(m.shared, p, m.flights[step.act.id].request, step.clock.day) ==>
          0.0 <= reserve(m.flights[step.act.id].request.budgetLimitUsd) <= most - SpentOn(p, m, step.clock.day))
  }

  /** A run of proper steps, on days that never go back, with never more than `w` requests waiting. */
  ghost predicate Crowd(p: Principal, steps: seq<Step>, w: nat) {
    && |WaitingIds(p, RunSteps(steps))| <= w
    && (steps == [] ||
        var front, step := steps[..|steps| - 1], steps[|steps| - 1];
        && Crowd(p, front, w) && ProperStep(p, step)
        && (front != [] ==> front[|front| - 1].clock.day <= step.clock.day))
  }

  /** A crowd in which the agent is frugal. */
  ghost predicate CrowdedRun(p: Principal, steps: seq<Step>, w: nat) {
    Crowd(p, steps, w) && forall i :: 0 <= i < |steps| ==> FrugalStep(p, RunSteps(steps[..i]), steps[i])
  }

  /** A crowd in which the reserve covers the agent. */
  ghost predicate CoveredCrowd(p: Principal, steps: seq<Step>, w: nat, reserve: real -> real, most: real) {
    Crowd(p, steps, w) && forall i :: 0 <= i < |steps| ==> CoveredStep(p, RunSteps(steps[..i]), steps[i], reserve, most)
  }

  lemma {:induction false} CrowdIsLoyal(p: Principal, steps: seq<Step>, w: nat)
    requires Crowd(p, steps, w)
    ensures InterleavedSafety.OneCredential(p, steps)
  {
    hide RunSteps, WaitingIds, LoyalStep;
    if steps != [] {
      CrowdIsLoyal(p, steps[..|steps| - 1], w);
      assert steps == steps[..|steps| - 1] + [steps[|steps| - 1]];
    }
  }

  ghost function Today(steps: seq<Step>): int {
    if steps == [] then 0 else steps[|steps| - 1].clock.day
  }

  lemma CrowdFront(p: Principal, steps: seq<Step>, w: nat)
    requires Crowd(p, steps, w) && steps != []
    ensures var front, step := steps[..|steps| - 1], steps[|steps| - 1];
            && Crowd(p, front, w) && ProperStep(p, step) && |WaitingIds(p, RunSteps(front))| <= w
            && (front != [] ==> Today(front) <= step.clock.day)
  {
    hide RunSteps, WaitingIds, ProperStep;
  }

  lemma CoveredFront(p: Principal, steps: seq<Step>, w: nat, reserve: real -> real, most: real)
    requires CoveredCrowd(p, steps, w, reserve, most) && steps != []
    ensures CoveredCrowd(p, steps[..|steps| - 1], w, reserve, most)
    ensures CoveredStep(p, RunSteps(steps[..|steps| - 1]), steps[|steps| - 1], reserve, most)
  {
    CrowdFront(p, steps, w);
    hide RunSteps, CoveredStep, Crowd;
    var front := steps[..|steps| - 1];
    forall i | 0 <= i < |front|
      ensures CoveredStep(p, RunSteps(front[..i]), front[i], reserve, most)
    {
      assert front[..i] == steps[..i];
    }
  }

  // ----- a frugal crowd is covered by its limits

  ghost predicate LimitsNonNegative(m: Machine) {
    forall id :: id in m.flights ==> m.flights[id].request.budgetLimitUsd >= 0.0
  }

  lemma LimitsStep(p: Principal, m: Machine, step: Step)
    requires ProperStep(p, step) && LimitsNonNegative(m)
    ensures LimitsNonNegative(Next(m, step))
  {
    StepMoves(m, step);
    var t, id := Next(m, step), Subject(step.act).GetOr("");
    if id !in m.flights && id in t.flights {
      NewFlight(m, step);
    }
    hide Next, Follows;
  }

  lemma NewFlight(m: Machine, step: Step)
    ensures var (t, id) := (Next(m, step), Subject(step.act).GetOr(""));
            id !in m.flights && id in t.flights ==> step.act.Begin? && t.flights[id].request == step.act.request
  {
    hide Counted, RpmAllows, Held, Stored, Insertable, AddSlot, DropSlot, EventOf, Lookup, AddSpend, WithinDailyBudget,
      CompletedRecord;
  }

  lemma {:induction false} LimitsKept(p: Principal, steps: seq<Step>, w: nat)
    requires Crowd(p, steps, w)
    ensures LimitsNonNegative(RunSteps(steps))
  {
    hide Next, ProperStep, WaitingIds, Crowd;
    if steps != [] {
      CrowdFront(p, steps, w);
      LimitsKept(p, steps[..|steps| - 1], w);
      LimitsStep(p, RunSteps(steps[..|steps| - 1]), steps[|steps| - 1]);
    }
  }

  lemma {:induction false} CrowdPrefix(p: Principal, steps: seq<Step>, w: nat, i: nat)
    requires Crowd(p, steps, w) && i <= |steps|
    ensures Crowd(p, steps[..i], w)
  {
    hide Crowd, RunSteps;
    if i == |steps| {
      assert steps[..i] == steps;
    } else {
      CrowdFront(p, steps, w);
      assert steps[..|steps| - 1][..i] == steps[..i];
      CrowdPrefix(p, steps[..|steps| - 1], w, i);
    }
  }

  lemma CrowdedIsCovered(p: Principal, steps: seq<Step>, w: nat)
    requires CrowdedRun(p, steps, w)
    ensures CoveredCrowd(p, steps, w, AtLimit, p.dailyBudgetUsd)
  {
    hide RunSteps, Crowd, Spent;
    forall i | 0 <= i < |steps|
      ensures CoveredStep(p, RunSteps(steps[..i]), steps[i], AtLimit, p.dailyBudgetUsd)
    {
      assert FrugalStep(p, RunSteps(steps[..i]), steps[i]);
      CrowdPrefix(p, steps, w, i);
      LimitsKept(p, steps[..i], w);
    }
  }

  // ----- how one step moves amounts

  ghost predicate InRange(p: Principal, m: Machine, reserve: real -> real, most: real) {
    forall id :: id in Ids(m, p.Key(), Exposed) ==> 0.0 <= Amount(m.flights[id], reserve) <= most
  }

  /** A flight that is only now exposed has just passed the budget check. */
  lemma BecomesExposed(p: Principal, m: Machine, step: Step, id: Id, reserve: real -> real, most: real)
    requires Mine(p, m) && id == Subject(step.act).GetOr("") && CoveredStep(p, m, step, reserve, most)
    requires id in Ids(Next(m, step), p.Key(), Exposed) && id !in Ids(m, p.Key(), Exposed)
    ensures step.act.ReadBudget? && id in m.flights && m.flights[id].stage == Admitted
            && Next(m, step).flights[id].stage == Checked
    ensures 0.0 <= Amount(Next(m, step).flights[id], reserve) <= most - SpentOn(p, m, step.clock.day)
  {
    StepMoves(m, step);
    if step.act.ReadBudget? {
      hide Counted, Mine;
      assert m.flights[id].p.agentId == p.agentId;
      MineOne(p, m, id);
    } else {
      hide WithinDailyBudget, Mine, Spent;
      NotAdmitted(m, step);
    }
  }

  lemma MineOne(p: Principal, m: Machine, id: Id)
    requires Mine(p, m) && id in m.flights && m.flights[id].p.agentId == p.agentId
    ensures m.flights[id].p == p
  {
  }

  lemma NotAdmitted(m: Machine, step: Step)
    requires !step.act.ReadBudget?
    ensures var (t, id) := (Next(m, step), Subject(step.act).GetOr(""));
            id in t.flights && t.flights[id].stage.Checked? ==> id in m.flights && m.flights[id].stage.Checked?
  {
    hide Counted, RpmAllows, Held, Stored, Insertable, CompletedRecord, AddSlot, DropSlot, EventOf, Lookup, AddSpend;
  }

  /** An exposed flight's amount only changes when its outcome is committed, and then does not grow. */
  lemma StaysExposed(p: Principal, m: Machine, step: Step, id: Id, reserve: real -> real, most: real)
    requires Mine(p, m) && Coherent(m) && ProperStep(p, step) && CoveredStep(p, m, step, reserve, most)
    requires id == Subject(step.act).GetOr("")
    requires id in Ids(m, p.Key(), Exposed) && id in Next(m, step).flights && InRange(p, m, reserve, most)
    ensures 0.0 <= Amount(Next(m, step).flights[id], reserve) <= Amount(m.flights[id], reserve)
  {
    StepMoves(m, step);
    hide Coherent, Mine, Commits, FlightCoherent;
    if step.act.Commit? {
      CommitCosts(p, m, step.act.p, step.act.o, step.act.key, reserve);
    } else {
      NoCommit(m, step);
      hide Next;
    }
  }

  /** A report that is committed costs no more than the reserve of the flight it settles. */
  lemma CommitCosts(p: Principal, m: Machine, who: Principal, o: Outcome, key: Option<string>, reserve: real -> real)
    requires Mine(p, m) && Coherent(m) && (who.agentId == p.agentId ==> who == p)
    requires who == p && o.decisionId in m.shared.decisions && m.shared.decisions[o.decisionId].agentId == p.agentId ==>
               o.finalCostUsd <= reserve(m.shared.decisions[o.decisionId].request.budgetLimitUsd)
    ensures !Commits(m, who, o) ==> DoCommit(m, who, o, key) == m
    ensures Commits(m, who, o) ==>
              && m.flights[o.decisionId].stage == InTable
              && DoCommit(m, who, o, key).flights
                 == m.flights[o.decisionId := m.flights[o.decisionId].(stage := Committed(who, o))]
              && (m.flights[o.decisionId].p.agentId == p.agentId ==>
                    o.finalCostUsd <= reserve(m.flights[o.decisionId].request.budgetLimitUsd))
  {
    if Commits(m, who, o) {
      assert FlightCoherent(m, o.decisionId);
      hide Mine, IndexConsistent;
    }
  }

  lemma NoCommit(m: Machine, step: Step)
    requires !step.act.Commit?
    ensures var (t, id) := (Next(m, step), Subject(step.act).GetOr(""));
            id in t.flights && t.flights[id].stage.Committed? ==> id in m.flights && m.flights[id].stage.Committed?
  {
    hide Counted, RpmAllows, Held, Stored, Insertable, AddSlot, DropSlot, EventOf, Lookup, AddSpend, WithinDailyBudget;
  }

  lemma RangeStep(p: Principal, m: Machine, step: Step, reserve: real -> real, most: real)
    requires Mine(p, m) && Coherent(m) && ProperStep(p, step) && CoveredStep(p, m, step, reserve, most)
    requires InRange(p, m, reserve, most)
    requires forall day :: SpentOn(p, m, day) >= 0.0
    ensures InRange(p, Next(m, step), reserve, most)
  {
    var t, id := Next(m, step), Subject(step.act).GetOr("");
    StepMoves(m, step);
    if id in Ids(t, p.Key(), Exposed) {
      if id in Ids(m, p.Key(), Exposed) {
        StaysExposed(p, m, step, id, reserve, most);
      } else {
        BecomesExposed(p, m, step, id, reserve, most);
      }
    }
    hide Next, Mine, Coherent, CoveredStep, Amount, Follows, SpentOn;
  }

  // ----- the bound for any crowd

  ghost function Cap(p: Principal, w: nat, most: real): real
    requires p.Valid()
  {
    Times(p.concurrentLimit + w, most)
  }

  ghost function Exposure(p: Principal, m: Machine, reserve: real -> real): real {
    Sum(Amounts(m, p.Key(), Exposed, reserve))
  }

  ghost predicate SpendRange(p: Principal, m: Machine, today: int, cap: real) {
    && (forall day :: 0.0 <= SpentOn(p, m, day) <= cap)
    && (forall day :: day > today ==> SpentOn(p, m, day) == 0.0)
  }

  /** What is spent today or may still be charged stays within the cap. */
  ghost predicate Ledger(p: Principal, m: Machine, today: int, w: nat, reserve: real -> real, most: real)
    requires p.Valid()
  {
    && InRange(p, m, reserve, most)
    && SpendRange(p, m, today, Cap(p, w, most))
    && SpentOn(p, m, today) + Exposure(p, m, reserve) <= Cap(p, w, most)
  }

  lemma ExposedCount(p: Principal, m: Machine)
    ensures |Ids(m, p.Key(), Exposed)| <= |Ids(m, p.Key(), Passed)| + |WaitingIds(p, m)|
  {
    var k := p.Key();
    assert Ids(m, k, Exposed) <= Ids(m, k, Passed) + Ids(m, k, Waiting);
    SubsetSmaller(Ids(m, k, Exposed), Ids(m, k, Passed) + Ids(m, k, Waiting));
  }

  lemma ExposureBounded(p: Principal, m: Machine, reserve: real -> real, most: real)
    requires InRange(p, m, reserve, most)
    ensures 0.0 <= Exposure(p, m, reserve) <= Times(|Ids(m, p.Key(), Exposed)|, most)
  {
    var amounts := Amounts(m, p.Key(), Exposed, reserve);
    assert amounts.Keys == Ids(m, p.Key(), Exposed);
    SumNonNegative(amounts);
    SumAtMost(amounts, most);
  }

  lemma ExposureWithinCap(p: Principal, m: Machine, w: nat, reserve: real -> real, most: real)
    requires p.Valid() && InRange(p, m, reserve, most) && SlotSafe(p, m) && |WaitingIds(p, m)| <= w && most >= 0.0
    ensures 0.0 <= Exposure(p, m, reserve) <= Cap(p, w, most)
  {
    ExposureBounded(p, m, reserve, most);
    ExposedCount(p, m);
    hide Ids, InRange, Times;
    TimesMonotone(|Ids(m, p.Key(), Exposed)|, p.concurrentLimit + w, most);
  }

  lemma OneMoreExposed(p: Principal, m: Machine, t: Machine, id: Id, reserve: real -> real)
    requires id in t.flights && t.flights == m.flights[id := t.flights[id]]
    requires id in Ids(t, p.Key(), Exposed) && id !in Ids(m, p.Key(), Exposed)
    ensures |Ids(t, p.Key(), Exposed)| == |Ids(m, p.Key(), Exposed)| + 1
    ensures Exposure(p, t, reserve) == Exposure(p, m, reserve) + Amount(t.flights[id], reserve)
  {
    hide Amount, Sum, InClass, Ids, Amounts;
    ClassMoves(m, t, id, t.flights[id], p.Key(), Exposed, reserve);
    SumMoves(m, t, id, t.flights[id], p.Key(), Exposed, reserve);
    IdsHold(m, p.Key(), Exposed, id);
    IdsHold(t, p.Key(), Exposed, id);
    assert Ids(m, p.Key(), Exposed) - {id} == Ids(m, p.Key(), Exposed);
  }

  /** After a budget check passes, all the others together are at most one full budget fewer than the cap. */
  lemma CheckKeepsLedger(p: Principal, m: Machine, t: Machine, id: Id, day: int, w: nat, reserve: real -> real,
                         most: real)
    requires p.Valid() && SpendRange(p, m, day, Cap(p, w, most)) && InRange(p, m, reserve, most)
    requires id in t.flights && t.flights == m.flights[id := t.flights[id]] && t.shared.spend == m.shared.spend
    requires id in Ids(t, p.Key(), Exposed) && id !in Ids(m, p.Key(), Exposed)
    requires SpentOn(p, m, day) + Amount(t.flights[id], reserve) <= most
    requires SlotSafe(p, t) && |WaitingIds(p, t)| <= w && most >= 0.0
    ensures SpentOn(p, t, day) + Exposure(p, t, reserve) <= Cap(p, w, most)
  {
    hide Ids, InRange, Amount, SpentOn, Exposure, SpendRange, WaitingIds;
    OneMoreExposed(p, m, t, id, reserve);
    ExposedCount(p, t);
    ExposureBounded(p, m, reserve, most);
    SameSpend(p, m, t, day);
    TimesMonotone(|Ids(m, p.Key(), Exposed)|, p.concurrentLimit + w - 1, most);
  }

  lemma SameSpend(p: Principal, m: Machine, t: Machine, day: int)
    requires t.shared.spend == m.shared.spend
    ensures SpentOn(p, t, day) == SpentOn(p, m, day)
  {
  }

  lemma SameSpendRange(p: Principal, m: Machine, t: Machine, today: int, cap: real)
    requires t.shared.spend == m.shared.spend && SpendRange(p, m, today, cap)
    ensures SpendRange(p, t, today, cap)
  {
    forall day { SameSpend(p, m, t, day); }
  }

  lemma CounterAfter(p: Principal, m: Machine, t: Machine, k: DayKey, cost: real, mine: bool)
    requires t.shared.spend == AddSpend(m.shared.spend, k, cost) && (mine <==> k.owner == p.Key())
    ensures forall d :: SpentOn(p, t, d) == SpentOn(p, m, d) + (if mine && d == k.day then cost else 0.0)
  {
  }

  /** A released flight's charge takes its amount out of the exposed and the kept flights. */
  lemma ChargeLeaves(p: Principal, m: Machine, t: Machine, id: Id, c: Class, reserve: real -> real)
    requires id in m.flights && m.flights[id].stage.Released? && (c == Exposed || c == Kept)
    requires t.flights == m.flights[id :=
                                    m.flights[id].(stage := Charged(m.flights[id].stage.who, m.flights[id].stage.o))]
    ensures var f := m.flights[id];
            Sum(Amounts(t, p.Key(), c, reserve))
              == Sum(Amounts(m, p.Key(), c, reserve)) - (if f.p.Key() == p.Key() then f.stage.o.finalCostUsd else 0.0)
  {
    hide Sum, Amounts, Ids;
    SumMoves(m, t, id, t.flights[id], p.Key(), c, reserve);
  }

  lemma ReleasedWaits(p: Principal, m: Machine, id: Id, reserve: real -> real, most: real)
    requires id in m.flights && m.flights[id].stage.Released? && m.flights[id].p.Key() == p.Key()
             && InRange(p, m, reserve, most)
    ensures id in WaitingIds(p, m) && m.flights[id].stage.o.finalCostUsd >= 0.0
  {
    assert id in Ids(m, p.Key(), Exposed);
  }

  /** The charge moves an amount from the exposed flights, all of them past SCARD, to the day's counter. */
  lemma ChargeMoves(p: Principal, m: Machine, id: Id, day: int, reserve: real -> real, most: real) returns (cost: real)
    requires Mine(p, m) && Coherent(m) && InRange(p, m, reserve, most)
    ensures cost >= 0.0
    ensures forall d :: SpentOn(p, DoIncrSpend(m, id, day), d) == SpentOn(p, m, d) + (if d == day then cost else 0.0)
    ensures Exposure(p, DoIncrSpend(m, id, day), reserve) == Exposure(p, m, reserve) - cost
    ensures Sum(Amounts(DoIncrSpend(m, id, day), p.Key(), Kept, reserve))
            == Sum(Amounts(m, p.Key(), Kept, reserve)) - cost
    ensures cost > 0.0 ==> id in m.flights && id in WaitingIds(p, m) && m.flights[id].stage.Released?
  {
    hide DoIncrSpend, Coherent, Mine, FlightCoherent, InRange, Amounts, Sum, SpentOn, WaitingIds, AddSpend;
    var t := DoIncrSpend(m, id, day);
    cost := 0.0;
    if t != m {
      var k := IncrSpendFacts(p, m, id, day);
      ChargeLeaves(p, m, t, id, Exposed, reserve);
      ChargeLeaves(p, m, t, id, Kept, reserve);
      var mine := m.flights[id].p.Key() == p.Key();
      CounterAfter(p, m, t, k, m.flights[id].stage.o.finalCostUsd, mine);
      if mine {
        cost := m.flights[id].stage.o.finalCostUsd;
        ReleasedWaits(p, m, id, reserve, most);
      }
    }
  }

  lemma ChargeKeepsLedger(p: Principal, m: Machine, id: Id, day: int, w: nat, reserve: real -> real, most: real)
    requires p.Valid() && Mine(p, m) && Coherent(m) && Ledger(p, m, day, w, reserve, most)
    requires InRange(p, DoIncrSpend(m, id, day), reserve, most)
    ensures SpendRange(p, DoIncrSpend(m, id, day), day, Cap(p, w, most))
    ensures SpentOn(p, DoIncrSpend(m, id, day), day) + Exposure(p, DoIncrSpend(m, id, day), reserve) <= Cap(p, w, most)
  {
    hide DoIncrSpend, Coherent, Mine, InRange, SpentOn, Exposure, Cap, Amounts, Sum, Ids;
    var cost := ChargeMoves(p, m, id, day, reserve, most);
    ExposureBounded(p, DoIncrSpend(m, id, day), reserve, most);
  }

  lemma OtherKeepsLedger(p: Principal, m: Machine, step: Step, reserve: real -> real, most: real)
    requires Mine(p, m) && Coherent(m) && ProperStep(p, step) && CoveredStep(p, m, step, reserve, most)
    requires InRange(p, m, reserve, most) && !step.act.IncrSpend?
    requires var id := Subject(step.act).GetOr("");
             !(id in Ids(Next(m, step), p.Key(), Exposed) && id !in Ids(m, p.Key(), Exposed))
    ensures Exposure(p, Next(m, step), reserve) <= Exposure(p, m, reserve)
  {
    var t, id := Next(m, step), Subject(step.act).GetOr("");
    StepMoves(m, step);
    if t.flights == m.flights {
      SameFlights(m, t, p.Key(), Exposed, reserve);
    } else {
      SumMoves(m, t, id, t.flights[id], p.Key(), Exposed, reserve);
      if id in Ids(m, p.Key(), Exposed) {
        StaysExposed(p, m, step, id, reserve, most);
      }
      assert Contribution(t, id, p.Key(), Exposed, reserve) <= Contribution(m, id, p.Key(), Exposed, reserve);
    }
    hide Next, Mine, Coherent, CoveredStep, Amounts, Sum, Follows;
  }

  lemma LedgerStep(p: Principal, m: Machine, step: Step, w: nat, reserve: real -> real, most: real)
    requires p.Valid() && Mine(p, m) && Coherent(m) && ProperStep(p, step) && CoveredStep(p, m, step, reserve, most)
             && most >= 0.0
    requires Ledger(p, m, step.clock.day, w, reserve, most)
    requires SlotSafe(p, Next(m, step)) && |WaitingIds(p, Next(m, step))| <= w
    ensures Ledger(p, Next(m, step), step.clock.day, w, reserve, most)
  {
    var t, id := Next(m, step), Subject(step.act).GetOr("");
    RangeStep(p, m, step, reserve, most);
    if step.act.IncrSpend? {
      ChargeKeepsLedger(p, m, step.act.id, step.clock.day, w, reserve, most);
    } else {
      StepTouches(m, step);
      StepMoves(m, step);
      if id in Ids(t, p.Key(), Exposed) && id !in Ids(m, p.Key(), Exposed) {
        BecomesExposed(p, m, step, id, reserve, most);
        hide Next, Mine, Coherent, CoveredStep, Follows, Sum, Amounts;
        CheckKeepsLedger(p, m, t, id, step.clock.day, w, reserve, most);
        SameSpendRange(p, m, t, step.clock.day, Cap(p, w, most));
      } else {
        OtherKeepsLedger(p, m, step, reserve, most);
        SameSpend(p, m, t, step.clock.day);
        SameSpendRange(p, m, t, step.clock.day, Cap(p, w, most));
        hide Next, Mine, Coherent, CoveredStep, Follows, Exposure, SpentOn, Ids, InRange, Cap, SpendRange;
      }
    }
  }

  lemma LaterLedger(p: Principal, m: Machine, today: int, later: int, w: nat, reserve: real -> real, most: real)
    requires p.Valid() && Ledger(p, m, today, w, reserve, most) && today <= later
    requires SlotSafe(p, m) && |WaitingIds(p, m)| <= w && most >= 0.0
    ensures Ledger(p, m, later, w, reserve, most)
  {
    ExposureWithinCap(p, m, w, reserve, most);
  }

  lemma StartLedger(p: Principal, today: int, w: nat, reserve: real -> real, most: real)
    requires p.Valid() && most >= 0.0
    ensures Ledger(p, START, today, w, reserve, most)
  {
    assert Amounts(START, p.Key(), Exposed, reserve) == map[];
    TimesMonotone(0, p.concurrentLimit + w, most);
  }

  lemma {:induction false} LedgerKept(p: Principal, steps: seq<Step>, w: nat, reserve: real -> real, most: real)
    requires p.Valid() && CoveredCrowd(p, steps, w, reserve, most) && most >= 0.0
    ensures Ledger(p, RunSteps(steps), Today(steps), w, reserve, most)
  {
    hide Ledger, Mine, Coherent, ProperStep, CoveredStep, SlotsAre, SlotSafe, Next, WaitingIds, Crowd;
    if steps == [] {
      StartLedger(p, 0, w, reserve, most);
    } else {
      var front, step := steps[..|steps| - 1], steps[|steps| - 1];
      CoveredFront(p, steps, w, reserve, most);
      LedgerKept(p, front, w, reserve, most);
      CrowdIsLoyal(p, steps, w);
      CrowdIsLoyal(p, front, w);
      CrowdFront(p, steps, w);
      CrowdWaits(p, steps, w);
      SlotsKept(p, steps);
      SlotsKept(p, front);
      ReachableCoherent(front);
      if front == [] {
        StartLedger(p, step.clock.day, w, reserve, most);
      } else {
        LaterLedger(p, RunSteps(front), Today(front), step.clock.day, w, reserve, most);
      }
      LedgerStep(p, RunSteps(front), step, w, reserve, most);
    }
  }

  lemma CrowdWaits(p: Principal, steps: seq<Step>, w: nat)
    requires Crowd(p, steps, w)
    ensures |WaitingIds(p, RunSteps(steps))| <= w
  {
    hide RunSteps, ProperStep, Ids;
  }

  /** With never more than `w` requests waiting, a day's spend stays within `most` for each slot and each of them. */
  lemma CoveredCrowdBound(p: Principal, steps: seq<Step>, w: nat, reserve: real -> real, most: real, day: int)
    requires p.Valid() && CoveredCrowd(p, steps, w, reserve, most) && most >= 0.0
    ensures SpentOn(p, RunSteps(steps), day) <= (p.concurrentLimit + w) as real * most
  {
    hide *;
    LedgerKept(p, steps, w, reserve, most);
    SpentWithinCap(p, RunSteps(steps), Today(steps), w, day, reserve, most);
    CapIsProduct(p, w, most);
  }

  /** For frugal agents, within `concurrentLimit + w` daily budgets. */
  lemma CrowdedSpendBound(p: Principal, steps: seq<Step>, w: nat, day: int)
    requires p.Valid() && CrowdedRun(p, steps, w)
    ensures SpentOn(p, RunSteps(steps), day) <= (p.concurrentLimit + w) as real * p.dailyBudgetUsd
  {
    hide *;
    CrowdedIsCovered(p, steps, w);
    BudgetNonNegative(p);
    CoveredCrowdBound(p, steps, w, AtLimit, p.dailyBudgetUsd, day);
  }

  lemma SpentWithinCap(p: Principal, m: Machine, today: int, w: nat, day: int, reserve: real -> real, most: real)
    requires p.Valid() && Ledger(p, m, today, w, reserve, most)
    ensures SpentOn(p, m, day) <= Cap(p, w, most)
  {
  }

  lemma CapIsProduct(p: Principal, w: nat, most: real)
    requires p.Valid()
    ensures Cap(p, w, most) == (p.concurrentLimit + w) as real * most
  {
    hide Times;
    var n: nat := p.concurrentLimit + w;
    TimesIsProduct(n, most);
    assert n as real == (p.concurrentLimit + w) as real;
  }
}
