/**
 The interleaved protocol with the engine and the client in it: the largest daily spend for every number of waiting
 requests, of frugal agents and of agents that report as the example client does. The runs that reach it take the
 engine's own decisions and read one clock.
 */
module EndToEndInterleaved {
  import opened Wrappers
  import opened Rounding
  import opened Schemas
  import PricingEngine
  import opened Protocol
  import opened ControlPlane
  import opened AtomicRuns
  import opened AgentClient
  import opened Interleaving
  import opened InterleavedSafety
  import opened InterleavedSpend
  import SerialSpend
  import SpendWitness
  import CrowdedWitness
  import EndToEnd

  // ----- steps of the engine and of the client

  /** What an insert stores is what some catalog, policies, signals and clock make the engine decide. */
  ghost predicate EngineStep(m: Machine, step: Step) {
    step.act.Insert? && step.act.id in m.flights ==>
      var f := m.flights[step.act.id];
      exists w: World :: Routed(step.act.policyId, step.act.result) == Route(w, f.p, f.request)
  }

  /** A report of the agent on its own decision is one that the client posts for it. */
  ghost predicate ClientStep(p: Principal, m: Machine, step: Step) {
    OwnCommit(p, m, step) ==> EndToEnd.FromClient(m.shared.decisions[step.act.o.decisionId], step.act.o)
  }

  ghost predicate EngineRun(steps: seq<Step>) {
    forall i :: 0 <= i < |steps| ==> EngineStep(RunSteps(steps[..i]), steps[i])
  }

  /** A crowd that takes the engine's decisions, and in which the agent reports as the client does. */
  ghost predicate ClientCrowd(p: Principal, steps: seq<Step>, w: nat) {
    Crowd(p, steps, w) && EngineRun(steps) && forall i :: 0 <= i < |steps| ==>
      ClientStep(p, RunSteps(steps[..i]), steps[i])
  }

  lemma ClientFront(p: Principal, steps: seq<Step>, w: nat)
    requires ClientCrowd(p, steps, w) && steps != []
    ensures var front, step := steps[..|steps| - 1], steps[|steps| - 1];
            ClientCrowd(p, front, w) && EngineStep(RunSteps(front), step) && ClientStep(p, RunSteps(front), step)
              && ProperStep(p, step)
  {
    CrowdFront(p, steps, w);
    hide RunSteps, Crowd, EngineStep, ClientStep, ProperStep;
    var front := steps[..|steps| - 1];
    forall i | 0 <= i < |front|
      ensures EngineStep(RunSteps(front[..i]), front[i]) && ClientStep(p, RunSteps(front[..i]), front[i])
    {
      assert front[..i] == steps[..i];
    }
  }

  // ----- every row is priced, and every report costs whole millionths

  lemma RoutePriced(w: World, p: Principal, request: DecisionRequest, policyId: string, d: Decision)
    requires Routed(policyId, Result.Ok(d)) == Route(w, p, request) && request.budgetLimitUsd >= 0.0
    ensures forall e :: e in d.candidates ==>
              0.0 <= e.estimatedCostUsd <= RoundMoney(request.budgetLimitUsd) && OnMicros(e.estimatedCostUsd)
  {
    hide Route, RoundMoney, OnMicros;
    EndToEnd.EnginePrices(Create(p, request, None, "", Routed(policyId, Result.Ok(d)), AtMinute(0)));
  }

  lemma InsertPrices(m: Machine, step: Step)
    requires step.act.Insert? && EngineStep(m, step) && EndToEnd.PricedRecords(m.shared) && LimitsNonNegative(m)
    ensures EndToEnd.PricedRecords(Next(m, step).shared)
  {
    hide Route, RoundMoney, OnMicros, Insertable, Indexed;
    var id, f := step.act.id, m.flights;
    if At(m, id, Holding) && step.act.result.Ok? {
      var w: World :| Routed(step.act.policyId, step.act.result) == Route(w, m.flights[id].p, m.flights[id].request);
      RoutePriced(w, m.flights[id].p, m.flights[id].request, step.act.policyId, step.act.result.value);
    }
  }

  lemma CommitPrices(m: Machine, p: Principal, o: Outcome, key: Option<string>)
    requires EndToEnd.PricedRecords(m.shared)
    ensures EndToEnd.PricedRecords(DoCommit(m, p, o, key).shared)
  {
    hide RoundMoney, OnMicros, RecordedResponse;
  }

  lemma TablesPrice(s: State, t: State)
    requires EndToEnd.PricedRecords(s) && SameTables(s, t)
    ensures EndToEnd.PricedRecords(t)
  {
  }

  lemma StepPrices(m: Machine, step: Step)
    requires EngineStep(m, step) && EndToEnd.PricedRecords(m.shared) && LimitsNonNegative(m)
    ensures EndToEnd.PricedRecords(Next(m, step).shared)
  {
    hide EngineStep, EndToEnd.PricedRecords, DoInsert, DoCommit, Compatible, SameTables, LimitsNonNegative;
    if step.act.Insert? {
      InsertPrices(m, step);
    } else if step.act.Commit? {
      CommitPrices(m, step.act.p, step.act.o, step.act.key);
    } else {
      QuietStep(m, step);
      hide Next;
      TablesPrice(m.shared, Next(m, step).shared);
    }
  }

  /** The agent's reports that were committed cost whole millionths. */
  ghost predicate ReportsOnMicros(p: Principal, m: Machine) {
    forall id :: id in m.flights && m.flights[id].p.agentId == p.agentId && HasOutcome(m.flights[id].stage) ==>
      m.flights[id].stage.o.finalCostUsd >= 0.0 && OnMicros(m.flights[id].stage.o.finalCostUsd)
  }

  /** A client's report costs whole millionths, and at most the limit of its decision as money is rounded. */
  lemma ClientCommitCost(p: Principal, m: Machine, step: Step)
    requires EndToEnd.PricedRecords(m.shared) && ClientStep(p, m, step) && OwnCommit(p, m, step)
    ensures var o := step.act.o;
            && 0.0 <= o.finalCostUsd <= RoundMoney(m.shared.decisions[o.decisionId].request.budgetLimitUsd)
            && OnMicros(o.finalCostUsd)
  {
    hide RoundMoney, OnMicros, EndToEnd.FromClient, EndToEnd.PricedRecords;
    EndToEnd.ClientCost(p, m.shared, Report(step.act.p, step.act.o, step.act.key, step.clock));
  }

  lemma CommitOnMicros(p: Principal, m: Machine, step: Step)
    requires Mine(p, m) && Coherent(m) && ProperStep(p, step) && step.act.Commit? && ReportsOnMicros(p, m)
    requires EndToEnd.PricedRecords(m.shared) && ClientStep(p, m, step)
    ensures ReportsOnMicros(p, Next(m, step))
  {
    hide OnMicros, EndToEnd.PricedRecords, ClientStep, Mine, CompletedRecord, IndexConsistent;
    var who, o := step.act.p, step.act.o;
    if Commits(m, who, o) {
      assert FlightCoherent(m, o.decisionId);
      if m.flights[o.decisionId].p.agentId == p.agentId {
        assert OwnCommit(p, m, step);
        ClientCommitCost(p, m, step);
      }
    }
    hide Coherent, Commits, FlightCoherent;
  }

  lemma MoveOnMicros(p: Principal, m: Machine, t: Machine, id: Id)
    requires ReportsOnMicros(p, m) && Moves(m, t, id)
    requires id in t.flights && t.flights[id].stage.Committed? ==> id in m.flights && m.flights[id].stage.Committed?
    ensures ReportsOnMicros(p, t)
  {
    hide OnMicros;
  }

  lemma StepOnMicros(p: Principal, m: Machine, step: Step)
    requires Mine(p, m) && Coherent(m) && ProperStep(p, step) && ReportsOnMicros(p, m)
    requires EndToEnd.PricedRecords(m.shared) && ClientStep(p, m, step)
    ensures ReportsOnMicros(p, Next(m, step))
  {
    hide Next, Mine, Coherent, ProperStep, ReportsOnMicros, ClientStep, Moves, EndToEnd.PricedRecords;
    if step.act.Commit? {
      CommitOnMicros(p, m, step);
    } else {
      StepMoves(m, step);
      NoCommit(m, step);
      MoveOnMicros(p, m, Next(m, step), Subject(step.act).GetOr(""));
    }
  }

  /** On every day the agent has spent a whole number of millionths. */
  lemma ChargeOnMicros(p: Principal, m: Machine, id: Id, day: int)
    requires Mine(p, m) && Coherent(m) && ReportsOnMicros(p, m) && SpendsMicros(p, m)
    ensures SpendsMicros(p, DoIncrSpend(m, id, day))
  {
    hide DoIncrSpend, Mine, Coherent, OnMicros, SpentOn, AddSpend, Interleaving.Coherent;
    var t := DoIncrSpend(m, id, day);
    if t != m {
      var k := IncrSpendFacts(p, m, id, day);
      var f := m.flights[id];
      CounterAfter(p, m, t, k, f.stage.o.finalCostUsd, f.p.Key() == p.Key());
      forall d
        ensures SpentOn(p, t, d) >= 0.0 && OnMicros(SpentOn(p, t, d))
      {
        if f.p.Key() == p.Key() && d == day {
          assert f.stage.o.finalCostUsd >= 0.0 && OnMicros(f.stage.o.finalCostUsd);
          EndToEnd.MicrosSum(SpentOn(p, m, d), f.stage.o.finalCostUsd);
        }
      }
    }
  }

  ghost predicate SpendsMicros(p: Principal, m: Machine) {
    forall day :: SpentOn(p, m, day) >= 0.0 && OnMicros(SpentOn(p, m, day))
  }

  lemma StepSpendsMicros(p: Principal, m: Machine, step: Step)
    requires Mine(p, m) && Coherent(m) && ReportsOnMicros(p, m) && SpendsMicros(p, m)
    ensures SpendsMicros(p, Next(m, step))
  {
    hide Mine, Coherent, ReportsOnMicros, DoIncrSpend, OnMicros, SpentOn;
    if step.act.IncrSpend? {
      ChargeOnMicros(p, m, step.act.id, step.clock.day);
    } else {
      StepTouches(m, step);
      hide Next;
      forall day { SameSpend(p, m, Next(m, step), day); }
    }
  }

  /** What every client crowd keeps. */
  ghost predicate Kept(p: Principal, m: Machine) {
    EndToEnd.PricedRecords(m.shared) && ReportsOnMicros(p, m) && SpendsMicros(p, m)
  }

  lemma StartKept(p: Principal)
    ensures Kept(p, START)
  {
    EndToEnd.NoMicros();
  }

  lemma {:induction false} ClientsKeep(p: Principal, steps: seq<Step>, w: nat)
    requires p.Valid() && ClientCrowd(p, steps, w)
    ensures Kept(p, RunSteps(steps))
  {
    hide Next, Crowd, EngineRun, EngineStep, ClientStep, ProperStep, Mine, Coherent, SlotsAre, SlotSafe,
      ReportsOnMicros, SpendsMicros, EndToEnd.PricedRecords, LimitsNonNegative, Principal.Valid;
    if steps == [] {
      StartKept(p);
    } else {
      var front, step := steps[..|steps| - 1], steps[|steps| - 1];
      ClientFront(p, steps, w);
      ClientsKeep(p, front, w);
      CrowdIsLoyal(p, front, w);
      SlotsKept(p, front);
      ReachableCoherent(front);
      LimitsKept(p, front, w);
      StepPrices(RunSteps(front), step);
      StepOnMicros(p, RunSteps(front), step);
      StepSpendsMicros(p, RunSteps(front), step);
    }
  }

  lemma ClientStepCovered(p: Principal, m: Machine, step: Step)
    requires Kept(p, m) && LimitsNonNegative(m) && ClientStep(p, m, step)
    ensures CoveredStep(p, m, step, RoundMoney, RoundMoney(p.dailyBudgetUsd))
  {
    hide RoundMoney, OnMicros, ClientStep, EndToEnd.PricedRecords, ReportsOnMicros, Spent;
    if OwnCommit(p, m, step) {
      ClientCommitCost(p, m, step);
    }
    if step.act.ReadBudget? && At(m, step.act.id, Admitted) && m.flights[step.act.id].p == p
       && WithinDailyBudget(m.shared, p, m.flights[step.act.id].request, step.clock.day)
    {
      EndToEnd.RoundedFits(SpentOn(p, m, step.clock.day), m.flights[step.act.id].request.budgetLimitUsd,
                           p.dailyBudgetUsd);
    }
  }

  lemma {:induction false} ClientPrefix(p: Principal, steps: seq<Step>, w: nat, i: nat)
    requires ClientCrowd(p, steps, w) && i <= |steps|
    ensures ClientCrowd(p, steps[..i], w) && (i < |steps| ==> ClientStep(p, RunSteps(steps[..i]), steps[i]))
  {
    hide RunSteps, Crowd, ClientStep, EngineStep;
    CrowdPrefix(p, steps, w, i);
    forall j | 0 <= j < i
      ensures EngineStep(RunSteps(steps[..i][..j]), steps[..i][j])
              && ClientStep(p, RunSteps(steps[..i][..j]), steps[..i][j])
    {
      assert steps[..i][..j] == steps[..j];
    }
  }

  lemma ClientCrowdCovered(p: Principal, steps: seq<Step>, w: nat)
    requires p.Valid() && ClientCrowd(p, steps, w)
    ensures CoveredCrowd(p, steps, w, RoundMoney, RoundMoney(p.dailyBudgetUsd))
  {
    hide RunSteps, Crowd, EngineRun, ClientStep, CoveredStep, Kept, LimitsNonNegative, RoundMoney, Principal.Valid;
    forall i | 0 <= i < |steps|
      ensures CoveredStep(p, RunSteps(steps[..i]), steps[i], RoundMoney, RoundMoney(p.dailyBudgetUsd))
    {
      ClientPrefix(p, steps, w, i);
      ClientsKeep(p, steps[..i], w);
      LimitsKept(p, steps[..i], w);
      ClientStepCovered(p, RunSteps(steps[..i]), steps[i]);
    }
  }

  // ----- the bounds

  /** If no request may ever wait, none gets past the budget check, and nothing is spent. */
  lemma {:induction false} NobodySpends(p: Principal, steps: seq<Step>, reserve: real -> real, most: real, day: int)
    requires p.Valid() && CoveredCrowd(p, steps, 0, reserve, most) && most >= 0.0
    ensures SpentOn(p, RunSteps(steps), day) == 0.0
  {
    hide Next, Crowd, CoveredStep, SpentOn, Principal.Valid, CoveredCrowd;
    if steps == [] {
      StartSpends(p, day);
    } else {
      var front, step := steps[..|steps| - 1], steps[|steps| - 1];
      CoveredFront(p, steps, 0, reserve, most);
      NobodySpends(p, front, reserve, most, day);
      NobodySpendsStep(p, front, step, reserve, most, day);
    }
  }

  lemma StartSpends(p: Principal, day: int)
    ensures SpentOn(p, RunSteps([]), day) == 0.0
  {
  }

  lemma NobodySpendsStep(p: Principal, front: seq<Step>, step: Step, reserve: real -> real, most: real, day: int)
    requires p.Valid() && CoveredCrowd(p, front, 0, reserve, most) && most >= 0.0
    ensures SpentOn(p, Next(RunSteps(front), step), day) == SpentOn(p, RunSteps(front), day)
  {
    hide Mine, Coherent, SlotsAre, SlotSafe, InRange, Crowd, CoveredCrowd, RunSteps, DoIncrSpend, Ids, SpentOn,
      Exposure, Principal.Valid;
    var m := RunSteps(front);
    if step.act.IncrSpend? {
      SerialSpend.CoveredIsCrowd(p, front, 0, reserve, most);
      CrowdIsLoyal(p, front, 0);
      SlotsKept(p, front);
      ReachableCoherent(front);
      LedgerKept(p, front, 0, reserve, most);
      LedgerInRange(p, m, Today(front), 0, reserve, most);
      CrowdWaits(p, front, 0);
      var cost := ChargeMoves(p, m, step.act.id, step.clock.day, reserve, most);
    } else {
      StepTouches(m, step);
      SameSpend(p, m, Next(m, step), day);
    }
  }

  lemma LedgerInRange(p: Principal, m: Machine, today: int, w: nat, reserve: real -> real, most: real)
    requires p.Valid() && Ledger(p, m, today, w, reserve, most)
    ensures InRange(p, m, reserve, most)
  {
  }

  /** The bound for every number of waiting requests. */
  lemma CoveredBound(p: Principal, steps: seq<Step>, w: nat, reserve: real -> real, most: real, day: int)
    requires p.Valid() && CoveredCrowd(p, steps, w, reserve, most) && most >= 0.0
    ensures SpentOn(p, RunSteps(steps), day) <= CrowdedWitness.MostPlanned(p, w) as real * most
  {
    hide CoveredCrowd, RunSteps, SpentOn, Principal.Valid;
    if w == 0 {
      NobodySpends(p, steps, reserve, most, day);
    } else if w == 1 {
      SerialSpend.CoveredSerialBound(p, steps, reserve, most, day);
    } else {
      CoveredCrowdBound(p, steps, w, reserve, most, day);
    }
  }

  // ----- runs that reach them

  lemma PlannedEngine(plan: SpendWitness.Plan, steps: seq<Step>, w: World)
    requires CrowdedWitness.PlannedSteps(plan, steps)
    requires Route(w, plan.p, plan.request) == Routed(plan.policyId, Result.Ok(plan.decision))
    ensures EngineRun(steps)
  {
    hide Route, RunSteps;
    forall i | 0 <= i < |steps|
      ensures EngineStep(RunSteps(steps[..i]), steps[i])
    {
      assert CrowdedWitness.PlannedStep(plan, RunSteps(steps[..i]), steps[i]);
    }
  }

  lemma PlannedFrugal(plan: SpendWitness.Plan, steps: seq<Step>)
    requires plan.Valid() && CrowdedWitness.PlannedSteps(plan, steps) && plan.cost <= plan.p.dailyBudgetUsd
    ensures forall i :: 0 <= i < |steps| ==> FrugalStep(plan.p, RunSteps(steps[..i]), steps[i])
  {
    hide RunSteps;
    forall i | 0 <= i < |steps|
      ensures FrugalStep(plan.p, RunSteps(steps[..i]), steps[i])
    {
      assert CrowdedWitness.PlannedStep(plan, RunSteps(steps[..i]), steps[i]);
    }
  }

  lemma PlannedClient(plan: SpendWitness.Plan, steps: seq<Step>)
    requires CrowdedWitness.PlannedSteps(plan, steps) && |plan.decision.candidates| == 1
    requires forall id ::
             plan.OutcomeFor(id) in Invocation(plan.ResponseFor(id), plan.request, [Turn(Fine, Fine)], Fine).sent
    ensures forall i :: 0 <= i < |steps| ==> ClientStep(plan.p, RunSteps(steps[..i]), steps[i])
  {
    hide RunSteps, Invocation;
    forall i | 0 <= i < |steps|
      ensures ClientStep(plan.p, RunSteps(steps[..i]), steps[i])
    {
      assert CrowdedWitness.PlannedStep(plan, RunSteps(steps[..i]), steps[i]);
    }
  }

  lemma NoStepsWait(p: Principal)
    ensures Crowd(p, [], 0) && ClockedSteps([]) && RunSteps([]) == START
  {
    assert Ids(START, p.Key(), Waiting) == {};
  }

  /** For every credential and every number of waiting requests, a frugal run on one clock, with the engine's own
      decisions, spends as much as any may in a day. */
  lemma CrowdedSpendReached(p: Principal, w: nat) returns (steps: seq<Step>, day: int)
    requires p.Valid()
    ensures CrowdedRun(p, steps, w) && EngineRun(steps) && ClockedSteps(steps)
    ensures SpentOn(p, RunSteps(steps), day) == CrowdedWitness.MostPlanned(p, w) as real * p.dailyBudgetUsd
  {
    hide Crowd, RunSteps, SpentOn, Principal.Valid, ClockedSteps, EngineStep, FrugalStep, CrowdedWitness.PlannedSteps,
      Route, RoundMoney, Invocation;
    if w == 0 {
      steps, day := [], 0;
      NoStepsWait(p);
      StartSpends(p, 0);
    } else {
      var client := EndToEnd.ClientPlan(p);
      BudgetNonNegative(p);
      var plan := client.(cost := p.dailyBudgetUsd);
      steps, day := CrowdedWitness.CrowdSpends(plan, w);
      PlannedEngine(plan, steps, EndToEnd.PlainWorld(p));
      PlannedFrugal(plan, steps);
    }
  }

  /** The largest daily spend of a frugal credential whose waiting requests never number more than `w`: nothing for
      `w == 0`, one budget per slot for `w == 1`, one per slot and waiting request from two on. */
  lemma CrowdedSpendExact(p: Principal, w: nat) returns (reached: seq<Step>, on: int)
    requires p.Valid()
    ensures CrowdedRun(p, reached, w) && EngineRun(reached) && ClockedSteps(reached)
    ensures SpentOn(p, RunSteps(reached), on) == CrowdedWitness.MostPlanned(p, w) as real * p.dailyBudgetUsd
    ensures forall steps: seq<Step>, day: int :: CrowdedRun(p, steps, w) ==>
              SpentOn(p, RunSteps(steps), day) <= CrowdedWitness.MostPlanned(p, w) as real * p.dailyBudgetUsd
  {
    hide *;
    BudgetNonNegative(p);
    forall steps: seq<Step>, day: int | CrowdedRun(p, steps, w)
      ensures SpentOn(p, RunSteps(steps), day) <= CrowdedWitness.MostPlanned(p, w) as real * p.dailyBudgetUsd
    {
      CrowdedIsCovered(p, steps, w);
      CoveredBound(p, steps, w, AtLimit, p.dailyBudgetUsd, day);
    }
    reached, on := CrowdedSpendReached(p, w);
  }

  /** One budget per slot, the bound of the atomic calls, holds for the interleaved steps of a frugal credential with a
      budget exactly when at most one request may wait at a time. */
  lemma AtomicBoundHolds(p: Principal, w: nat)
    requires p.Valid() && p.dailyBudgetUsd > 0.0
    ensures (forall steps: seq<Step>, day: int :: CrowdedRun(p, steps, w) && EngineRun(steps) && ClockedSteps(steps) ==>
               SpentOn(p, RunSteps(steps), day) <= p.concurrentLimit as real * p.dailyBudgetUsd)
            <==> w <= 1
  {
    hide CrowdedRun, EngineRun, ClockedSteps, RunSteps, SpentOn, Principal.Valid;
    var steps, day := CrowdedSpendExact(p, w);
    SlotsAlone(p, w, p.dailyBudgetUsd);
  }

  lemma SlotsAlone(p: Principal, w: nat, b: real)
    requires p.Valid() && b > 0.0
    ensures CrowdedWitness.MostPlanned(p, w) as real * b <= p.concurrentLimit as real * b <==> w <= 1
  {
    var n, k := p.concurrentLimit as real, CrowdedWitness.MostPlanned(p, w) as real;
    if w <= 1 {
      EndToEnd.ProductMonotone(b, k, n);
    } else {
      EndToEnd.ProductStrict(b, n, k);
    }
  }

  // ----- the client

  /** Agents that take the engine's decisions and report as the client does, while at most `w` requests wait: the same
      number of daily budgets, each rounded as money is. */
  lemma ClientCrowdBound(p: Principal, steps: seq<Step>, w: nat, day: int)
    requires p.Valid() && ClientCrowd(p, steps, w)
    ensures SpentOn(p, RunSteps(steps), day) <= CrowdedWitness.MostPlanned(p, w) as real * RoundMoney(p.dailyBudgetUsd)
  {
    hide *;
    BudgetNonNegative(p);
    RoundMoneyNear(p.dailyBudgetUsd);
    ClientCrowdCovered(p, steps, w);
    CoveredBound(p, steps, w, RoundMoney, RoundMoney(p.dailyBudgetUsd), day);
  }

  /** For every credential and every number of waiting requests, some such run on one clock spends that in a day. */
  lemma ClientCrowdReached(p: Principal, w: nat) returns (steps: seq<Step>, day: int)
    requires p.Valid()
    ensures ClientCrowd(p, steps, w) && ClockedSteps(steps)
    ensures SpentOn(p, RunSteps(steps), day) == CrowdedWitness.MostPlanned(p, w) as real * RoundMoney(p.dailyBudgetUsd)
  {
    hide Crowd, RunSteps, SpentOn, Principal.Valid, ClockedSteps, EngineStep, ClientStep, CrowdedWitness.PlannedSteps,
      Route, RoundMoney, Invocation;
    if w == 0 {
      steps, day := [], 0;
      NoStepsWait(p);
      StartSpends(p, 0);
    } else {
      var plan := EndToEnd.ClientPlan(p);
      steps, day := CrowdedWitness.CrowdSpends(plan, w);
      PlannedEngine(plan, steps, EndToEnd.PlainWorld(p));
      PlannedClient(plan, steps);
    }
  }

  /** So the daily budget times the slots bounds the clients of a credential exactly when a look at the credential and
      at the number of waiting requests says so. */
  lemma BudgetBoundsClientCrowd(p: Principal, w: nat)
    requires p.Valid()
    ensures var (n, b) := (p.concurrentLimit as real, p.dailyBudgetUsd);
            (forall steps: seq<Step>, day: int :: ClientCrowd(p, steps, w) && ClockedSteps(steps) ==>
               SpentOn(p, RunSteps(steps), day) <= n * b)
            <==> CrowdedWitness.MostPlanned(p, w) as real * RoundMoney(b) <= n * b
  {
    hide *;
    var n, b := p.concurrentLimit as real, p.dailyBudgetUsd;
    forall steps: seq<Step>, day: int | ClientCrowd(p, steps, w) && ClockedSteps(steps)
      ensures SpentOn(p, RunSteps(steps), day) <= CrowdedWitness.MostPlanned(p, w) as real * RoundMoney(b)
    {
      ClientCrowdBound(p, steps, w, day);
    }
    var steps, day := ClientCrowdReached(p, w);
  }
}
