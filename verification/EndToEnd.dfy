/**
 The three cores together: probes keep the engine's inputs in range, the engine keeps candidates
 within the budget limit, and agents that report as the example client does obey the spend bound.
 */
module EndToEnd {
  import opened Wrappers
  import opened Rounding
  import opened Arithmetic
  import opened Schemas
  import opened PricingEngine
  import opened EngineProperties
  import EngineTheorems
  import opened Protocol
  import opened ControlPlane
  import opened AtomicRuns
  import opened QuotaTheorems
  import opened DaySpend
  import opened LatencyTracker
  import opened AgentClient
  import opened SpendWitness

  // ----- probes to candidates

  /** Fed with the signals that any run of valid probe rounds leaves behind, the engine raises only for lack of
      survivors. */
  lemma ProbedEngineNeverRaises(rounds: seq<seq<ProbeResult>>, ctx: Context, catalog: Catalog)
    requires forall results :: results in rounds ==> ValidRound(results)
    requires ctx.request.Valid() && ctx.policy.Valid() && ctx.freshnessSeconds >= 0
    requires catalog.Valid() && ctx.signals == AfterRounds(rounds)
    ensures Decide(ctx, catalog.models).Err? <==> forall m :: m in catalog.models ==> !Survives(ctx, m)
    ensures Decide(ctx, catalog.models).Err? ==> Decide(ctx, catalog.models).error == NoSurvivors
  {
    hide Decide, Survives, AfterRounds, ValidRound, Signal.Valid, Catalog.Valid;
    forall id | id in ctx.signals
      ensures ctx.signals[id].Valid()
    {
      ProbeRunsGiveValidSignals(rounds, id);
    }
    ValidInputsNeverRaise(ctx, catalog);
  }

  // ----- the engine's prices against the limit

  /** Every returned candidate is priced in whole millionths, within the request's budget limit rounded alike. */
  lemma CandidatesWithinLimit(ctx: Context, models: seq<CatalogModel>, d: Decision, c: Candidate)
    requires Decide(ctx, models) == Ok(d) && c in d.candidates && ctx.request.budgetLimitUsd >= 0.0
    ensures 0.0 <= c.estimatedCostUsd <= RoundMoney(ctx.request.budgetLimitUsd) && OnMicros(c.estimatedCostUsd)
  {
    hide Decide, Survives, RoundMoney, FinalCost, ConfidenceOf, ExpectedTtfb, Scores, AgeSeconds;
    var i: nat :| i < |d.candidates| && d.candidates[i] == c;
    var m := EngineTheorems.LadderEntry(ctx, models, d, i);
    SurvivorWithinBudget(ctx, m);
    RoundedOnMicros(FinalCost(ctx, m));
  }

  // A catalog model that charges nothing but a cold start, and a request it serves.

  const NOTHING := Capabilities(false, false, false, false)

  function FreeModel(coldStartCost: real): CatalogModel {
    CatalogModel("p", "p/m", 0.0, 0.0, [], 1, 1, 1.0, 1.0, 1.0, NOTHING, ["t"], 0, coldStartCost, 0.0, 1, 0.0, 1.0)
  }

  function PlainRequest(agentId: string, limit: real): DecisionRequest {
    DecisionRequest(agentId, "r", "t", "en", 1, 1, 1, limit, None, None, None, None, None, NOTHING)
  }

  const PLAIN_POLICY := RoutingPolicy("p", true, PolicyWeights(1.0, 0.0, 0.0, 0.0), 1, 0.0, 0.0, 0.0)

  function PlainContext(agentId: string, limit: real): Context {
    Context(PlainRequest(agentId, limit), PLAIN_POLICY, map[], map[], 0.0, 1)
  }

  lemma NoCharge(tokens: int)
    ensures TokenCharge(tokens, 0.0) == 0.0
  {
    ScaledByOne(tokens as real / 1000.0);
  }

  lemma FreeModelListCost(agentId: string, limit: real)
    ensures ListCost(PlainContext(agentId, limit), FreeModel(limit)) == limit
  {
    hide TokenEstimator.EstimateTokens, TokenCharge, InputTokens, OutputTokens, TotalTokens;
    var ctx, m := PlainContext(agentId, limit), FreeModel(limit);
    NoCharge(InputTokens(ctx, m));
    NoCharge(OutputTokens(ctx));
  }

  lemma FreeModelCost(agentId: string, limit: real)
    requires limit >= 0.0
    ensures FinalCost(PlainContext(agentId, limit), FreeModel(limit)) == limit
  {
    hide TokenEstimator.EstimateTokens, ListCost, TotalTokens, Scaled;
    FreeModelListCost(agentId, limit);
    ScaledByOne(limit);
  }

  lemma FreeModelFitsBudget(agentId: string, limit: real)
    requires limit >= 0.0
    ensures !FailsBudget(PlainContext(agentId, limit), FreeModel(limit))
  {
    hide FinalCost;
    FreeModelCost(agentId, limit);
  }

  lemma FreeModelFitsOtherwise(agentId: string, limit: real)
    ensures var ctx, m := PlainContext(agentId, limit), FreeModel(limit);
            !FailsProvider(ctx, m) && !FailsCapability(ctx, m) && !FailsCapacity(ctx, m) && !FailsLatency(ctx, m)
  {
    hide ExpectedTtfb;
  }

  lemma PassesEveryFilter(ctx: Context, m: CatalogModel)
    requires !FailsProvider(ctx, m) && !FailsCapability(ctx, m) && !FailsCapacity(ctx, m)
    requires !FailsBudget(ctx, m) && !FailsLatency(ctx, m)
    ensures Survives(ctx, m)
  {
    hide FailsProvider, FailsCapability, FailsCapacity, FailsBudget, FailsLatency;
  }

  lemma PlainIsValid(agentId: string, limit: real)
    requires limit >= 0.0
    ensures PlainContext(agentId, limit).Valid() && FreeModel(limit).Valid()
  {
  }

  lemma FreeModelSurvives(agentId: string, limit: real)
    requires limit >= 0.0
    ensures Survives(PlainContext(agentId, limit), FreeModel(limit))
  {
    hide *;
    FreeModelFitsOtherwise(agentId, limit);
    FreeModelFitsBudget(agentId, limit);
    PassesEveryFilter(PlainContext(agentId, limit), FreeModel(limit));
  }

  lemma CandidatePrice(ctx: Context, m: CatalogModel, rank: int)
    ensures CandidateOf(ctx, m, rank).estimatedCostUsd == RoundMoney(FinalCost(ctx, m))
  {
    hide RoundMoney, FinalCost, ConfidenceOf, ExpectedTtfb, Scores, AgeSeconds;
  }

  /** The exact condition under which no candidate is ever priced above the limit itself: rounding must not push the
      limit up. Where it does, a valid request and catalog model show a candidate above the limit. */
  lemma PricesRespectLimit(limit: real)
    requires limit >= 0.0
    ensures (forall ctx: Context, m: CatalogModel ::
               ctx.Valid() && m.Valid() && ctx.request.budgetLimitUsd == limit && Survives(ctx, m) ==>
               CandidateOf(ctx, m, 1).estimatedCostUsd <= limit)
            <==> RoundMoney(limit) <= limit
  {
    hide Survives, RoundMoney, FinalCost, CandidateOf, FreeModel, Context.Valid, CatalogModel.Valid;
    forall ctx: Context, m: CatalogModel | ctx.request.budgetLimitUsd == limit && Survives(ctx, m)
      ensures CandidateOf(ctx, m, 1).estimatedCostUsd <= RoundMoney(limit)
    {
      SurvivorWithinBudget(ctx, m);
      CandidatePrice(ctx, m, 1);
    }
    FreeModelCost("a", limit);
    FreeModelSurvives("a", limit);
    PlainIsValid("a", limit);
    CandidatePrice(PlainContext("a", limit), FreeModel(limit), 1);
  }

  /** For every limit there are a valid request and catalog that the engine serves, with a single candidate. */
  lemma SomeRequestIsServed(agentId: string, limit: real)
    requires limit >= 0.0
    ensures var r := Decide(PlainContext(agentId, limit), [FreeModel(limit)]);
            r.Ok? && r.value.candidates == [CandidateOf(PlainContext(agentId, limit), FreeModel(limit), 1)]
  {
    hide Decide, Survives, CandidateOf, FreeModel, Context.Valid, CatalogModel.Valid;
    var ctx, m := PlainContext(agentId, limit), FreeModel(limit);
    var catalog := Catalog("v", [m], map[]);
    FreeModelSurvives(agentId, limit);
    PlainIsValid(agentId, limit);
    assert m in catalog.models;
    ValidInputsNeverRaise(ctx, catalog);
    OneServed(ctx, m, Decide(ctx, catalog.models).value);
  }

  lemma OneServed(ctx: Context, m: CatalogModel, d: Decision)
    requires Decide(ctx, [m]) == Ok(d) && ctx.policy.maxCandidates == 1
    ensures d.candidates == [CandidateOf(ctx, m, 1)]
  {
    hide Survives, CandidateOf, AllValid, SafetyScore, Rejections, FreshnessValues;
    assert |d.candidates| == 1;
    var x := EngineTheorems.LadderEntry(ctx, [m], d, 0);
  }

  // ----- engine-made decisions and client-made reports

  /** The routing that `create_decision` obtains from some catalog, policies, signals and clock. */
  ghost predicate EngineMade(c: Call) {
    c.Create? ==> exists w: World :: c.routing == Route(w, c.p, c.request)
  }

  /** The report is one that some invocation of the client, meeting whatever replies, posts for this record's
      decision. */
  ghost predicate FromClient(r: Record, o: Outcome) {
    exists turns: seq<Turn>, last: Reply :: |turns| == |r.response.decision.candidates|
      && o in Invocation(r.response, r.request, turns, last).sent
  }

  /** Decisions come from the engine, and the agent's reports on its own decisions from the client. */
  ghost predicate ClientRun(p: Principal, calls: seq<Call>) {
    && (forall c :: c in calls ==> EngineMade(c))
    && forall i :: 0 <= i < |calls| ==> ClientCall(p, Exec(calls[..i]), calls[i])
  }

  predicate OwnReport(p: Principal, s: State, c: Call) {
    c.Report? && c.p == p && c.outcome.decisionId in s.decisions
      && s.decisions[c.outcome.decisionId].agentId == p.agentId
  }

  ghost predicate ClientCall(p: Principal, s: State, c: Call) {
    OwnReport(p, s, c) ==> FromClient(s.decisions[c.outcome.decisionId], c.outcome)
  }

  ghost predicate PricedRecord(r: Record) {
    && r.request.budgetLimitUsd >= 0.0
    && forall c :: c in r.response.decision.candidates ==>
         0.0 <= c.estimatedCostUsd <= RoundMoney(r.request.budgetLimitUsd) && OnMicros(c.estimatedCostUsd)
  }

  ghost predicate PricedRecords(s: State) {
    forall d :: d in s.decisions ==> PricedRecord(s.decisions[d])
  }

  lemma EnginePrices(c: Call)
    requires c.Create? && EngineMade(c) && c.routing.Routed? && c.routing.result.Ok? && c.request.budgetLimitUsd >= 0.0
    ensures forall e :: e in c.routing.result.value.candidates ==>
              0.0 <= e.estimatedCostUsd <= RoundMoney(c.request.budgetLimitUsd) && OnMicros(e.estimatedCostUsd)
  {
    hide Decide, RoundMoney, OnMicros;
    var w: World :| c.routing == Route(w, c.p, c.request);
    var d := c.routing.result.value;
    forall e | e in d.candidates
      ensures 0.0 <= e.estimatedCostUsd <= RoundMoney(c.request.budgetLimitUsd) && OnMicros(e.estimatedCostUsd)
    {
      CandidatesWithinLimit(ContextFor(w, w.policies[c.routing.policyId], c.request), w.catalog.models, d, e);
    }
  }

  lemma CreatePrices(s: State, c: Call, t: State, a: Answer)
    requires Creates(s, c, t, a) && EngineMade(c) && PricedRecords(s) && c.request.budgetLimitUsd >= 0.0
    ensures PricedRecords(t)
  {
    EnginePrices(c);
    CreateWrites(s, c, t, a);
    hide RoundMoney, OnMicros, EngineMade, AddSlot, Indexed, Lookup, Insertable, WithinDailyBudget, CountHit;
  }

  lemma SettlePrices(s: State, c: Call, t: State, a: Answer)
    requires Settles(s, c, t, a) && PricedRecords(s)
    ensures PricedRecords(t)
  {
    hide RoundMoney, OnMicros, Settles, DropSlot, AddSpend, EventOf, RecordedResponse;
    SettleWrites(s, c, t, a);
  }

  lemma {:induction false} RunsPrice(calls: seq<Call>)
    requires Run(calls) && forall c :: c in calls ==> EngineMade(c)
    ensures PricedRecords(Exec(calls))
  {
    hide Apply, EngineMade, PricedRecord, Creates, Settles, Leaves;
    if calls != [] {
      var front, c := calls[..|calls| - 1], calls[|calls| - 1];
      RunsPrice(front);
      var s := Exec(front);
      var (t, a) := Apply(s, c);
      CallEffect(s, c, t, a);
      SettlesReports(s, c, t, a);
      assert c in calls;
      if Creates(s, c, t, a) {
        CreatePrices(s, c, t, a);
      } else if Settles(s, c, t, a) {
        SettlePrices(s, c, t, a);
      } else {
        SameTable(s, t);
      }
    }
  }

  lemma SameTable(s: State, t: State)
    requires Leaves(s, t)
    ensures t.decisions == s.decisions
  {
  }

  /** A client's report costs whole millionths, and at most the limit of its decision as money is rounded. */
  lemma ClientCost(p: Principal, s: State, c: Call)
    requires PricedRecords(s) && ClientCall(p, s, c) && OwnReport(p, s, c)
    ensures 0.0 <= c.outcome.finalCostUsd <= RoundMoney(s.decisions[c.outcome.decisionId].request.budgetLimitUsd)
    ensures OnMicros(c.outcome.finalCostUsd)
  {
    hide RoundMoney, Invocation, OnMicros;
    var r := s.decisions[c.outcome.decisionId];
    var turns, last :| |turns| == |r.response.decision.candidates|
      && c.outcome in Invocation(r.response, r.request, turns, last).sent;
    ReportsPriced(r.response, r.request, turns, last, c.outcome);
    assert PricedRecord(r);
    RoundMoneyNear(r.request.budgetLimitUsd);
    NoMicros();
  }

  lemma NoMicros()
    ensures OnMicros(0.0)
  {
  }

  lemma FrontOfRun(p: Principal, calls: seq<Call>, i: nat)
    requires i < |calls| && Run(calls) && OneCredential(p, calls) && ClientRun(p, calls)
    ensures Run(calls[..i]) && OneCredential(p, calls[..i]) && ClientRun(p, calls[..i])
    ensures GoodCall(Exec(calls[..i]), calls[i]) && EngineMade(calls[i]) && ClientCall(p, Exec(calls[..i]), calls[i])
    ensures calls[i].p.agentId == p.agentId ==> calls[i].p == p
  {
    hide EngineMade, GoodCall, Exec, ClientCall;
    RunIsGood(calls, i);
    assert calls[i] in calls;
    forall j | 0 <= j < i
      ensures ClientCall(p, Exec(calls[..i][..j]), calls[..i][j])
    {
      assert calls[..i][..j] == calls[..j];
    }
  }

  // ----- the spend of client runs

  /** On every day a client-run agent has spent a whole number of millionths. */
  ghost predicate SpendsMicros(p: Principal, s: State) {
    forall day :: SpentOn(p, s, day) >= 0.0 && OnMicros(SpentOn(p, s, day))
  }

  lemma ChargeOnMicros(p: Principal, s: State, c: Call, t: State, a: Answer)
    requires SpendsMicros(p, s) && Settles(s, c, t, a) && c.p == p
    requires PricedRecords(s) && ClientCall(p, s, c)
    ensures SpendsMicros(p, t)
  {
    assert OwnReport(p, s, c);
    hide Settles, PricedRecords, ClientCall, OnMicros, SpentOn;
    CounterCharged(p, s, c, t, a);
    ClientCost(p, s, c);
    forall day
      ensures SpentOn(p, t, day) >= 0.0 && OnMicros(SpentOn(p, t, day))
    {
      MicrosSum(SpentOn(p, s, day), c.outcome.finalCostUsd);
    }
  }

  lemma MicrosSum(x: real, y: real)
    requires OnMicros(x) && OnMicros(y) && x >= 0.0 && y >= 0.0
    ensures OnMicros(x + y)
  {
    hide RoundMoney;
    MicrosAdd(x, y);
  }

  lemma {:induction false} ClientsSpendMicros(p: Principal, calls: seq<Call>)
    requires Run(calls) && OneCredential(p, calls) && ClientRun(p, calls)
    ensures SpendsMicros(p, Exec(calls))
  {
    hide Apply, EngineMade, Creates, Settles, Leaves, OnMicros, ClientCall, PricedRecords, ClientRun, Run,
      OneCredential, GoodCall;
    if calls == [] {
      NoMicros();
    } else {
      var n := |calls| - 1;
      FrontOfRun(p, calls, n);
      var front, c := calls[..n], calls[n];
      ClientsSpendMicros(p, front);
      ClientRunIsEngineMade(p, front);
      RunsPrice(front);
      var s := Exec(front);
      var (t, a) := Apply(s, c);
      CallEffect(s, c, t, a);
      if Settles(s, c, t, a) && c.p == p {
        ChargeOnMicros(p, s, c, t, a);
      } else {
        hide SpentOn;
        CountersAlone(p, s, c, t, a);
      }
    }
  }

  lemma ClientRunIsEngineMade(p: Principal, calls: seq<Call>)
    requires ClientRun(p, calls)
    ensures forall c :: c in calls ==> EngineMade(c)
  {
  }

  /** Rounding raises none of the agent's budget limits. */
  ghost predicate LimitsRound(p: Principal, calls: seq<Call>) {
    forall c :: c in calls && c.Create? && c.p == p ==> RoundMoney(c.request.budgetLimitUsd) <= c.request.budgetLimitUsd
  }

  /** With whole millionths spent, what fits into the budget exactly also fits into it rounded. */
  lemma RoundedFits(spent: real, limit: real, budget: real)
    requires OnMicros(spent) && spent >= 0.0 && limit >= 0.0 && spent + limit <= budget
    ensures 0.0 <= RoundMoney(limit) <= RoundMoney(budget) - spent
  {
    hide RoundMoney, OnMicros;
    MicrosAdd(spent, limit);
    RoundMoneyMonotone(spent + limit, budget);
    RoundMoneyNear(limit);
  }

  lemma ClientCallCovered(p: Principal, s: State, c: Call)
    requires SpendsMicros(p, s) && PricedRecords(s) && ClientCall(p, s, c) && GoodCall(s, c)
    ensures CoveredCall(p, s, c, RoundMoney, RoundMoney(p.dailyBudgetUsd))
    ensures (c.Create? && c.p == p ==> RoundMoney(c.request.budgetLimitUsd) <= c.request.budgetLimitUsd) ==>
              CoveredCall(p, s, c, RoundMoney, p.dailyBudgetUsd)
  {
    hide RoundMoney, OnMicros, Spent, PricedRecords, ClientCall, FreshId;
    if OwnReport(p, s, c) {
      ClientCost(p, s, c);
    }
    if c.Create? && c.p == p && WithinDailyBudget(s, p, c.request, c.clock.day) {
      RoundedFits(SpentOn(p, s, c.clock.day), c.request.budgetLimitUsd, p.dailyBudgetUsd);
    }
  }

  lemma ClientRunCovered(p: Principal, calls: seq<Call>)
    requires Run(calls) && OneCredential(p, calls) && ClientRun(p, calls)
    ensures Covered(p, calls, RoundMoney, RoundMoney(p.dailyBudgetUsd))
    ensures LimitsRound(p, calls) ==> Covered(p, calls, RoundMoney, p.dailyBudgetUsd)
  {
    hide EngineMade, RoundMoney, Exec, Run, OneCredential, ClientRun, CoveredCall, ClientCall, PricedRecords,
      SpendsMicros, GoodCall;
    forall i | 0 <= i < |calls|
      ensures CoveredCall(p, Exec(calls[..i]), calls[i], RoundMoney, RoundMoney(p.dailyBudgetUsd))
      ensures LimitsRound(p, calls) ==> CoveredCall(p, Exec(calls[..i]), calls[i], RoundMoney, p.dailyBudgetUsd)
    {
      FrontOfRun(p, calls, i);
      ClientsSpendMicros(p, calls[..i]);
      ClientRunIsEngineMade(p, calls[..i]);
      RunsPrice(calls[..i]);
      ClientCallCovered(p, Exec(calls[..i]), calls[i]);
      assert calls[i] in calls;
    }
  }

  /** Agents that take the engine's decisions and report as the example client does spend at most their concurrency
      limit times their daily budget as money is rounded, whatever their limits and whatever fails on the way. */
  lemma EndToEndSpendBound(p: Principal, calls: seq<Call>, day: int)
    requires Run(calls) && OneCredential(p, calls) && ClientRun(p, calls) && p.Valid()
    ensures SpentOn(p, Exec(calls), day) <= p.concurrentLimit as real * RoundMoney(p.dailyBudgetUsd)
  {
    hide *;
    ClientRunCovered(p, calls);
    BudgetNonNegative(p);
    RoundMoneyNear(p.dailyBudgetUsd);
    CoveredSpendBound(p, calls, RoundMoney, RoundMoney(p.dailyBudgetUsd), day);
  }

  /** On one clock, at most one rounded budget for each decision that can be settled in a day. */
  lemma ClockedClientBound(p: Principal, calls: seq<Call>, day: int)
    requires Run(calls) && Clocked(calls) && OneCredential(p, calls) && ClientRun(p, calls) && p.Valid()
    ensures SpentOn(p, Exec(calls), day) <= MostSettled(p) as real * RoundMoney(p.dailyBudgetUsd)
  {
    hide *;
    ClientRunCovered(p, calls);
    BudgetNonNegative(p);
    RoundMoneyNear(p.dailyBudgetUsd);
    ClockedSpendBound(p, calls, RoundMoney, RoundMoney(p.dailyBudgetUsd), day);
  }

  /** Even where rounding raises the budget, the budget itself bounds the runs in which it raises no limit. */
  lemma EndToEndLimitsBound(p: Principal, calls: seq<Call>, day: int)
    requires Run(calls) && OneCredential(p, calls) && ClientRun(p, calls) && p.Valid() && LimitsRound(p, calls)
    ensures SpentOn(p, Exec(calls), day) <= p.concurrentLimit as real * p.dailyBudgetUsd
  {
    hide *;
    ClientRunCovered(p, calls);
    BudgetNonNegative(p);
    CoveredSpendBound(p, calls, RoundMoney, p.dailyBudgetUsd, day);
  }

  /** The excess over the unrounded bound is at most half a millionth per slot. */
  lemma EndToEndSpendNear(p: Principal, calls: seq<Call>, day: int)
    requires Run(calls) && OneCredential(p, calls) && ClientRun(p, calls) && p.Valid()
    ensures SpentOn(p, Exec(calls), day) <= p.concurrentLimit as real * (p.dailyBudgetUsd + 0.0000005)
  {
    hide *;
    EndToEndSpendBound(p, calls, day);
    BudgetNonNegative(p);
    RoundMoneyNear(p.dailyBudgetUsd);
    ProductMonotone(p.concurrentLimit as real, RoundMoney(p.dailyBudgetUsd), p.dailyBudgetUsd + 0.0000005);
  }

  lemma ProductMonotone(n: real, x: real, y: real)
    requires n >= 0.0 && x <= y
    ensures n * x <= n * y
  {
  }

  /** Budget limits in whole millionths are never raised. */
  lemma WholeMicrosRound(p: Principal, calls: seq<Call>, micros: Call -> int)
    requires forall c :: c in calls && c.Create? && c.p == p ==>
             c.request.budgetLimitUsd == micros(c) as real / 1000000.0
    ensures LimitsRound(p, calls)
  {
    hide RoundMoney;
    forall c | c in calls && c.Create? && c.p == p
      ensures RoundMoney(c.request.budgetLimitUsd) <= c.request.budgetLimitUsd
    {
      RoundMoneyGrid(micros(c));
    }
  }

  // ----- the bound is reached

  function PlainWorld(p: Principal): World {
    World(map[PolicyIdFor(p, PlainRequest(p.agentId, p.dailyBudgetUsd)) := PLAIN_POLICY],
          Catalog("v", [FreeModel(p.dailyBudgetUsd)], map[]), map[], 0.0, 1)
  }

  lemma PlainWorldIsValid(p: Principal)
    requires p.Valid()
    ensures PlainWorld(p).Valid()
  {
    PlainIsValid(p.agentId, p.dailyBudgetUsd);
    hide FreeModel, CatalogModel.Valid, RoutingPolicy.Valid, PolicyIdFor;
  }

  /** The plan of asking for the whole budget and being answered by the first candidate. */
  lemma ClientPlan(p: Principal) returns (plan: Plan)
    requires p.Valid()
    ensures plan.Valid() && plan.p == p && plan.cost == RoundMoney(p.dailyBudgetUsd)
    ensures Route(PlainWorld(p), p, plan.request) == Routed(plan.policyId, Result.Ok(plan.decision))
    ensures |plan.decision.candidates| == 1
    ensures forall id ::
            plan.OutcomeFor(id) in Invocation(plan.ResponseFor(id), plan.request, [Turn(Fine, Fine)], Fine).sent
  {
    hide Decide, CandidateOf, RoundMoney, Route;
    var b := p.dailyBudgetUsd;
    var ctx, m, request := PlainContext(p.agentId, b), FreeModel(b), PlainRequest(p.agentId, b);
    SomeRequestIsServed(p.agentId, b);
    var d, c := Decide(ctx, [m]).value, CandidateOf(ctx, m, 1);
    FreeModelCost(p.agentId, b);
    CandidatePrice(ctx, m, 1);
    CandidateNamed(ctx, m);
    PlainIsValid(p.agentId, b);
    CandidateInRange(ctx, m, 1);
    RoundMoneyNear(b);
    PlainRoute(p);
    PlainProvider();
    plan := Plan(p, request, PolicyIdFor(p, request), d, GoodAttempt(c, "p", request), Some("p/m"), RoundMoney(b));
    forall id
      ensures plan.OutcomeFor(id) in Invocation(plan.ResponseFor(id), request, [Turn(Fine, Fine)], Fine).sent
    {
      AnsweredFirst(plan.ResponseFor(id), request, c, "p");
    }
  }

  lemma CandidateNamed(ctx: Context, m: CatalogModel)
    ensures CandidateOf(ctx, m, 1).modelId == m.modelId
  {
    hide RoundMoney, FinalCost, ConfidenceOf, ExpectedTtfb, Scores, AgeSeconds;
  }

  lemma PlainProvider()
    ensures ProviderOf("p/m") == Some("p")
  {
    ProviderIsBeforeFirstSlash("p/m", 1);
    assert "p/m"[..1] == "p";
  }

  lemma PlainRoute(p: Principal)
    ensures var request := PlainRequest(p.agentId, p.dailyBudgetUsd);
            Route(PlainWorld(p), p, request)
            == Routed(PolicyIdFor(p, request),
                      Decide(PlainContext(p.agentId, p.dailyBudgetUsd), [FreeModel(p.dailyBudgetUsd)]))
  {
    hide Decide, PolicyIdFor;
  }

  /** A client whose only candidate answers, and whose report arrives, has posted that one report. */
  lemma AnsweredFirst(response: Response, request: DecisionRequest, c: Candidate, provider: string)
    requires response.decision.candidates == [c] && ProviderOf(c.modelId) == Some(provider)
    ensures Invocation(response, request, [Turn(Fine, Fine)], Fine).sent ==
            [Outcome(response.decisionId, request.agentId, request.requestId, Success,
                     [GoodAttempt(c, provider, request)],
                     Some(c.modelId), 0, c.expectedTtfbMs, c.estimatedCostUsd)]
  {
    hide ProviderOf;
    var good := GoodAttempt(c, provider, request);
    assert [] + [good] == [good];
    assert TotalLatency([good]) == c.expectedTtfbMs by { assert [good][..0] == []; }
  }

  lemma PlannedIsClientRun(plan: Plan, calls: seq<Call>, w: World)
    requires PlannedRun(plan, calls) && |plan.decision.candidates| == 1
    requires Route(w, plan.p, plan.request) == Routed(plan.policyId, Result.Ok(plan.decision))
    requires forall id ::
             plan.OutcomeFor(id) in Invocation(plan.ResponseFor(id), plan.request, [Turn(Fine, Fine)], Fine).sent
    ensures ClientRun(plan.p, calls)
    ensures forall c :: c in calls && c.Create? ==>
            c.request == plan.request && c.routing == Route(w, plan.p, c.request)
  {
    hide Route, Invocation, Exec;
    forall i | 0 <= i < |calls|
      ensures ClientCall(plan.p, Exec(calls[..i]), calls[i]) && EngineMade(calls[i])
      ensures var c := calls[i];
              c.Create? ==> c.request == plan.request && c.routing == Route(w, plan.p, c.request)
    {
      assert Planned(plan, Exec(calls[..i]), calls[i]);
    }
  }

  lemma PlanRequestValid(plan: Plan)
    requires plan.Valid()
    ensures plan.request.Valid()
  {
  }

  /** For every credential some client run on one clock reaches the bound of these runs: valid requests, each decided
      by the engine from the same valid catalog and policy. */
  lemma ClientBoundReached(p: Principal) returns (calls: seq<Call>, day: int)
    requires p.Valid()
    ensures Run(calls) && Clocked(calls) && OneCredential(p, calls) && ClientRun(p, calls)
    ensures PlainWorld(p).Valid()
    ensures forall c :: c in calls && c.Create? ==> c.request.Valid() && c.routing == Route(PlainWorld(p), p, c.request)
    ensures SpentOn(p, Exec(calls), day) == MostSettled(p) as real * RoundMoney(p.dailyBudgetUsd)
  {
    hide *;
    var plan := ClientPlan(p);
    calls, day := PlanSpends(plan);
    PlannedIsClientRun(plan, calls, PlainWorld(p));
    PlainWorldIsValid(p);
    assert plan.request.Valid() by { PlanRequestValid(plan); }
  }

  /** An amount bounds all client runs of a credential exactly when it is at least the most they can spend. */
  lemma ClientsWithin(p: Principal, cap: real)
    requires p.Valid()
    ensures (forall calls: seq<Call>, day: int ::
               Run(calls) && Clocked(calls) && OneCredential(p, calls) && ClientRun(p, calls) ==>
                 SpentOn(p, Exec(calls), day) <= cap)
            <==> MostSettled(p) as real * RoundMoney(p.dailyBudgetUsd) <= cap
  {
    hide *;
    var most := MostSettled(p) as real * RoundMoney(p.dailyBudgetUsd);
    forall calls: seq<Call>, day: int | Run(calls) && Clocked(calls) && OneCredential(p, calls) && ClientRun(p, calls)
      ensures SpentOn(p, Exec(calls), day) <= most
    {
      ClockedClientBound(p, calls, day);
    }
    var calls, day := ClientBoundReached(p);
  }

  /** The daily budget itself, times the slots, bounds all client runs of a credential exactly when it is at least the
      rounded budget times the decisions that can be settled in a day; a look at the credential decides it. With no more
      slots than the rate limit lets settle in a day, that is when rounding does not raise the budget. */
  lemma BudgetBoundsClients(p: Principal)
    requires p.Valid()
    ensures var (n, b) := (p.concurrentLimit as real, p.dailyBudgetUsd);
            && ((forall calls: seq<Call>, day: int ::
                   Run(calls) && Clocked(calls) && OneCredential(p, calls) && ClientRun(p, calls) ==>
                     SpentOn(p, Exec(calls), day) <= n * b)
                <==> MostSettled(p) as real * RoundMoney(b) <= n * b)
            && (p.concurrentLimit <= MINUTES_A_DAY * p.rateLimitRpm ==>
                  (MostSettled(p) as real * RoundMoney(b) <= n * b <==> RoundMoney(b) <= b))
  {
    hide *;
    var b := p.dailyBudgetUsd;
    ClientsWithin(p, p.concurrentLimit as real * b);
    if p.concurrentLimit <= MINUTES_A_DAY * p.rateLimitRpm {
      FewSlots(p, RoundMoney(b), b);
    }
  }

  lemma FewSlots(p: Principal, x: real, y: real)
    requires p.Valid() && p.concurrentLimit <= MINUTES_A_DAY * p.rateLimitRpm
    ensures MostSettled(p) as real * x <= p.concurrentLimit as real * y <==> x <= y
  {
    assert MostSettled(p) == p.concurrentLimit;
    hide *;
    FactorCancels(p.concurrentLimit as real, x, y);
  }

  lemma FactorCancels(n: real, x: real, y: real)
    requires n > 0.0
    ensures n * x <= n * y <==> x <= y
  {
    if x <= y {
      ProductMonotone(n, x, y);
    } else {
      ProductStrict(n, y, x);
    }
  }

  lemma ProductStrict(n: real, x: real, y: real)
    requires n > 0.0 && x < y
    ensures n * x < n * y
  {
  }
}
