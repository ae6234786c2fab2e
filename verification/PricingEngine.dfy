/**
 The decision engine. The functions say what the decision for a catalog is; the method
 `CalculateRoutingDecision` computes it with the loop, counters and in-place updates of
 the service. EngineProperties proves what callers rely on.
 */
module PricingEngine {
  import opened Wrappers
  import opened Rounding
  import opened Arithmetic
  import opened Schemas
  import opened Ranking
  import TokenEstimator

  function DefaultBaseline(d: Dimension): real {
    match d
    case TokenCost => 0.002
    case Qps => 40.0
    case Latency => 800.0
    case Accuracy => 0.8
  }

  // ----- scores

  function BenefitScore(value: real, baseline: real): real {
    var safeValue := Max(value, 0.0);
    var safeBaseline := Max(baseline, 0.000001);
    Clamp(safeValue / (safeValue + safeBaseline))
  }

  function CostScore(value: real, baseline: real): real {
    var safeValue := Max(value, 0.0);
    var safeBaseline := Max(baseline, 0.000001);
    if safeValue == 0.0 then 1.0 else Clamp(safeBaseline / (safeValue + safeBaseline))
  }

  function NormalizeWeights(w: PolicyWeights): PolicyWeights {
    var sum := Max(0.0, w.tokenCost) + Max(0.0, w.qps) + Max(0.0, w.latency) + Max(0.0, w.accuracy);
    var total := if sum == 0.0 then 1.0 else sum;
    PolicyWeights(Share(Max(0.0, w.tokenCost), total), Share(Max(0.0, w.qps), total),
                  Share(Max(0.0, w.latency), total), Share(Max(0.0, w.accuracy), total))
  }

  function WeightedScore(scores: ScoreBreakdown, w: PolicyWeights): real {
    Scaled(scores.tokenCost, w.tokenCost) + Scaled(scores.qps, w.qps)
    + Scaled(scores.latency, w.latency) + Scaled(scores.accuracy, w.accuracy)
    - scores.freshnessPenalty - scores.degradedPenalty + scores.fallbackBonus
  }

  function Confidence(scores: ScoreBreakdown, w: PolicyWeights): real {
    Round4(Clamp(WeightedScore(scores, w)))
  }

  // ----- one call's inputs

  /** Everything one call reads besides the model it is looking at. */
  datatype Context = Context(
    request: DecisionRequest,
    policy: RoutingPolicy,
    baseline: map<Dimension, real>,
    signals: map<string, Signal>,
    now: real,
    freshnessSeconds: int)
  {
    function SignalOf(m: CatalogModel): Signal {
      if m.modelId in signals then signals[m.modelId] else NO_SIGNAL
    }

    function Baseline(d: Dimension): real {
      if d in baseline then baseline[d] else DefaultBaseline(d)
    }

    function Hint(): real { request.throughputHintQps.GetOr(0.0) }

    function QpsOf(m: CatalogModel): real { SignalOf(m).throughputHintQps.GetOr(m.throughputHintQps) }

    function SuccessRateOf(m: CatalogModel): real { SignalOf(m).successRate.GetOr(1.0) }

    ghost predicate Valid() {
      request.Valid() && policy.Valid() && freshnessSeconds >= 0 && forall id :: id in signals ==> signals[id].Valid()
    }
  }

  /** `_signal_age_seconds`, with the clock reading passed in. */
  function AgeSeconds(signal: Signal, now: real): Option<int> {
    match signal.lastProbeAt
    case None => None
    case Some(observedAt) => Some(MaxInt(0, Trunc(now - observedAt)))
  }

  // ----- filters

  function MatchesCapabilities(m: CatalogModel, request: DecisionRequest): Option<string> {
    var (have, need) := (m.capabilities, request.required);
    if need.vision && !have.vision then Some("vision")
    else if need.reasoning && !have.reasoning then Some("reasoning")
    else if need.toolCalling && !have.toolCalling then Some("tool_calling")
    else if need.jsonMode && !have.jsonMode then Some("json_mode")
    else if request.taskType !in m.supportedTaskTypes then Some("task_type")
    else if request.contextWindowTokens > m.contextWindowTokens then Some("context_window")
    else None
  }

  /** An absent list and an empty one both mean "no restriction". */
  predicate FailsProvider(ctx: Context, m: CatalogModel) {
    var (allow, deny) := (ctx.request.providerAllowlist, ctx.request.providerDenylist);
    || (allow.Some? && allow.value != [] && m.provider !in allow.value)
    || (deny.Some? && deny.value != [] && m.provider in deny.value)
  }

  predicate FailsCapability(ctx: Context, m: CatalogModel) {
    MatchesCapabilities(m, ctx.request).Some?
  }

  predicate FailsCapacity(ctx: Context, m: CatalogModel) {
    ctx.Hint() > 0.0 && ctx.QpsOf(m) > 0.0 && ctx.Hint() > ctx.QpsOf(m) * m.hardCapacityFactor
  }

  predicate FailsBudget(ctx: Context, m: CatalogModel) {
    FinalCost(ctx, m) > ctx.request.budgetLimitUsd
  }

  predicate FailsLatency(ctx: Context, m: CatalogModel) {
    ctx.request.latencySloMs.Some? && ctx.request.latencySloMs.value != 0
      && ExpectedTtfb(ctx, m) > ctx.request.latencySloMs.value
  }

  predicate Fails(ctx: Context, m: CatalogModel, reason: Reason) {
    match reason
    case ProviderFiltered => FailsProvider(ctx, m)
    case CapabilityFiltered => FailsCapability(ctx, m)
    case CapacityFiltered => FailsCapacity(ctx, m)
    case BudgetFiltered => FailsBudget(ctx, m)
    case LatencyFiltered => FailsLatency(ctx, m)
  }

  const FILTER_ORDER := [ProviderFiltered, CapabilityFiltered, CapacityFiltered, BudgetFiltered, LatencyFiltered]

  /** The first filter, from position `from` of the filter order on, that the model fails. */
  function FirstFailureFrom(ctx: Context, m: CatalogModel, from: nat): Option<Reason>
    requires from <= |FILTER_ORDER|
    decreases |FILTER_ORDER| - from
  {
    if from == |FILTER_ORDER| then None
    else if Fails(ctx, m, FILTER_ORDER[from]) then Some(FILTER_ORDER[from])
    else FirstFailureFrom(ctx, m, from + 1)
  }

  function FirstFailure(ctx: Context, m: CatalogModel): Option<Reason> {
    FirstFailureFrom(ctx, m, 0)
  }

  predicate Survives(ctx: Context, m: CatalogModel) {
    forall reason :: !Fails(ctx, m, reason)
  }

  // ----- pricing

  function InputTokens(ctx: Context, m: CatalogModel): int {
    TokenEstimator.EstimateTokens(ctx.request.inputChars, m.modelId, ctx.request.language)
  }

  function OutputTokens(ctx: Context): int { MaxInt(1, ctx.request.expectedOutputTokens) }

  function TotalTokens(ctx: Context, m: CatalogModel): int {
    MaxInt(1, InputTokens(ctx, m) + OutputTokens(ctx))
  }

  /** The first tier that covers the token count, or else the model's list prices. */
  function PickTier(tiers: seq<PricingTier>, m: CatalogModel, totalTokens: int): PricingTier {
    if tiers == [] then PricingTier(None, m.inPrice1k, m.outPrice1k)
    else if tiers[0].uptoTokens.None? || totalTokens <= tiers[0].uptoTokens.value then tiers[0]
    else PickTier(tiers[1..], m, totalTokens)
  }

  function TokenCharge(tokens: int, price1k: real): real { Scaled(tokens as real / 1000.0, price1k) }

  /** Tokens at the tier's prices, plus the cold-start charge of a request without a throughput hint. */
  function ListCost(ctx: Context, m: CatalogModel): real {
    var tier := PickTier(m.pricingTiers, m, TotalTokens(ctx, m));
    TokenCharge(InputTokens(ctx, m), tier.inPrice1k)
    + TokenCharge(OutputTokens(ctx), tier.outPrice1k)
    + (if ctx.Hint() <= 0.0 then m.coldStartCostUsd else 0.0)
  }

  function DiscountRate(ctx: Context, m: CatalogModel): real {
    if TotalTokens(ctx, m) >= m.longTextThresholdTokens && m.longTextDiscountRate > 0.0
    then m.longTextDiscountRate else 0.0
  }

  function PremiumRate(ctx: Context, m: CatalogModel): real {
    var (hint, qps) := (ctx.Hint(), ctx.QpsOf(m));
    if hint > 0.0 && qps > 0.0 && hint / qps > m.burstQpsThreshold
    then Scaled(m.concurrencyPremiumRate, Min(hint / qps - m.burstQpsThreshold, 1.0)) else 0.0
  }

  function Discounted(list: real, rate: real): real { list - Scaled(list, rate) }

  function WithPremium(cost: real, rate: real): real { cost + Scaled(cost, rate) }

  function FinalCost(ctx: Context, m: CatalogModel): real {
    Max(0.0, WithPremium(Discounted(ListCost(ctx, m), DiscountRate(ctx, m)), PremiumRate(ctx, m)))
  }

  function PerThousand(cost: real, tokens: int): real
    requires tokens >= 1
  {
    if cost == 0.0 then 0.0 else cost * 1000.0 / tokens as real
  }

  function UnitCost(ctx: Context, m: CatalogModel): real {
    PerThousand(FinalCost(ctx, m), TotalTokens(ctx, m))
  }

  function ExpectedTtfb(ctx: Context, m: CatalogModel): int {
    ctx.SignalOf(m).ttfbP50Ms.GetOr(m.defaultTtfbMs) + (if ctx.Hint() <= 0.0 then m.coldStartMs else 0)
  }

  // ----- candidates

  function FreshnessPenalty(ctx: Context, m: CatalogModel): real {
    match AgeSeconds(ctx.SignalOf(m), ctx.now)
    case None => Round4(ctx.policy.freshnessPenalty)
    case Some(age) =>
      if age > ctx.freshnessSeconds then
        Round4(Scaled(ctx.policy.freshnessPenalty, Min(1.0, age as real / MaxInt(ctx.freshnessSeconds, 1) as real)))
      else 0.0
  }

  predicate Degraded(signal: Signal) { signal.degradedReason.Some? && signal.degradedReason.value != "" }

  function DegradedPenalty(ctx: Context, m: CatalogModel): real {
    Round4(if Degraded(ctx.SignalOf(m)) then ctx.policy.degradedPenalty else 0.0)
  }

  function ScoresOf(ctx: Context, unitCost: real, qps: real, ttfb: int, accuracy: real, successRate: real,
                    freshnessPenalty: real, degradedPenalty: real): ScoreBreakdown
  {
    ScoreBreakdown(
      Round4(CostScore(unitCost, ctx.Baseline(TokenCost))),
      Round4(BenefitScore(qps, ctx.Baseline(Qps))),
      Round4(CostScore(ttfb as real, ctx.Baseline(Latency))),
      Round4(BenefitScore(Scaled(accuracy, successRate), ctx.Baseline(Accuracy))),
      freshnessPenalty,
      degradedPenalty,
      Round4(Scaled(ctx.policy.fallbackBonus, successRate)))
  }

  function Scores(ctx: Context, m: CatalogModel): ScoreBreakdown {
    ScoresOf(ctx, UnitCost(ctx, m), ctx.QpsOf(m), ExpectedTtfb(ctx, m), m.accuracy, ctx.SuccessRateOf(m),
             FreshnessPenalty(ctx, m), DegradedPenalty(ctx, m))
  }

  function ConfidenceOf(ctx: Context, m: CatalogModel): real {
    Confidence(Scores(ctx, m), NormalizeWeights(ctx.policy.weights))
  }

  function CandidateOf(ctx: Context, m: CatalogModel, rank: int): Candidate {
    Candidate(rank, m.modelId, m.provider, RoundMoney(FinalCost(ctx, m)), ExpectedTtfb(ctx, m), ConfidenceOf(ctx, m),
              AgeSeconds(ctx.SignalOf(m), ctx.now), ctx.SignalOf(m).degradedReason, Scores(ctx, m))
  }

  // ----- whole catalog

  function Survivors(ctx: Context, models: seq<CatalogModel>): seq<Candidate> {
    if models == [] then []
    else
      var earlier := Survivors(ctx, models[..|models| - 1]);
      var m := models[|models| - 1];
      if FirstFailure(ctx, m).None? then earlier + [CandidateOf(ctx, m, |earlier| + 1)] else earlier
  }

  function Rejections(ctx: Context, models: seq<CatalogModel>): seq<Rejection> {
    if models == [] then []
    else
      var earlier := Rejections(ctx, models[..|models| - 1]);
      var m := models[|models| - 1];
      match FirstFailure(ctx, m)
      case Some(reason) => earlier + [Rejection(m.modelId, m.provider, reason)]
      case None => earlier
  }

  function CountReason(rejections: seq<Rejection>, reason: Reason): nat {
    if rejections == [] then 0
    else
      CountReason(rejections[..|rejections| - 1], reason)
      + (if rejections[|rejections| - 1].reason == reason then 1 else 0)
  }

  /** The signal ages of the models that reached pricing; an unknown age counts as twice the freshness budget. */
  function FreshnessValues(ctx: Context, models: seq<CatalogModel>): seq<int> {
    if models == [] then []
    else
      var earlier := FreshnessValues(ctx, models[..|models| - 1]);
      var m := models[|models| - 1];
      if FailsProvider(ctx, m) || FailsCapability(ctx, m) then earlier
      else earlier + [AgeSeconds(ctx.SignalOf(m), ctx.now).GetOr(ctx.freshnessSeconds * 2)]
  }

  function Least(values: seq<int>): Option<int> {
    if values == [] then None
    else
      match Least(values[..|values| - 1])
      case None => Some(values[|values| - 1])
      case Some(v) => Some(if values[|values| - 1] < v then values[|values| - 1] else v)
  }

  function Rerank(cs: seq<Candidate>): (r: seq<Candidate>)
    ensures |r| == |cs|
    ensures forall i :: 0 <= i < |r| ==> r[i] == cs[i].(rank := i + 1)
  {
    seq(|cs|, i requires 0 <= i < |cs| => cs[i].(rank := i + 1))
  }

  function Take(cs: seq<Candidate>, k: nat): seq<Candidate> {
    if k <= |cs| then cs[..k] else cs
  }

  function SumConfidence(cs: seq<Candidate>): real {
    if cs == [] then 0.0 else SumConfidence(cs[..|cs| - 1]) + cs[|cs| - 1].confidence
  }

  function SafetyScore(cs: seq<Candidate>): real {
    if cs == [] then 0.0 else Round4(Clamp(SumConfidence(cs) / |cs| as real))
  }

  predicate AllValid(cs: seq<Candidate>) { forall c :: c in cs ==> c.Valid() }

  datatype EngineError = InvalidCandidate | InvalidObservability | NoSurvivors

  function Ladder(ctx: Context, models: seq<CatalogModel>): seq<Candidate> {
    Rerank(Take(StableSort(Survivors(ctx, models)), ctx.policy.maxCandidates))
  }

  function Observed(ctx: Context, models: seq<CatalogModel>): Observability {
    var rejections := Rejections(ctx, models);
    var returned := Ladder(ctx, models);
    Observability(|models|, |returned|,
                  CountReason(rejections, BudgetFiltered), CountReason(rejections, LatencyFiltered),
                  CountReason(rejections, CapacityFiltered), CountReason(rejections, CapabilityFiltered),
                  CountReason(rejections, ProviderFiltered),
                  Least(FreshnessValues(ctx, models)), SafetyScore(returned))
  }

  /** The observability record is built, and may raise, before an empty ladder is refused. */
  function Decide(ctx: Context, models: seq<CatalogModel>): Result<Decision, EngineError> {
    if !AllValid(Survivors(ctx, models)) then Err(InvalidCandidate)
    else if !Observed(ctx, models).Valid() then Err(InvalidObservability)
    else if Ladder(ctx, models) == [] then Err(NoSurvivors)
    else Ok(Decision(Ladder(ctx, models), Rejections(ctx, models), Observed(ctx, models)))
  }

  // ----- the engine as it runs

  /** The pricing block: `base_cost` and `ttfb_ms` are adjusted step by step. */
  method PriceModel(ctx: Context, m: CatalogModel) returns (cost: real, ttfb: int, totalTokens: int)
    ensures cost == FinalCost(ctx, m) && ttfb == ExpectedTtfb(ctx, m) && totalTokens == TotalTokens(ctx, m)
  {
    var request, hint, qps := ctx.request, ctx.Hint(), ctx.QpsOf(m);
    ttfb := ctx.SignalOf(m).ttfbP50Ms.GetOr(m.defaultTtfbMs);
    var inputTokens := TokenEstimator.EstimateTokens(request.inputChars, m.modelId, request.language);
    var outputTokens := MaxInt(1, request.expectedOutputTokens);
    totalTokens := MaxInt(1, inputTokens + outputTokens);
    var tier := PickTier(m.pricingTiers, m, totalTokens);
    cost := TokenCharge(inputTokens, tier.inPrice1k);
    cost := cost + TokenCharge(outputTokens, tier.outPrice1k);
    if hint <= 0.0 {
      ttfb := ttfb + m.coldStartMs;
      cost := cost + m.coldStartCostUsd;
    }
    assert cost == ListCost(ctx, m);
    if totalTokens >= m.longTextThresholdTokens && m.longTextDiscountRate > 0.0 {
      cost := Discounted(cost, m.longTextDiscountRate);
    }
    assert cost == Discounted(ListCost(ctx, m), DiscountRate(ctx, m));
    if hint > 0.0 && qps > 0.0 && hint / qps > m.burstQpsThreshold {
      var overage := Min(hint / qps - m.burstQpsThreshold, 1.0);
      cost := WithPremium(cost, Scaled(m.concurrencyPremiumRate, overage));
    }
    cost := Max(0.0, cost);
  }

  method PenalizeAge(ctx: Context, m: CatalogModel) returns (freshnessPenalty: real)
    ensures freshnessPenalty == FreshnessPenalty(ctx, m)
  {
    var age := AgeSeconds(ctx.SignalOf(m), ctx.now);
    freshnessPenalty := 0.0;
    if age.None? {
      freshnessPenalty := Round4(ctx.policy.freshnessPenalty);
    } else if age.value > ctx.freshnessSeconds {
      freshnessPenalty := Round4(
        Scaled(ctx.policy.freshnessPenalty, Min(1.0, age.value as real / MaxInt(ctx.freshnessSeconds, 1) as real)));
    }
  }

  /** The scoring block of a model that passed every filter. */
  method ScoreModel(ctx: Context, m: CatalogModel, cost: real, ttfb: int, totalTokens: int, rank: int)
    returns (c: Candidate)
    requires cost == FinalCost(ctx, m) && ttfb == ExpectedTtfb(ctx, m) && totalTokens == TotalTokens(ctx, m)
    ensures c == CandidateOf(ctx, m, rank)
  {
    var policy, signal := ctx.policy, ctx.SignalOf(m);
    var qps, successRate := ctx.QpsOf(m), ctx.SuccessRateOf(m);
    var age := AgeSeconds(signal, ctx.now);
    var unitCost := PerThousand(cost, totalTokens);
    var freshnessPenalty := PenalizeAge(ctx, m);
    var degradedPenalty := Round4(if Degraded(signal) then policy.degradedPenalty else 0.0);
    var scores := ScoresOf(ctx, unitCost, qps, ttfb, m.accuracy, successRate, freshnessPenalty, degradedPenalty);
    c := Candidate(rank, m.modelId, m.provider, RoundMoney(cost), ttfb,
                   Confidence(scores, NormalizeWeights(policy.weights)),
                   age, signal.degradedReason, scores);
  }

  /** One pass of the filters in the order the loop tries them. */
  method FilterModel(ctx: Context, m: CatalogModel)
    returns (verdict: Option<Reason>, reachedSignal: bool, cost: real, ttfb: int, totalTokens: int)
    requires ctx.request.budgetLimitUsd >= 0.0
    ensures verdict == FirstFailure(ctx, m)
    ensures reachedSignal == !(FailsProvider(ctx, m) || FailsCapability(ctx, m))
    ensures verdict.None? ==>
            cost == FinalCost(ctx, m) && ttfb == ExpectedTtfb(ctx, m) && totalTokens == TotalTokens(ctx, m)
  {
    FirstFailureCases(ctx, m);
    var request := ctx.request;
    reachedSignal, cost, ttfb, totalTokens := false, 0.0, 0, 0;
    var (allow, deny) := (request.providerAllowlist, request.providerDenylist);
    if allow.Some? && allow.value != [] && m.provider !in allow.value {
      return Some(ProviderFiltered), reachedSignal, cost, ttfb, totalTokens;
    }
    if deny.Some? && deny.value != [] && m.provider in deny.value {
      return Some(ProviderFiltered), reachedSignal, cost, ttfb, totalTokens;
    }
    var gap := MatchesCapabilities(m, request);
    if gap.Some? {
      return Some(CapabilityFiltered), reachedSignal, cost, ttfb, totalTokens;
    }
    reachedSignal := true;
    var hint, qps := ctx.Hint(), ctx.QpsOf(m);
    if hint > 0.0 && qps > 0.0 && hint > qps * m.hardCapacityFactor {
      return Some(CapacityFiltered), reachedSignal, cost, ttfb, totalTokens;
    }
    cost, ttfb, totalTokens := PriceModel(ctx, m);
    if request.budgetLimitUsd == 0.0 && cost > 0.0 {
      return Some(BudgetFiltered), reachedSignal, cost, ttfb, totalTokens;
    }
    if request.budgetLimitUsd > 0.0 && cost > request.budgetLimitUsd {
      return Some(BudgetFiltered), reachedSignal, cost, ttfb, totalTokens;
    }
    if request.latencySloMs.Some? && request.latencySloMs.value != 0 && ttfb > request.latencySloMs.value {
      return Some(LatencyFiltered), reachedSignal, cost, ttfb, totalTokens;
    }
    verdict := None;
  }

  method CalculateRoutingDecision(ctx: Context, models: seq<CatalogModel>) returns (r: Result<Decision, EngineError>)
    requires ctx.request.budgetLimitUsd >= 0.0
    ensures r == Decide(ctx, models)
  {
    hide CandidateOf, FirstFailure, FinalCost, ExpectedTtfb, TotalTokens, AgeSeconds, Round4, Clamp, CountReason,
      StableSort;
    var candidates: seq<Candidate> := [];
    var rejections: seq<Rejection> := [];
    var byBudget, byLatency, byCapacity, byCapability, byProvider := 0, 0, 0, 0, 0;
    var freshness: seq<int> := [];
    NoRejections();
    for i := 0 to |models|
      invariant candidates == Survivors(ctx, models[..i])
      invariant rejections == Rejections(ctx, models[..i])
      invariant freshness == FreshnessValues(ctx, models[..i])
      invariant AllValid(candidates)
      invariant byBudget == CountReason(rejections, BudgetFiltered)
      invariant byLatency == CountReason(rejections, LatencyFiltered)
      invariant byCapacity == CountReason(rejections, CapacityFiltered)
      invariant byCapability == CountReason(rejections, CapabilityFiltered)
      invariant byProvider == CountReason(rejections, ProviderFiltered)
    {
      var m := models[i];
      OneMore(ctx, models, i);
      var verdict, reachedSignal, cost, ttfb, totalTokens := FilterModel(ctx, m);
      if reachedSignal {
        freshness := freshness + [AgeSeconds(ctx.SignalOf(m), ctx.now).GetOr(ctx.freshnessSeconds * 2)];
      }
      match verdict {
        case Some(reason) =>
          match reason {
            case ProviderFiltered => byProvider := byProvider + 1;
            case CapabilityFiltered => byCapability := byCapability + 1;
            case CapacityFiltered => byCapacity := byCapacity + 1;
            case BudgetFiltered => byBudget := byBudget + 1;
            case LatencyFiltered => byLatency := byLatency + 1;
          }
          OneRejectionMore(rejections, Rejection(m.modelId, m.provider, reason));
          rejections := rejections + [Rejection(m.modelId, m.provider, reason)];
        case None =>
          var candidate := ScoreModel(ctx, m, cost, ttfb, totalTokens, |candidates| + 1);
          if !candidate.Valid() {
            InvalidStays(ctx, models, i + 1, candidate);
            return Err(InvalidCandidate);
          }
          candidates := candidates + [candidate];
      }
    }
    assert models[..|models|] == models;

    candidates := Take(StableSort(candidates), ctx.policy.maxCandidates);
    candidates := AssignRanks(candidates);
    var safety := 0.0;
    if candidates != [] {
      safety := Round4(Clamp(SumConfidence(candidates) / |candidates| as real));
    }
    var observability := Observability(|models|, |candidates|, byBudget, byLatency, byCapacity, byCapability,
                                       byProvider, Least(freshness), safety);
    if !observability.Valid() {
      return Err(InvalidObservability);
    }
    if candidates == [] {
      return Err(NoSurvivors);
    }
    return Ok(Decision(candidates, rejections, observability));
  }

  /** The final loop, which overwrites every rank by the position. */
  method AssignRanks(ladder: seq<Candidate>) returns (candidates: seq<Candidate>)
    ensures candidates == Rerank(ladder)
  {
    candidates := ladder;
    for index := 0 to |ladder|
      invariant |candidates| == |ladder|
      invariant forall j :: 0 <= j < |candidates| ==>
        candidates[j] == if j < index then ladder[j].(rank := j + 1) else ladder[j]
    {
      candidates := candidates[index := candidates[index].(rank := index + 1)];
    }
  }

  lemma NoRejections()
    ensures forall reason :: CountReason([], reason) == 0
  {
  }

  lemma OneRejectionMore(rejections: seq<Rejection>, r: Rejection)
    ensures forall reason ::
              CountReason(rejections + [r], reason)
              == CountReason(rejections, reason) + (if r.reason == reason then 1 else 0)
  {
    assert (rejections + [r])[..|rejections|] == rejections;
  }

  lemma OneMore(ctx: Context, models: seq<CatalogModel>, i: nat)
    requires i < |models|
    ensures models[..i + 1][..i] == models[..i] && models[..i + 1][i] == models[i]
  {
  }

  /** The filter order, spelled out the way the loop tries it. */
  lemma FirstFailureCases(ctx: Context, m: CatalogModel)
    ensures FirstFailure(ctx, m) ==
            if FailsProvider(ctx, m) then Some(ProviderFiltered)
            else if FailsCapability(ctx, m) then Some(CapabilityFiltered)
            else if FailsCapacity(ctx, m) then Some(CapacityFiltered)
            else if FailsBudget(ctx, m) then Some(BudgetFiltered)
            else if FailsLatency(ctx, m) then Some(LatencyFiltered)
            else None
  {
    assert FirstFailureFrom(ctx, m, 4) == if FailsLatency(ctx, m) then Some(LatencyFiltered) else None;
    assert FirstFailureFrom(ctx, m, 2) == if FailsCapacity(ctx, m) then Some(CapacityFiltered)
                                          else FirstFailureFrom(ctx, m, 3);
  }

  lemma {:induction false} InvalidStays(ctx: Context, models: seq<CatalogModel>, i: nat, c: Candidate)
    requires 0 < i <= |models| && !c.Valid()
    requires FirstFailure(ctx, models[i - 1]).None?
    requires c == CandidateOf(ctx, models[i - 1], |Survivors(ctx, models[..i - 1])| + 1)
    ensures c in Survivors(ctx, models) && !AllValid(Survivors(ctx, models))
  {
    hide CandidateOf, FirstFailure, Candidate.Valid;
    OneMore(ctx, models, i - 1);
    if i == |models| {
      assert models[..i] == models;
    } else {
      var front := models[..|models| - 1];
      assert front[..i - 1] == models[..i - 1];
      InvalidStays(ctx, front, i, c);
    }
  }
}
