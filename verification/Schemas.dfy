/** The request, catalog, policy and signal records the services exchange, with their field bounds. */
module Schemas {
  import opened Wrappers

  datatype Capabilities = Capabilities(vision: bool, reasoning: bool, toolCalling: bool, jsonMode: bool)

  datatype PricingTier = PricingTier(uptoTokens: Option<int>, inPrice1k: real, outPrice1k: real) {
    predicate Valid() {
      (uptoTokens.Some? ==> uptoTokens.value >= 1) && inPrice1k >= 0.0 && outPrice1k >= 0.0
    }
  }

  datatype CatalogModel = CatalogModel(
    provider: string,
    modelId: string,
    inPrice1k: real,
    outPrice1k: real,
    pricingTiers: seq<PricingTier>,
    contextWindowTokens: int,
    defaultTtfbMs: int,
    throughputHintQps: real,
    accuracy: real,
    hardCapacityFactor: real,
    capabilities: Capabilities,
    supportedTaskTypes: seq<string>,
    coldStartMs: int,
    coldStartCostUsd: real,
    longTextDiscountRate: real,
    longTextThresholdTokens: int,
    concurrencyPremiumRate: real,
    burstQpsThreshold: real)
  {
    predicate Valid() {
      && inPrice1k >= 0.0 && outPrice1k >= 0.0
      && (forall t :: t in pricingTiers ==> t.Valid())
      && contextWindowTokens >= 1 && defaultTtfbMs >= 1 && throughputHintQps > 0.0
      && 0.0 <= accuracy <= 1.0 && hardCapacityFactor >= 1.0
      && coldStartMs >= 0 && coldStartCostUsd >= 0.0
      && 0.0 <= longTextDiscountRate <= 1.0 && longTextThresholdTokens >= 1
      && concurrencyPremiumRate >= 0.0 && 0.0 < burstQpsThreshold <= 1.5
    }
  }

  /** The four scored dimensions, which key both the baseline and the weights. */
  datatype Dimension = TokenCost | Qps | Latency | Accuracy

  datatype Catalog = Catalog(version: string, models: seq<CatalogModel>, normalizationBaseline: map<Dimension, real>) {
    ghost predicate Valid() {
      && (forall m :: m in models ==> m.Valid())
      && (forall i, j :: 0 <= i < j < |models| ==> models[i].modelId != models[j].modelId)
    }
  }

  datatype PolicyWeights = PolicyWeights(tokenCost: real, qps: real, latency: real, accuracy: real) {
    predicate Valid() {
      && tokenCost >= 0.0 && qps >= 0.0 && latency >= 0.0 && accuracy >= 0.0
      && tokenCost + qps + latency + accuracy > 0.0
    }
  }

  datatype RoutingPolicy = RoutingPolicy(
    policyId: string,
    active: bool,
    weights: PolicyWeights,
    maxCandidates: nat,
    freshnessPenalty: real,
    degradedPenalty: real,
    fallbackBonus: real)
  {
    predicate Valid() {
      && weights.Valid() && 1 <= maxCandidates <= 10
      && 0.0 <= freshnessPenalty <= 1.0 && 0.0 <= degradedPenalty <= 1.0 && 0.0 <= fallbackBonus <= 1.0
    }
  }

  datatype DecisionRequest = DecisionRequest(
    agentId: string,
    requestId: string,
    taskType: string,
    language: string,
    inputChars: int,
    expectedOutputTokens: int,
    contextWindowTokens: int,
    budgetLimitUsd: real,
    latencySloMs: Option<int>,
    throughputHintQps: Option<real>,
    policyId: Option<string>,
    providerAllowlist: Option<seq<string>>,
    providerDenylist: Option<seq<string>>,
    required: Capabilities)
  {
    predicate Valid() {
      && inputChars >= 1 && expectedOutputTokens >= 1 && contextWindowTokens >= 1 && budgetLimitUsd >= 0.0
      && (latencySloMs.Some? ==> latencySloMs.value >= 1)
      && (throughputHintQps.Some? ==> throughputHintQps.value >= 0.0)
    }
  }

  /** A stored probe signal; a key the dictionary lacks is `None`. */
  datatype Signal = Signal(
    ttfbP50Ms: Option<int>,
    ttfbP95Ms: Option<int>,
    throughputHintQps: Option<real>,
    successRate: Option<real>,
    lastProbeAt: Option<real>,
    degradedReason: Option<string>)
  {
    /** What every stored signal satisfies; see the probe runs in LatencyTracker. */
    predicate Valid() {
      && (ttfbP50Ms.Some? ==> ttfbP50Ms.value >= 0)
      && (successRate.Some? ==> 0.0 <= successRate.value <= 1.0)
    }
  }

  const NO_SIGNAL := Signal(None, None, None, None, None, None)

  datatype ScoreBreakdown = ScoreBreakdown(
    tokenCost: real, qps: real, latency: real, accuracy: real,
    freshnessPenalty: real, degradedPenalty: real, fallbackBonus: real)
  {
    predicate Valid() {
      && 0.0 <= tokenCost <= 1.0 && 0.0 <= qps <= 1.0 && 0.0 <= latency <= 1.0 && 0.0 <= accuracy <= 1.0
      && 0.0 <= freshnessPenalty <= 1.0 && 0.0 <= degradedPenalty <= 1.0 && 0.0 <= fallbackBonus <= 1.0
    }
  }

  datatype Candidate = Candidate(
    rank: int,
    modelId: string,
    provider: string,
    estimatedCostUsd: real,
    expectedTtfbMs: int,
    confidence: real,
    signalFreshnessSeconds: Option<int>,
    degradedReason: Option<string>,
    scores: ScoreBreakdown)
  {
    /** The bounds whose violation makes constructing the candidate raise. */
    predicate Valid() {
      && rank >= 1 && estimatedCostUsd >= 0.0 && expectedTtfbMs >= 0 && 0.0 <= confidence <= 1.0
      && (signalFreshnessSeconds.Some? ==> signalFreshnessSeconds.value >= 0)
      && scores.Valid()
    }
  }

  datatype Reason = ProviderFiltered | CapabilityFiltered | CapacityFiltered | BudgetFiltered | LatencyFiltered

  datatype Rejection = Rejection(modelId: string, provider: string, reason: Reason)

  datatype Observability = Observability(
    evaluatedModels: nat,
    candidateCount: nat,
    filteredByBudget: nat,
    filteredByLatency: nat,
    filteredByCapacity: nat,
    filteredByCapability: nat,
    filteredByProvider: nat,
    signalFreshnessMinSeconds: Option<int>,
    fallbackSafetyScore: real)
  {
    /** The bounds whose violation makes constructing it raise; the counts are never negative. */
    predicate Valid() {
      && (signalFreshnessMinSeconds.Some? ==> signalFreshnessMinSeconds.value >= 0)
      && 0.0 <= fallbackSafetyScore <= 1.0
    }
  }

  datatype Decision = Decision(candidates: seq<Candidate>, rejections: seq<Rejection>, observability: Observability)
}
