/** What a request demands of a model, read off the two records, and that the filters enforce exactly that. */
module FilterLaws {
  import opened Wrappers
  import opened Rounding
  import opened Schemas
  import opened PricingEngine

  // ----- the demands

  ghost predicate ProviderAllowed(request: DecisionRequest, m: CatalogModel) {
    && (forall allow :: request.providerAllowlist == Some(allow) && allow != [] ==> m.provider in allow)
    && (forall deny :: request.providerDenylist == Some(deny) ==> m.provider !in deny)
  }

  ghost predicate Capable(request: DecisionRequest, m: CatalogModel) {
    && (request.required.vision ==> m.capabilities.vision)
    && (request.required.reasoning ==> m.capabilities.reasoning)
    && (request.required.toolCalling ==> m.capabilities.toolCalling)
    && (request.required.jsonMode ==> m.capabilities.jsonMode)
    && request.taskType in m.supportedTaskTypes
    && request.contextWindowTokens <= m.contextWindowTokens
  }

  /** The request announces a throughput. */
  ghost predicate Announces(request: DecisionRequest) {
    request.throughputHintQps.Some? && request.throughputHintQps.value > 0.0
  }

  /** The throughput measured for the model, or the catalog's where there is none. */
  ghost function Throughput(ctx: Context, m: CatalogModel): real {
    if m.modelId in ctx.signals && ctx.signals[m.modelId].throughputHintQps.Some?
    then ctx.signals[m.modelId].throughputHintQps.value else m.throughputHintQps
  }

  ghost predicate Copes(ctx: Context, m: CatalogModel) {
    Announces(ctx.request) && Throughput(ctx, m) > 0.0 ==>
      ctx.request.throughputHintQps.value <= Throughput(ctx, m) * m.hardCapacityFactor
  }

  /** The measured median, or the catalog's time, and the cold start of a request that announces no throughput. */
  ghost function TimeToFirstToken(ctx: Context, m: CatalogModel): int {
    (if m.modelId in ctx.signals && ctx.signals[m.modelId].ttfbP50Ms.Some?
     then ctx.signals[m.modelId].ttfbP50Ms.value else m.defaultTtfbMs)
    + (if Announces(ctx.request) then 0 else m.coldStartMs)
  }

  /** A time limit of zero counts as none, as an absent one does. */
  ghost predicate InTime(ctx: Context, m: CatalogModel) {
    forall slo :: ctx.request.latencySloMs == Some(slo) && slo != 0 ==> TimeToFirstToken(ctx, m) <= slo
  }

  /** What the filter with this reason is there to ensure. */
  ghost predicate Meets(ctx: Context, m: CatalogModel, reason: Reason) {
    match reason
    case ProviderFiltered => ProviderAllowed(ctx.request, m)
    case CapabilityFiltered => Capable(ctx.request, m)
    case CapacityFiltered => Copes(ctx, m)
    case BudgetFiltered => FinalCost(ctx, m) <= ctx.request.budgetLimitUsd
    case LatencyFiltered => InTime(ctx, m)
  }

  ghost predicate Fits(ctx: Context, m: CatalogModel) {
    && ProviderAllowed(ctx.request, m) && Capable(ctx.request, m) && Copes(ctx, m)
    && FinalCost(ctx, m) <= ctx.request.budgetLimitUsd && InTime(ctx, m)
  }

  // ----- the filters enforce them

  lemma AnnouncesMeans(ctx: Context)
    ensures Announces(ctx.request) <==> ctx.Hint() > 0.0
    ensures Announces(ctx.request) ==> ctx.Hint() == ctx.request.throughputHintQps.value
  {
  }

  lemma TimeMeans(ctx: Context, m: CatalogModel)
    ensures ExpectedTtfb(ctx, m) == TimeToFirstToken(ctx, m)
  {
    AnnouncesMeans(ctx);
  }

  lemma ThroughputMeans(ctx: Context, m: CatalogModel)
    ensures ctx.QpsOf(m) == Throughput(ctx, m)
  {
  }

  lemma CopesMeans(ctx: Context, m: CatalogModel)
    ensures FailsCapacity(ctx, m) <==> !Copes(ctx, m)
  {
    AnnouncesMeans(ctx);
    ThroughputMeans(ctx, m);
    hide Throughput, Context.QpsOf, Context.Hint, Announces;
  }

  lemma InTimeMeans(ctx: Context, m: CatalogModel)
    ensures FailsLatency(ctx, m) <==> !InTime(ctx, m)
  {
    TimeMeans(ctx, m);
    hide ExpectedTtfb, TimeToFirstToken;
  }

  lemma ProviderMeans(ctx: Context, m: CatalogModel)
    ensures FailsProvider(ctx, m) <==> !ProviderAllowed(ctx.request, m)
  {
  }

  lemma CapableMeans(ctx: Context, m: CatalogModel)
    ensures FailsCapability(ctx, m) <==> !Capable(ctx.request, m)
  {
  }

  /** Each filter rejects exactly the models that do not meet its demand. */
  lemma FilterMeans(ctx: Context, m: CatalogModel, reason: Reason)
    ensures Fails(ctx, m, reason) <==> !Meets(ctx, m, reason)
  {
    hide FailsCapacity, FailsLatency, FailsProvider, FailsCapability, FinalCost, Copes, InTime, ProviderAllowed,
      Capable;
    CopesMeans(ctx, m);
    InTimeMeans(ctx, m);
    ProviderMeans(ctx, m);
    CapableMeans(ctx, m);
  }

  /** A model survives exactly if it fits the request. */
  lemma SurvivalLaw(ctx: Context, m: CatalogModel)
    ensures Survives(ctx, m) <==> Fits(ctx, m)
  {
    hide Fails, FinalCost, Copes, InTime, ProviderAllowed, Capable;
    forall reason: Reason {
      FilterMeans(ctx, m, reason);
    }
    if Survives(ctx, m) {
      assert Meets(ctx, m, ProviderFiltered) && Meets(ctx, m, CapabilityFiltered) && Meets(ctx, m, CapacityFiltered)
             && Meets(ctx, m, BudgetFiltered) && Meets(ctx, m, LatencyFiltered);
    }
  }

  /** The reason recorded for a model: the first of the five demands, in this order, that it does not meet. */
  lemma RejectionLaw(ctx: Context, m: CatalogModel)
    ensures FirstFailure(ctx, m) ==
            if !ProviderAllowed(ctx.request, m) then Some(ProviderFiltered)
            else if !Capable(ctx.request, m) then Some(CapabilityFiltered)
            else if !Copes(ctx, m) then Some(CapacityFiltered)
            else if FinalCost(ctx, m) > ctx.request.budgetLimitUsd then Some(BudgetFiltered)
            else if !InTime(ctx, m) then Some(LatencyFiltered)
            else None
  {
    FirstFailureCases(ctx, m);
    hide FirstFailure, FinalCost, FailsCapacity, FailsLatency, FailsProvider, FailsCapability, Copes, InTime,
      ProviderAllowed, Capable;
    CopesMeans(ctx, m);
    InTimeMeans(ctx, m);
    ProviderMeans(ctx, m);
    CapableMeans(ctx, m);
  }
}
