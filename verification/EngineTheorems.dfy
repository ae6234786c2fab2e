/** How decisions compare: within one ladder, between requests, and between policies. */
module EngineTheorems {
  import opened Wrappers
  import opened Rounding
  import opened Arithmetic
  import opened Schemas
  import opened Ranking
  import opened PricingEngine
  import opened EngineProperties
  import TokenEstimator

  // ----- the returned ladder

  lemma LadderIsFront(ctx: Context, models: seq<CatalogModel>, d: Decision, ranked: seq<Candidate>)
    requires Decide(ctx, models) == Ok(d)
    requires IsStableSort(ranked, Survivors(ctx, models))
    ensures |ranked| == |Survivors(ctx, models)| && multiset(ranked) == multiset(Survivors(ctx, models))
    ensures |d.candidates| == if |ranked| <= ctx.policy.maxCandidates then |ranked| else ctx.policy.maxCandidates
    ensures forall i :: 0 <= i < |d.candidates| ==> d.candidates[i] == ranked[i].(rank := i + 1)
  {
    hide Survivors, KeyLe, Tied, AllValid, Rejections, SafetyScore, CountReason, FreshnessValues;
    var survivors := Survivors(ctx, models);
    StableSortSorts(survivors);
    StableSortUnique(ranked, StableSort(survivors));
  }

  /** `d`'s ladder is the front of the stably sorted survivors, ranked 1..n. Nothing that comes later, in the ladder or
      left out of it, is more confident; nor, if as confident, cheaper; nor, if that dear too, faster. */
  lemma TopKOptimality(ctx: Context, models: seq<CatalogModel>, d: Decision, ranked: seq<Candidate>)
    requires Decide(ctx, models) == Ok(d)
    requires IsStableSort(ranked, Survivors(ctx, models))
    ensures |ranked| == |Survivors(ctx, models)| && multiset(ranked) == multiset(Survivors(ctx, models))
    ensures |d.candidates| == if |ranked| <= ctx.policy.maxCandidates then |ranked| else ctx.policy.maxCandidates
    ensures forall i :: 0 <= i < |d.candidates| ==> d.candidates[i] == ranked[i].(rank := i + 1)
    ensures forall i, j :: 0 <= i < |d.candidates| && i < j < |ranked| ==>
              var (a, b) := (d.candidates[i], ranked[j]);
              && a.confidence >= b.confidence
              && (a.confidence == b.confidence ==> a.estimatedCostUsd <= b.estimatedCostUsd)
              && (a.confidence == b.confidence && a.estimatedCostUsd == b.estimatedCostUsd ==>
                    a.expectedTtfbMs <= b.expectedTtfbMs)
  {
    hide Survivors, KeyLe, Tied, Decide;
    LadderIsFront(ctx, models, d, ranked);
    forall i, j | 0 <= i < |d.candidates| && i < j < |ranked| {
      KeyOrder(ranked[i], ranked[j]);
    }
  }

  /** The sort key ignores the rank. */
  lemma RankIrrelevant(a: Candidate, rank: int, b: Candidate)
    ensures KeyLe(a.(rank := rank), b) <==> KeyLe(a, b)
    ensures KeyLe(b, a.(rank := rank)) <==> KeyLe(b, a)
  {
  }

  /** Each returned candidate belongs to a model that passed every filter; the ladder is in key order. */
  lemma LadderEntry(ctx: Context, models: seq<CatalogModel>, d: Decision, i: nat) returns (m: CatalogModel)
    requires Decide(ctx, models) == Ok(d) && i < |d.candidates|
    ensures m in models && Survives(ctx, m) && d.candidates[i] == CandidateOf(ctx, m, i + 1)
    ensures forall j :: i < j < |d.candidates| ==> KeyLe(d.candidates[i], d.candidates[j])
  {
    hide CandidateOf, Survives, KeyLe, Tied, AllValid, SafetyScore, CountReason, Decide, Survivors;
    var survivors := Survivors(ctx, models);
    var ranked := StableSort(survivors);
    StableSortSorts(survivors);
    LadderIsFront(ctx, models, d, ranked);
    assert ranked[i] in multiset(survivors);
    m := SurvivorHasModel(ctx, models, ranked[i]);
    Reranked(ctx, m, ranked[i].rank, i + 1);
    forall j | i < j < |d.candidates|
      ensures KeyLe(d.candidates[i], d.candidates[j])
    {
      RankIrrelevant(ranked[i], i + 1, ranked[j]);
      RankIrrelevant(ranked[j], j + 1, ranked[i].(rank := i + 1));
    }
  }

  lemma Reranked(ctx: Context, m: CatalogModel, rank: int, rank': int)
    ensures CandidateOf(ctx, m, rank).(rank := rank') == CandidateOf(ctx, m, rank')
  {
  }

  /** No model that survived is more confident than the recommendation; nor, if as confident, cheaper; nor, if that
      dear too, faster. */
  lemma RecommendedIsBest(ctx: Context, models: seq<CatalogModel>, d: Decision, m: CatalogModel)
    requires Decide(ctx, models) == Ok(d) && m in models && Survives(ctx, m)
    ensures |d.candidates| > 0
    ensures var (best, c) := (d.candidates[0], CandidateOf(ctx, m, 1));
            && best.confidence >= c.confidence
            && (best.confidence == c.confidence ==> best.estimatedCostUsd <= c.estimatedCostUsd)
            && (best.confidence == c.confidence && best.estimatedCostUsd == c.estimatedCostUsd ==>
                  best.expectedTtfbMs <= c.expectedTtfbMs)
  {
    assert |d.candidates| > 0;
    hide CandidateOf, Survives, KeyLe, Tied, AllValid, SafetyScore, CountReason, Decide, Survivors;
    var survivors := Survivors(ctx, models);
    var ranked := StableSort(survivors);
    StableSortSorts(survivors);
    LadderIsFront(ctx, models, d, ranked);
    var c := SurvivingModelListed(ctx, models, m);
    assert c in multiset(ranked);
    FirstIsLeast(ranked, c);
    RankIrrelevant(ranked[0], 1, c);
    RankIrrelevant(c, 1, ranked[0].(rank := 1));
    Reranked(ctx, m, c.rank, 1);
    KeyOrder(d.candidates[0], CandidateOf(ctx, m, 1));
  }

  lemma FirstIsLeast(s: seq<Candidate>, c: Candidate)
    requires Sorted(s) && c in s
    ensures KeyLe(s[0], c)
  {
  }

  // ----- dominance

  /** `a` is no worse than `b` in any measured input. */
  ghost predicate Dominates(ctx: Context, a: CatalogModel, b: CatalogModel) {
    && UnitCost(ctx, a) <= UnitCost(ctx, b)
    && ctx.QpsOf(a) >= ctx.QpsOf(b)
    && ExpectedTtfb(ctx, a) <= ExpectedTtfb(ctx, b)
    && Scaled(a.accuracy, ctx.SuccessRateOf(a)) >= Scaled(b.accuracy, ctx.SuccessRateOf(b))
    && ctx.SuccessRateOf(a) >= ctx.SuccessRateOf(b)
    && FreshnessPenalty(ctx, a) <= FreshnessPenalty(ctx, b)
    && DegradedPenalty(ctx, a) <= DegradedPenalty(ctx, b)
  }

  lemma DominanceInConfidence(ctx: Context, a: CatalogModel, b: CatalogModel)
    requires Dominates(ctx, a, b) && ctx.policy.fallbackBonus >= 0.0
    ensures ConfidenceOf(ctx, a) >= ConfidenceOf(ctx, b)
  {
    hide Round4, Confidence, NormalizeWeights, ScoresOf, UnitCost, ExpectedTtfb, FreshnessPenalty, DegradedPenalty,
      Scaled, NoWorse, NonNegative;
    ScoresMonotone(ctx, ctx, UnitCost(ctx, a), UnitCost(ctx, b), ctx.QpsOf(a), ctx.QpsOf(b),
                   ExpectedTtfb(ctx, a), ExpectedTtfb(ctx, b), a.accuracy, b.accuracy,
                   ctx.SuccessRateOf(a), ctx.SuccessRateOf(b), FreshnessPenalty(ctx, a), FreshnessPenalty(ctx, b),
                   DegradedPenalty(ctx, a), DegradedPenalty(ctx, b));
    NormalizedNonNegative(ctx.policy.weights);
    ConfidenceMonotone(Scores(ctx, a), Scores(ctx, b), NormalizeWeights(ctx.policy.weights));
  }

  /** A dominated model that is not cheaper precedes its dominator only on a full tie. */
  lemma DominanceInRanking(ctx: Context, models: seq<CatalogModel>, d: Decision, i: nat, j: nat, a: CatalogModel,
                           b: CatalogModel)
    requires Decide(ctx, models) == Ok(d) && ctx.policy.fallbackBonus >= 0.0
    requires i < j < |d.candidates|
    requires d.candidates[i] == CandidateOf(ctx, b, i + 1) && d.candidates[j] == CandidateOf(ctx, a, j + 1)
    requires Dominates(ctx, a, b) && RoundMoney(FinalCost(ctx, a)) <= RoundMoney(FinalCost(ctx, b))
    ensures SameKey(d.candidates[i], d.candidates[j])
  {
    hide Decide, Dominates, Confidence, Scores, NormalizeWeights, FinalCost, RoundMoney, ConfidenceOf, ExpectedTtfb;
    var m := LadderEntry(ctx, models, d, i);
    DominanceInConfidence(ctx, a, b);
    assert ExpectedTtfb(ctx, a) <= ExpectedTtfb(ctx, b) by { DominatesTtfb(ctx, a, b); }
  }

  lemma DominatesTtfb(ctx: Context, a: CatalogModel, b: CatalogModel)
    requires Dominates(ctx, a, b)
    ensures ExpectedTtfb(ctx, a) <= ExpectedTtfb(ctx, b)
  {
  }

  // ----- relaxing a request

  predicate Implies(loose: Capabilities, tight: Capabilities) {
    && (loose.vision ==> tight.vision) && (loose.reasoning ==> tight.reasoning)
    && (loose.toolCalling ==> tight.toolCalling) && (loose.jsonMode ==> tight.jsonMode)
  }

  predicate Denies(request: DecisionRequest, provider: string) {
    request.providerDenylist.Some? && provider in request.providerDenylist.value
  }

  predicate HintRelaxed(loose: Option<real>, tight: Option<real>) {
    loose == tight || (loose.Some? && tight.Some? && 0.0 < loose.value <= tight.value)
  }

  /** `loose` asks for the same work under weaker demands. The allowlist must not change: shrinking it to
      nothing lifts the restriction altogether. */
  ghost predicate Relaxes(loose: DecisionRequest, tight: DecisionRequest) {
    && loose.taskType == tight.taskType && loose.language == tight.language
    && loose.inputChars == tight.inputChars && loose.expectedOutputTokens == tight.expectedOutputTokens
    && loose.providerAllowlist == tight.providerAllowlist
    && (forall p :: Denies(loose, p) ==> Denies(tight, p))
    && Implies(loose.required, tight.required)
    && loose.contextWindowTokens <= tight.contextWindowTokens
    && loose.budgetLimitUsd >= tight.budgetLimitUsd
    && (loose.latencySloMs.None? || (tight.latencySloMs.Some? && loose.latencySloMs.value >= tight.latencySloMs.value))
    && HintRelaxed(loose.throughputHintQps, tight.throughputHintQps)
  }

  lemma RelaxedFilters(loose: Context, tight: Context, m: CatalogModel)
    requires Relaxes(loose.request, tight.request) && loose == tight.(request := loose.request)
    requires m.Valid()
    ensures !FailsProvider(tight, m) ==> !FailsProvider(loose, m)
    ensures !FailsCapability(tight, m) ==> !FailsCapability(loose, m)
    ensures !FailsCapacity(tight, m) ==> !FailsCapacity(loose, m)
  {
    if loose.request.providerDenylist.Some? && m.provider in loose.request.providerDenylist.value {
      assert Denies(loose.request, m.provider);
      assert Denies(tight.request, m.provider);
    }
  }

  lemma SameBase(loose: Context, tight: Context, m: CatalogModel)
    requires Relaxes(loose.request, tight.request) && loose == tight.(request := loose.request)
    ensures loose.SignalOf(m) == tight.SignalOf(m) && loose.QpsOf(m) == tight.QpsOf(m)
    ensures loose.SuccessRateOf(m) == tight.SuccessRateOf(m)
    ensures TotalTokens(loose, m) == TotalTokens(tight, m)
    ensures (loose.Hint() <= 0.0) == (tight.Hint() <= 0.0)
    ensures ListCost(loose, m) == ListCost(tight, m)
    ensures DiscountRate(loose, m) == DiscountRate(tight, m)
    ensures ExpectedTtfb(loose, m) == ExpectedTtfb(tight, m)
    ensures FreshnessPenalty(loose, m) == FreshnessPenalty(tight, m)
    ensures DegradedPenalty(loose, m) == DegradedPenalty(tight, m)
  {
    hide Round4, TokenCharge, PickTier, Scaled, TokenEstimator.EstimateTokens;
    assert InputTokens(loose, m) == InputTokens(tight, m) && OutputTokens(loose) == OutputTokens(tight);
  }

  lemma RelaxedPremium(loose: Context, tight: Context, m: CatalogModel)
    requires Relaxes(loose.request, tight.request) && loose == tight.(request := loose.request)
    requires m.Valid()
    ensures 0.0 <= PremiumRate(loose, m) <= PremiumRate(tight, m)
  {
    hide Scaled;
    var (hint, hint', qps) := (loose.Hint(), tight.Hint(), tight.QpsOf(m));
    if hint' > 0.0 && qps > 0.0 {
      QuotientMonotone(hint, hint', qps);
      var over, over' := Min(hint / qps - m.burstQpsThreshold, 1.0), Min(hint' / qps - m.burstQpsThreshold, 1.0);
      ScaledMonotone(over, over', m.concurrencyPremiumRate);
      if over >= 0.0 { ScaledNonNegative(m.concurrencyPremiumRate, over); }
      if over' >= 0.0 { ScaledNonNegative(m.concurrencyPremiumRate, over'); }
    }
  }

  lemma RelaxedCost(loose: Context, tight: Context, m: CatalogModel)
    requires Relaxes(loose.request, tight.request) && loose == tight.(request := loose.request)
    requires m.Valid()
    ensures 0.0 <= FinalCost(loose, m) <= FinalCost(tight, m)
    ensures UnitCost(loose, m) <= UnitCost(tight, m)
  {
    SameBase(loose, tight, m);
    RelaxedPremium(loose, tight, m);
    ListCostNonNegative(tight, m);
    hide ListCost, PremiumRate, Scaled, Relaxes, TotalTokens;
    var list, rate := ListCost(tight, m), DiscountRate(tight, m);
    DiscountThenPremium(list, rate, rate, 0.0, 0.0);
    var x := Discounted(list, rate);
    ScaledMonotone(PremiumRate(loose, m), PremiumRate(tight, m), x);
    ScaledNonNegative(x, PremiumRate(loose, m));
    PerThousandMonotone(FinalCost(loose, m), FinalCost(tight, m), TotalTokens(tight, m));
  }

  lemma PerThousandMonotone(x: real, y: real, tokens: int)
    requires 0.0 <= x <= y && tokens >= 1
    ensures PerThousand(x, tokens) <= PerThousand(y, tokens)
  {
    QuotientMonotone(x * 1000.0, y * 1000.0, tokens as real);
    QuotientMonotone(0.0, y * 1000.0, tokens as real);
  }

  lemma RelaxedConfidence(loose: Context, tight: Context, m: CatalogModel)
    requires Relaxes(loose.request, tight.request) && loose == tight.(request := loose.request)
    requires m.Valid() && tight.policy.fallbackBonus >= 0.0
    ensures ConfidenceOf(loose, m) >= ConfidenceOf(tight, m)
  {
    RelaxedCost(loose, tight, m);
    SameBase(loose, tight, m);
    hide Relaxes, FinalCost, UnitCost, ExpectedTtfb, FreshnessPenalty, DegradedPenalty, Scaled, ScoresOf, Confidence,
      NormalizeWeights, NoWorse, NonNegative, CatalogModel.Valid, ListCost, TotalTokens, DiscountRate;
    ScoresMonotone(loose, tight, UnitCost(loose, m), UnitCost(tight, m), loose.QpsOf(m), tight.QpsOf(m),
                   ExpectedTtfb(loose, m), ExpectedTtfb(tight, m), m.accuracy, m.accuracy,
                   loose.SuccessRateOf(m), tight.SuccessRateOf(m),
                   FreshnessPenalty(loose, m), FreshnessPenalty(tight, m),
                   DegradedPenalty(loose, m), DegradedPenalty(tight, m));
    NormalizedNonNegative(tight.policy.weights);
    ConfidenceMonotone(Scores(loose, m), Scores(tight, m), NormalizeWeights(tight.policy.weights));
  }

  /** A survivor survives every relaxation of the request, no dearer and with no less confidence. */
  lemma RelaxedSurvivor(loose: Context, tight: Context, m: CatalogModel)
    requires Relaxes(loose.request, tight.request) && loose == tight.(request := loose.request)
    requires m.Valid() && tight.request.Valid() && Survives(tight, m) && tight.policy.fallbackBonus >= 0.0
    ensures Survives(loose, m)
    ensures ConfidenceOf(loose, m) >= ConfidenceOf(tight, m)
    ensures FinalCost(loose, m) <= FinalCost(tight, m)
  {
    SurvivesMeans(tight, m);
    RelaxedFilters(loose, tight, m);
    RelaxedCost(loose, tight, m);
    SameBase(loose, tight, m);
    RelaxedLimits(loose, tight, m);
    RelaxedConfidence(loose, tight, m);
    hide Relaxes, FinalCost, UnitCost, ExpectedTtfb, FreshnessPenalty, DegradedPenalty, ConfidenceOf,
      CatalogModel.Valid, FailsProvider, FailsCapability, FailsCapacity, FailsBudget, FailsLatency, ListCost,
      TotalTokens, DiscountRate;
  }

  lemma SurvivesMeans(ctx: Context, m: CatalogModel)
    requires Survives(ctx, m)
    ensures !FailsProvider(ctx, m) && !FailsCapability(ctx, m) && !FailsCapacity(ctx, m) && !FailsBudget(ctx, m)
            && !FailsLatency(ctx, m)
  {
    assert !Fails(ctx, m, ProviderFiltered) && !Fails(ctx, m, CapabilityFiltered) && !Fails(ctx, m, CapacityFiltered)
           && !Fails(ctx, m, BudgetFiltered) && !Fails(ctx, m, LatencyFiltered);
  }

  lemma RelaxedLimits(loose: Context, tight: Context, m: CatalogModel)
    requires Relaxes(loose.request, tight.request) && FinalCost(loose, m) <= FinalCost(tight, m)
    requires ExpectedTtfb(loose, m) == ExpectedTtfb(tight, m)
    requires tight.request.latencySloMs.Some? ==> tight.request.latencySloMs.value >= 1
    ensures !FailsBudget(tight, m) ==> !FailsBudget(loose, m)
    ensures !FailsLatency(tight, m) ==> !FailsLatency(loose, m)
  {
    hide FinalCost, ExpectedTtfb;
  }

  /** Relaxing a request never turns a decision into a refusal, and never lowers the recommended confidence. */
  lemma RelaxationMonotone(loose: Context, tight: Context, catalog: Catalog, d: Decision)
    requires loose.Valid() && tight.Valid() && catalog.Valid()
    requires Relaxes(loose.request, tight.request) && loose == tight.(request := loose.request)
    requires Decide(tight, catalog.models) == Ok(d)
    ensures Decide(loose, catalog.models).Ok?
    ensures Decide(loose, catalog.models).value.candidates[0].confidence >= d.candidates[0].confidence
  {
    assert |d.candidates| > 0 && tight.policy.fallbackBonus >= 0.0;
    var m := LadderEntry(tight, catalog.models, d, 0);
    assert m.Valid();
    RelaxedSurvivor(loose, tight, m);
    ValidInputsNeverRaise(loose, catalog);
    hide Decide, Survives, Relaxes, Context.Valid, Catalog.Valid, ConfidenceOf, Scores, FinalCost, ExpectedTtfb,
      RoundMoney;
    RecommendedIsBest(loose, catalog.models, Decide(loose, catalog.models).value, m);
  }

  // ----- changing the policy

  /** Two policies that filter and score alike; they may differ in ladder length and in the scale of their weights. */
  ghost predicate ScoresAlike(p: RoutingPolicy, q: RoutingPolicy) {
    && p.freshnessPenalty == q.freshnessPenalty && p.degradedPenalty == q.degradedPenalty
    && p.fallbackBonus == q.fallbackBonus
    && NormalizeWeights(p.weights) == NormalizeWeights(q.weights)
  }

  lemma AlikeModel(ctx: Context, q: RoutingPolicy, m: CatalogModel, rank: int)
    requires ScoresAlike(ctx.policy, q)
    ensures FirstFailure(ctx.(policy := q), m) == FirstFailure(ctx, m)
    ensures CandidateOf(ctx.(policy := q), m, rank) == CandidateOf(ctx, m, rank)
  {
    hide Round4, Scaled, TokenEstimator.EstimateTokens, PickTier, TokenCharge, Discounted, WithPremium, RoundMoney,
      Confidence, CostScore, BenefitScore, PerThousand, AgeSeconds, MatchesCapabilities;
    var ctx' := ctx.(policy := q);
    FirstFailureCases(ctx, m);
    FirstFailureCases(ctx', m);
    assert InputTokens(ctx', m) == InputTokens(ctx, m) && OutputTokens(ctx') == OutputTokens(ctx);
    assert ListCost(ctx', m) == ListCost(ctx, m) && PremiumRate(ctx', m) == PremiumRate(ctx, m);
    assert FinalCost(ctx', m) == FinalCost(ctx, m);
    assert Scores(ctx', m) == Scores(ctx, m);
  }

  lemma {:induction false} AlikeCatalog(ctx: Context, q: RoutingPolicy, models: seq<CatalogModel>)
    requires ScoresAlike(ctx.policy, q)
    ensures Survivors(ctx.(policy := q), models) == Survivors(ctx, models)
    ensures Rejections(ctx.(policy := q), models) == Rejections(ctx, models)
    ensures FreshnessValues(ctx.(policy := q), models) == FreshnessValues(ctx, models)
  {
    hide FirstFailure, CandidateOf, ScoresAlike, AgeSeconds;
    if models != [] {
      var front, m := models[..|models| - 1], models[|models| - 1];
      AlikeCatalog(ctx, q, front);
      AlikeModel(ctx, q, m, |Survivors(ctx, front)| + 1);
      assert FailsProvider(ctx.(policy := q), m) == FailsProvider(ctx, m);
      assert FailsCapability(ctx.(policy := q), m) == FailsCapability(ctx, m);
      assert ctx.(policy := q).SignalOf(m) == ctx.SignalOf(m);
    }
  }

  function ScaleWeights(w: PolicyWeights, factor: real): PolicyWeights {
    PolicyWeights(Scaled(w.tokenCost, factor), Scaled(w.qps, factor), Scaled(w.latency, factor),
                  Scaled(w.accuracy, factor))
  }

  lemma ScaledWeightsNormalizeAlike(w: PolicyWeights, factor: real)
    requires w.Valid() && factor > 0.0
    ensures NormalizeWeights(ScaleWeights(w, factor)) == NormalizeWeights(w)
  {
    hide Scaled, Share;
    var total := w.tokenCost + w.qps + w.latency + w.accuracy;
    ScaledShare(w.tokenCost, total, factor);
    ScaledShare(w.qps, total, factor);
    ScaledShare(w.latency, total, factor);
    ScaledShare(w.accuracy, total, factor);
    ScaledSum(w.tokenCost, w.qps, factor);
    ScaledSum(w.tokenCost + w.qps, w.latency, factor);
    ScaledSum(w.tokenCost + w.qps + w.latency, w.accuracy, factor);
    ScaledNonNegative(w.tokenCost, factor);
    ScaledNonNegative(w.qps, factor);
    ScaledNonNegative(w.latency, factor);
    ScaledNonNegative(w.accuracy, factor);
  }

  /** Only the proportions of the weights matter: scaling them all changes no part of the decision. */
  lemma WeightScaleInvariance(ctx: Context, models: seq<CatalogModel>, factor: real)
    requires ctx.policy.weights.Valid() && factor > 0.0
    ensures Decide(ctx.(policy := ctx.policy.(weights := ScaleWeights(ctx.policy.weights, factor))), models)
            == Decide(ctx, models)
  {
    ScaledWeightsNormalizeAlike(ctx.policy.weights, factor);
    var q := ctx.policy.(weights := ScaleWeights(ctx.policy.weights, factor));
    hide ScaleWeights, NormalizeWeights, Survivors, Rejections, FreshnessValues, SafetyScore, AllValid, Rerank,
      StableSort, CountReason;
    AlikeCatalog(ctx, q, models);
  }

  /** A shorter ladder is the front of a longer one. */
  lemma LadderPrefix(ctx: Context, models: seq<CatalogModel>, k: nat, d: Decision, d': Decision)
    requires 1 <= k <= ctx.policy.maxCandidates
    requires Decide(ctx, models) == Ok(d)
    requires Decide(ctx.(policy := ctx.policy.(maxCandidates := k)), models) == Ok(d')
    ensures |d'.candidates| <= |d.candidates| && d'.candidates == d.candidates[..|d'.candidates|]
    ensures d'.rejections == d.rejections
  {
    hide NormalizeWeights, Survivors, Rejections, FreshnessValues, SafetyScore, AllValid, StableSort, CountReason;
    AlikeCatalog(ctx, ctx.policy.(maxCandidates := k), models);
  }

  // ----- the safety score

  ghost predicate Descending(cs: seq<Candidate>) {
    && (forall i, j :: 0 <= i < j < |cs| ==> cs[i].confidence >= cs[j].confidence)
    && (forall c :: c in cs ==> 0.0 <= c.confidence <= 1.0 && Round4(c.confidence) == c.confidence)
  }

  lemma {:induction false} SumAtLeastLast(cs: seq<Candidate>, x: real)
    requires forall c :: c in cs ==> c.confidence >= x
    ensures SumConfidence(cs) >= Scaled(|cs| as real, x)
  {
    if cs != [] {
      SumAtLeastLast(cs[..|cs| - 1], x);
      ScaledSum((|cs| - 1) as real, 1.0, x);
    }
  }

  /** One more, no better, candidate does not raise the mean. */
  lemma MeanStep(cs: seq<Candidate>, n: nat)
    requires Descending(cs) && 1 <= n < |cs|
    ensures SafetyScore(cs[..n + 1]) <= SafetyScore(cs[..n])
  {
    hide Round4;
    var s, x := SumConfidence(cs[..n]), cs[n].confidence;
    SumAtLeastLast(cs[..n], x);
    assert cs[..n + 1][..n] == cs[..n];
    assert SumConfidence(cs[..n + 1]) == s + x;
    hide Scaled;
    MeanNoHigher(s, x, n);
    ClampMonotone((s + x) / (n + 1) as real, s / n as real);
    Round4Monotone(Clamp((s + x) / (n + 1) as real), Clamp(s / n as real));
  }

  lemma {:induction false} SafetyNonIncreasing(cs: seq<Candidate>, k: nat)
    requires Descending(cs) && 1 <= k <= |cs|
    ensures SafetyScore(cs) <= SafetyScore(cs[..k])
    decreases |cs| - k
  {
    hide SafetyScore;
    if k < |cs| {
      MeanStep(cs, k);
      SafetyNonIncreasing(cs, k + 1);
    } else {
      assert cs[..k] == cs;
    }
  }

  lemma SafetyOfOne(c: Candidate)
    requires 0.0 <= c.confidence <= 1.0 && Round4(c.confidence) == c.confidence
    ensures SafetyScore([c]) == c.confidence
  {
    assert SumConfidence([c]) == c.confidence;
  }

  lemma LadderDescends(ctx: Context, models: seq<CatalogModel>, d: Decision)
    requires Decide(ctx, models) == Ok(d)
    ensures Descending(d.candidates)
  {
    hide Decide, Survives, Confidence, Scores, FinalCost, ExpectedTtfb, RoundMoney, Round4;
    forall i, j | 0 <= i < j < |d.candidates|
      ensures d.candidates[i].confidence >= d.candidates[j].confidence
    {
      var m := LadderEntry(ctx, models, d, i);
    }
    forall c | c in d.candidates
      ensures 0.0 <= c.confidence <= 1.0 && Round4(c.confidence) == c.confidence
    {
      var i: nat :| i < |d.candidates| && d.candidates[i] == c;
      var m := LadderEntry(ctx, models, d, i);
      ConfidenceRange(Scores(ctx, m), NormalizeWeights(ctx.policy.weights));
    }
  }

  lemma SafetyOfPrefix(cs: seq<Candidate>, n: nat)
    requires Descending(cs) && 1 <= n <= |cs|
    ensures SafetyScore(cs) <= SafetyScore(cs[..n]) <= cs[0].confidence
  {
    hide SafetyScore, Round4;
    SafetyNonIncreasing(cs, n);
    var front := cs[..n];
    assert forall c :: c in front ==> c in cs;
    SafetyNonIncreasing(front, 1);
    assert front[..1] == [cs[0]];
    SafetyOfOne(cs[0]);
  }

  /** The safety score never exceeds the recommended confidence, and a longer ladder never raises it. */
  lemma SafetyScoreLaw(ctx: Context, models: seq<CatalogModel>, k: nat, d: Decision, d': Decision)
    requires 1 <= k <= ctx.policy.maxCandidates
    requires Decide(ctx, models) == Ok(d)
    requires Decide(ctx.(policy := ctx.policy.(maxCandidates := k)), models) == Ok(d')
    ensures d.candidates != []
    ensures d.observability.fallbackSafetyScore <= d'.observability.fallbackSafetyScore <= d.candidates[0].confidence
  {
    LadderPrefix(ctx, models, k, d, d');
    LadderDescends(ctx, models, d);
    LadderScored(ctx, models, d);
    LadderScored(ctx.(policy := ctx.policy.(maxCandidates := k)), models, d');
    hide Decide, SafetyScore, Descending;
    SafetyOfPrefix(d.candidates, |d'.candidates|);
  }

  lemma LadderScored(ctx: Context, models: seq<CatalogModel>, d: Decision)
    requires Decide(ctx, models) == Ok(d)
    ensures d.candidates != [] && d.observability.fallbackSafetyScore == SafetyScore(d.candidates)
  {
    hide Survivors, Rejections, FreshnessValues, SafetyScore, AllValid, StableSort, CountReason;
  }
}
