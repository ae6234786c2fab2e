/** What callers of the decision engine rely on, for every catalog, request, policy and signal set. */
module EngineProperties {
  import opened Wrappers
  import opened Rounding
  import opened Arithmetic
  import opened Schemas
  import opened Ranking
  import opened PricingEngine
  import opened FilterLaws
  import TokenEstimator

  // ----- which models survive

  /** A model survives when it fits the request, and so fails no filter; otherwise the recorded reason is the first
      filter whose demand it does not meet. */
  lemma FirstFailingFilter(ctx: Context, m: CatalogModel)
    ensures FirstFailure(ctx, m) == None <==> Survives(ctx, m)
    ensures forall k :: 0 <= k < |FILTER_ORDER| ==>
      (FirstFailure(ctx, m) == Some(FILTER_ORDER[k])
       <==> Fails(ctx, m, FILTER_ORDER[k]) && forall j :: 0 <= j < k ==> !Fails(ctx, m, FILTER_ORDER[j]))
    ensures Survives(ctx, m) <==> Fits(ctx, m)
    ensures forall reason :: Fails(ctx, m, reason) <==> !Meets(ctx, m, reason)
  {
    hide Fits, Meets, FailsProvider, FailsCapability, FailsCapacity, FailsBudget, FailsLatency;
    FirstFailureCases(ctx, m);
    assert FILTER_ORDER[0] == ProviderFiltered && FILTER_ORDER[1] == CapabilityFiltered
           && FILTER_ORDER[2] == CapacityFiltered && FILTER_ORDER[3] == BudgetFiltered
           && FILTER_ORDER[4] == LatencyFiltered;
    assert Fails(ctx, m, ProviderFiltered) == FailsProvider(ctx, m);
    assert Fails(ctx, m, CapabilityFiltered) == FailsCapability(ctx, m);
    assert Fails(ctx, m, CapacityFiltered) == FailsCapacity(ctx, m);
    assert Fails(ctx, m, BudgetFiltered) == FailsBudget(ctx, m);
    assert Fails(ctx, m, LatencyFiltered) == FailsLatency(ctx, m);
    SurvivalLaw(ctx, m);
    forall reason: Reason {
      FilterMeans(ctx, m, reason);
    }
  }

  ghost function ModelIds(models: seq<CatalogModel>): multiset<string> {
    if models == [] then multiset{} else ModelIds(models[..|models| - 1]) + multiset{models[|models| - 1].modelId}
  }

  ghost function CandidateIds(cs: seq<Candidate>): multiset<string> {
    if cs == [] then multiset{} else CandidateIds(cs[..|cs| - 1]) + multiset{cs[|cs| - 1].modelId}
  }

  ghost function RejectionIds(rs: seq<Rejection>): multiset<string> {
    if rs == [] then multiset{} else RejectionIds(rs[..|rs| - 1]) + multiset{rs[|rs| - 1].modelId}
  }

  lemma OneIdMore(ctx: Context, m: CatalogModel, cs: seq<Candidate>, rs: seq<Rejection>, rank: int, reason: Reason)
    ensures CandidateIds(cs + [CandidateOf(ctx, m, rank)]) == CandidateIds(cs) + multiset{m.modelId}
    ensures RejectionIds(rs + [Rejection(m.modelId, m.provider, reason)]) == RejectionIds(rs) + multiset{m.modelId}
  {
    var c, r := CandidateOf(ctx, m, rank), Rejection(m.modelId, m.provider, reason);
    assert c.modelId == m.modelId;
    hide CandidateOf;
    assert (cs + [c])[..|cs|] == cs;
    assert (rs + [r])[..|rs|] == rs;
  }

  /** Rejections and survivors together are the catalog, each model once. */
  lemma {:induction false} Partition(ctx: Context, models: seq<CatalogModel>)
    ensures RejectionIds(Rejections(ctx, models)) + CandidateIds(Survivors(ctx, models)) == ModelIds(models)
    ensures |Rejections(ctx, models)| + |Survivors(ctx, models)| == |models|
  {
    hide CandidateOf, FirstFailure, CandidateIds, RejectionIds;
    if models == [] {
      NoIds();
    } else {
      var front, m := models[..|models| - 1], models[|models| - 1];
      Partition(ctx, front);
      var cs, rs, verdict := Survivors(ctx, front), Rejections(ctx, front), FirstFailure(ctx, m);
      OneIdMore(ctx, m, cs, rs, |cs| + 1, if verdict.Some? then verdict.value else ProviderFiltered);
    }
  }

  lemma NoIds()
    ensures CandidateIds([]) == multiset{} && RejectionIds([]) == multiset{}
  {
  }

  /** Every survivor is the candidate of a catalog model that passes all five filters ... */
  lemma {:induction false} SurvivorHasModel(ctx: Context, models: seq<CatalogModel>, c: Candidate)
    returns (m: CatalogModel)
    requires c in Survivors(ctx, models)
    ensures m in models && Survives(ctx, m) && c == CandidateOf(ctx, m, c.rank)
  {
    hide FirstFailure, Survives, CandidateOf;
    var front, rank := models[..|models| - 1], |Survivors(ctx, models[..|models| - 1])| + 1;
    m := models[|models| - 1];
    if c in Survivors(ctx, front) {
      m := SurvivorHasModel(ctx, front, c);
    } else {
      FirstFailingFilter(ctx, m);
      CandidateRank(ctx, m, rank);
    }
  }

  /** ... and every such model is among the survivors. */
  lemma {:induction false} SurvivingModelListed(ctx: Context, models: seq<CatalogModel>, m: CatalogModel)
    returns (c: Candidate)
    requires m in models && Survives(ctx, m)
    ensures c in Survivors(ctx, models) && c == CandidateOf(ctx, m, c.rank)
  {
    hide FirstFailure, Survives, CandidateOf;
    var front, rank := models[..|models| - 1], |Survivors(ctx, models[..|models| - 1])| + 1;
    if m == models[|models| - 1] {
      FirstFailingFilter(ctx, m);
      CandidateRank(ctx, m, rank);
      c := CandidateOf(ctx, m, rank);
    } else {
      c := SurvivingModelListed(ctx, front, m);
    }
  }

  lemma CandidateRank(ctx: Context, m: CatalogModel, rank: int)
    ensures CandidateOf(ctx, m, rank).rank == rank
  {
  }

  /** Every rejection names a catalog model and the first filter that model fails. */
  lemma {:induction false} RejectionsNameTheFirstFailure(ctx: Context, models: seq<CatalogModel>)
    ensures forall r :: r in Rejections(ctx, models) ==>
      exists m :: m in models && r.modelId == m.modelId && r.provider == m.provider
        && FirstFailure(ctx, m) == Some(r.reason)
  {
    hide FirstFailure;
    if models != [] {
      var front, m := models[..|models| - 1], models[|models| - 1];
      RejectionsNameTheFirstFailure(ctx, front);
      assert models == front + [m];
    }
  }

  lemma {:induction false} CountsSumUp(rs: seq<Rejection>)
    ensures CountReason(rs, ProviderFiltered) + CountReason(rs, CapabilityFiltered) + CountReason(rs, CapacityFiltered)
            + CountReason(rs, BudgetFiltered) + CountReason(rs, LatencyFiltered) == |rs|
  {
    if rs != [] {
      CountsSumUp(rs[..|rs| - 1]);
    }
  }

  /** The five counters of a decision add up to its rejections, and with the survivors to the catalog. */
  lemma CountersAddUp(ctx: Context, models: seq<CatalogModel>, d: Decision)
    requires Decide(ctx, models) == Ok(d)
    ensures var o := d.observability;
            && o.filteredByProvider + o.filteredByCapability + o.filteredByCapacity + o.filteredByBudget
               + o.filteredByLatency == |d.rejections|
            && o.evaluatedModels == |models| == |d.rejections| + |Survivors(ctx, models)|
            && o.candidateCount == |d.candidates| <= |Survivors(ctx, models)|
  {
    hide FirstFailure, CandidateOf, CountReason, SafetyScore, AllValid;
    CountsSumUp(d.rejections);
    Partition(ctx, models);
  }

  // ----- the cost of a surviving model

  lemma PricesNonNegative(tiers: seq<PricingTier>, m: CatalogModel, tokens: int)
    requires m.Valid() && forall t :: t in tiers ==> t.Valid()
    ensures PickTier(tiers, m, tokens).Valid()
    ensures PickTier(tiers, m, tokens) in tiers
            || PickTier(tiers, m, tokens) == PricingTier(None, m.inPrice1k, m.outPrice1k)
  {
  }

  /** The price used is that of the first tier wide enough, and the list price only when no tier is. */
  lemma {:induction false} FirstFittingTier(tiers: seq<PricingTier>, m: CatalogModel, tokens: int, k: nat)
    requires k <= |tiers|
    requires forall j :: 0 <= j < k ==> tiers[j].uptoTokens.Some? && tokens > tiers[j].uptoTokens.value
    requires k < |tiers| ==> tiers[k].uptoTokens.None? || tokens <= tiers[k].uptoTokens.value
    ensures PickTier(tiers, m, tokens) == if k < |tiers| then tiers[k] else PricingTier(None, m.inPrice1k, m.outPrice1k)
  {
    if k > 0 {
      FirstFittingTier(tiers[1..], m, tokens, k - 1);
    }
  }

  lemma ChargeNonNegative(tokens: int, price: real)
    requires tokens >= 0 && price >= 0.0
    ensures TokenCharge(tokens, price) >= 0.0
  {
    ScaledNonNegative(tokens as real / 1000.0, price);
  }

  lemma ListCostNonNegative(ctx: Context, m: CatalogModel)
    requires m.Valid()
    ensures ListCost(ctx, m) >= 0.0
  {
    hide TokenCharge, PickTier;
    TokenEstimator.EstimateBounds(ctx.request.inputChars, m.modelId, ctx.request.language);
    PricesNonNegative(m.pricingTiers, m, TotalTokens(ctx, m));
    var tier := PickTier(m.pricingTiers, m, TotalTokens(ctx, m));
    ChargeNonNegative(InputTokens(ctx, m), tier.inPrice1k);
    ChargeNonNegative(OutputTokens(ctx), tier.outPrice1k);
  }

  /** Without tiers, a price raised by `delta` raises the list cost by `delta` per thousand tokens of its own kind. */
  lemma PriceSensitivity(ctx: Context, m: CatalogModel, delta: real)
    requires m.pricingTiers == []
    ensures ListCost(ctx, m.(inPrice1k := m.inPrice1k + delta))
            == ListCost(ctx, m) + InputTokens(ctx, m) as real / 1000.0 * delta
    ensures ListCost(ctx, m.(outPrice1k := m.outPrice1k + delta))
            == ListCost(ctx, m) + OutputTokens(ctx) as real / 1000.0 * delta
  {
    hide TokenEstimator.EstimateTokens, OutputTokens;
    var dearerIn, dearerOut := m.(inPrice1k := m.inPrice1k + delta), m.(outPrice1k := m.outPrice1k + delta);
    assert TotalTokens(ctx, dearerIn) == TotalTokens(ctx, m) == TotalTokens(ctx, dearerOut);
    var x, y := InputTokens(ctx, m) as real / 1000.0, OutputTokens(ctx) as real / 1000.0;
    assert x * (m.inPrice1k + delta) == x * m.inPrice1k + x * delta;
    assert y * (m.outPrice1k + delta) == y * m.outPrice1k + y * delta;
  }

  /** What the discount and the premium can do to a list price. */
  lemma DiscountThenPremium(list: real, discount: real, maxDiscount: real, premium: real, maxPremium: real)
    requires list >= 0.0 && 0.0 <= discount <= maxDiscount <= 1.0 && 0.0 <= premium <= maxPremium
    ensures 0.0 <= Discounted(list, maxDiscount) <= Discounted(list, discount) <= list
    ensures Discounted(list, maxDiscount) <= WithPremium(Discounted(list, discount), premium)
            <= WithPremium(list, maxPremium)
  {
    hide Scaled;
    ScaledNonNegative(list, discount);
    ScaledMonotone(discount, maxDiscount, list);
    ScaledMonotone(maxDiscount, 1.0, list);
    ScaledByOne(list);
    var x := Discounted(list, discount);
    ScaledNonNegative(x, premium);
    ScaledMonotone(premium, maxPremium, x);
    ScaledMonotone(x, list, maxPremium);
  }

  /** The capacity filter bounds how far a surviving request can overrun the burst threshold. */
  ghost function MaxOverage(m: CatalogModel): real {
    Max(0.0, Min(1.0, m.hardCapacityFactor - m.burstQpsThreshold))
  }

  lemma PremiumBounded(ctx: Context, m: CatalogModel)
    requires m.Valid() && !FailsCapacity(ctx, m)
    ensures 0.0 <= PremiumRate(ctx, m) <= Scaled(m.concurrencyPremiumRate, MaxOverage(m))
  {
    hide Scaled;
    var hint, qps := ctx.Hint(), ctx.QpsOf(m);
    ScaledNonNegative(m.concurrencyPremiumRate, MaxOverage(m));
    if hint > 0.0 && qps > 0.0 && hint / qps > m.burstQpsThreshold {
      CrossMultiply(hint, qps, m.hardCapacityFactor, 1.0);
      var overage := Min(hint / qps - m.burstQpsThreshold, 1.0);
      ScaledMonotone(overage, MaxOverage(m), m.concurrencyPremiumRate);
      ScaledNonNegative(m.concurrencyPremiumRate, overage);
    }
  }

  /** A surviving model's cost stays between the fully discounted and the fully surcharged list price,
      so the closing `max(0, cost)` never changes anything. */
  lemma CostEnvelope(ctx: Context, m: CatalogModel)
    requires m.Valid() && Survives(ctx, m)
    ensures FinalCost(ctx, m) == WithPremium(Discounted(ListCost(ctx, m), DiscountRate(ctx, m)), PremiumRate(ctx, m))
    ensures 0.0 <= Discounted(ListCost(ctx, m), m.longTextDiscountRate) <= FinalCost(ctx, m)
    ensures FinalCost(ctx, m) <= WithPremium(ListCost(ctx, m), Scaled(m.concurrencyPremiumRate, MaxOverage(m)))
  {
    assert !FailsCapacity(ctx, m) by { assert !Fails(ctx, m, CapacityFiltered); }
    PremiumBounded(ctx, m);
    ListCostNonNegative(ctx, m);
    hide ListCost, PremiumRate, MaxOverage, Survives, FailsCapacity, Scaled, Discounted, WithPremium;
    DiscountThenPremium(ListCost(ctx, m), DiscountRate(ctx, m), m.longTextDiscountRate, PremiumRate(ctx, m),
                        Scaled(m.concurrencyPremiumRate, MaxOverage(m)));
  }

  /** The estimate returned for a survivor is a rounded amount that is itself within the request's budget. */
  lemma SurvivorWithinBudget(ctx: Context, m: CatalogModel)
    requires Survives(ctx, m) && ctx.request.budgetLimitUsd >= 0.0
    ensures 0.0 <= FinalCost(ctx, m) <= ctx.request.budgetLimitUsd
    ensures 0.0 <= RoundMoney(FinalCost(ctx, m)) <= RoundMoney(ctx.request.budgetLimitUsd)
  {
    assert !Fails(ctx, m, BudgetFiltered);
    RoundMoneyNear(FinalCost(ctx, m));
    RoundMoneyMonotone(FinalCost(ctx, m), ctx.request.budgetLimitUsd);
  }

  // ----- scores

  lemma CostScoreAntitone(v: real, w: real, baseline: real)
    requires v <= w
    ensures CostScore(w, baseline) <= CostScore(v, baseline)
  {
    var v', w', b := Max(v, 0.0), Max(w, 0.0), Max(baseline, 0.000001);
    if v' > 0.0 {
      ShareShrinks(v', w', b);
      ClampMonotone(b / (w' + b), b / (v' + b));
    }
  }

  lemma BenefitScoreMonotone(v: real, w: real, baseline: real)
    requires v <= w
    ensures BenefitScore(v, baseline) <= BenefitScore(w, baseline)
  {
    var v', w', b := Max(v, 0.0), Max(w, 0.0), Max(baseline, 0.000001);
    ShareGrows(v', w', b);
    ClampMonotone(v' / (v' + b), w' / (w' + b));
  }

  ghost predicate NonNegative(w: PolicyWeights) {
    w.tokenCost >= 0.0 && w.qps >= 0.0 && w.latency >= 0.0 && w.accuracy >= 0.0
  }

  lemma NormalizedNonNegative(w: PolicyWeights)
    ensures NonNegative(NormalizeWeights(w))
  {
    hide Share;
    var sum := Max(0.0, w.tokenCost) + Max(0.0, w.qps) + Max(0.0, w.latency) + Max(0.0, w.accuracy);
    var total := if sum == 0.0 then 1.0 else sum;
    ShareNonNegative(Max(0.0, w.tokenCost), total);
    ShareNonNegative(Max(0.0, w.qps), total);
    ShareNonNegative(Max(0.0, w.latency), total);
    ShareNonNegative(Max(0.0, w.accuracy), total);
  }

  function TotalWeight(w: PolicyWeights): real { w.tokenCost + w.qps + w.latency + w.accuracy }

  /** Normalized weights are proportions. */
  lemma NormalizedSumToOne(w: PolicyWeights)
    requires w.Valid()
    ensures TotalWeight(NormalizeWeights(w)) == 1.0
  {
    hide Share;
    var total := TotalWeight(w);
    ShareSum(w.tokenCost, w.qps, total);
    ShareSum(w.tokenCost + w.qps, w.latency, total);
    ShareSum(w.tokenCost + w.qps + w.latency, w.accuracy, total);
    ShareOfAll(total);
  }

  /** A policy that weighs one dimension only is confident by that dimension's score, less penalties plus bonus. */
  lemma OneDimension(scores: ScoreBreakdown, x: real)
    requires x > 0.0
    ensures var adjustment := scores.fallbackBonus - scores.freshnessPenalty - scores.degradedPenalty;
            && Confidence(scores, NormalizeWeights(PolicyWeights(x, 0.0, 0.0, 0.0)))
               == Round4(Clamp(scores.tokenCost + adjustment))
            && Confidence(scores, NormalizeWeights(PolicyWeights(0.0, x, 0.0, 0.0)))
               == Round4(Clamp(scores.qps + adjustment))
            && Confidence(scores, NormalizeWeights(PolicyWeights(0.0, 0.0, x, 0.0)))
               == Round4(Clamp(scores.latency + adjustment))
            && Confidence(scores, NormalizeWeights(PolicyWeights(0.0, 0.0, 0.0, x)))
               == Round4(Clamp(scores.accuracy + adjustment))
  {
    hide Round4, Clamp;
    assert x / x == 1.0 && 0.0 / x == 0.0;
    assert NormalizeWeights(PolicyWeights(x, 0.0, 0.0, 0.0)) == PolicyWeights(1.0, 0.0, 0.0, 0.0);
    assert NormalizeWeights(PolicyWeights(0.0, x, 0.0, 0.0)) == PolicyWeights(0.0, 1.0, 0.0, 0.0);
    assert NormalizeWeights(PolicyWeights(0.0, 0.0, x, 0.0)) == PolicyWeights(0.0, 0.0, 1.0, 0.0);
    assert NormalizeWeights(PolicyWeights(0.0, 0.0, 0.0, x)) == PolicyWeights(0.0, 0.0, 0.0, 1.0);
  }

  /** A value at its baseline scores one half. */
  lemma BaselineScoresHalf(b: real)
    requires b >= 0.000001
    ensures BenefitScore(b, b) == 0.5 && CostScore(b, b) == 0.5
  {
    assert b / (b + b) == 0.5 by {
      assert 0.5 * (b + b) == b;
    }
  }

  ghost predicate NoWorse(a: ScoreBreakdown, b: ScoreBreakdown) {
    && a.tokenCost >= b.tokenCost && a.qps >= b.qps && a.latency >= b.latency && a.accuracy >= b.accuracy
    && a.freshnessPenalty <= b.freshnessPenalty && a.degradedPenalty <= b.degradedPenalty
    && a.fallbackBonus >= b.fallbackBonus
  }

  lemma ConfidenceMonotone(a: ScoreBreakdown, b: ScoreBreakdown, w: PolicyWeights)
    requires NoWorse(a, b) && NonNegative(w)
    ensures Confidence(a, w) >= Confidence(b, w)
  {
    hide Round4, Clamp, Scaled;
    ScaledMonotone(b.tokenCost, a.tokenCost, w.tokenCost);
    ScaledMonotone(b.qps, a.qps, w.qps);
    ScaledMonotone(b.latency, a.latency, w.latency);
    ScaledMonotone(b.accuracy, a.accuracy, w.accuracy);
    var x, y := WeightedScore(b, w), WeightedScore(a, w);
    assert x <= y;
    ClampMonotone(x, y);
    Round4Monotone(Clamp(x), Clamp(y));
  }

  /** The inputs of `ScoresOf`, compared. */
  lemma ScoresMonotone(ctx: Context, other: Context, unit: real, unit': real, qps: real, qps': real, ttfb: int,
                       ttfb': int, acc: real, acc': real, rate: real, rate': real, stale: real, stale': real,
                       degraded: real, degraded': real)
    requires other.baseline == ctx.baseline && other.policy == ctx.policy && ctx.policy.fallbackBonus >= 0.0
    requires unit <= unit' && qps >= qps' && ttfb <= ttfb' && Scaled(acc, rate) >= Scaled(acc', rate') && rate >= rate'
    requires stale <= stale' && degraded <= degraded'
    ensures NoWorse(ScoresOf(ctx, unit, qps, ttfb, acc, rate, stale, degraded),
                    ScoresOf(other, unit', qps', ttfb', acc', rate', stale', degraded'))
  {
    hide Round4, CostScore, BenefitScore, Scaled;
    CostScoreAntitone(unit, unit', ctx.Baseline(TokenCost));
    Round4Monotone(CostScore(unit', ctx.Baseline(TokenCost)), CostScore(unit, ctx.Baseline(TokenCost)));
    BenefitScoreMonotone(qps', qps, ctx.Baseline(Qps));
    Round4Monotone(BenefitScore(qps', ctx.Baseline(Qps)), BenefitScore(qps, ctx.Baseline(Qps)));
    CostScoreAntitone(ttfb as real, ttfb' as real, ctx.Baseline(Latency));
    Round4Monotone(CostScore(ttfb' as real, ctx.Baseline(Latency)), CostScore(ttfb as real, ctx.Baseline(Latency)));
    BenefitScoreMonotone(Scaled(acc', rate'), Scaled(acc, rate), ctx.Baseline(Accuracy));
    Round4Monotone(BenefitScore(Scaled(acc', rate'), ctx.Baseline(Accuracy)),
                   BenefitScore(Scaled(acc, rate), ctx.Baseline(Accuracy)));
    ScaledMonotone(rate', rate, ctx.policy.fallbackBonus);
    Round4Monotone(Scaled(ctx.policy.fallbackBonus, rate'), Scaled(ctx.policy.fallbackBonus, rate));
  }

  lemma ScoreRange(v: real, b: real)
    ensures 0.0 <= Round4(CostScore(v, b)) <= 1.0 && 0.0 <= Round4(BenefitScore(v, b)) <= 1.0
  {
    hide Round4;
    Round4Unit(CostScore(v, b));
    Round4Unit(BenefitScore(v, b));
  }

  lemma FreshnessPenaltyRange(ctx: Context, m: CatalogModel)
    requires 0.0 <= ctx.policy.freshnessPenalty <= 1.0
    ensures 0.0 <= FreshnessPenalty(ctx, m) <= 1.0
  {
    hide Round4, Scaled;
    Round4Unit(ctx.policy.freshnessPenalty);
    var age := AgeSeconds(ctx.SignalOf(m), ctx.now);
    if age.Some? && age.value > ctx.freshnessSeconds {
      var budget := MaxInt(ctx.freshnessSeconds, 1) as real;
      QuotientMonotone(0.0, age.value as real, budget);
      var share := Min(1.0, age.value as real / budget);
      ScaledNonNegative(ctx.policy.freshnessPenalty, share);
      ScaledMonotone(share, 1.0, ctx.policy.freshnessPenalty);
      ScaledByOne(ctx.policy.freshnessPenalty);
      Round4Unit(Scaled(ctx.policy.freshnessPenalty, share));
    }
  }

  /** With valid inputs every score, penalty, bonus and confidence is in range: no candidate fails to construct. */
  lemma CandidateInRange(ctx: Context, m: CatalogModel, rank: int)
    requires ctx.Valid() && m.Valid() && rank >= 1
    ensures CandidateOf(ctx, m, rank).Valid()
  {
    hide Round4, CostScore, BenefitScore, FinalCost, UnitCost, FreshnessPenalty, AgeSeconds, RoundMoney,
      NormalizeWeights, Scaled;
    var rate := ctx.SuccessRateOf(m);
    ScoreRange(UnitCost(ctx, m), ctx.Baseline(TokenCost));
    ScoreRange(ctx.QpsOf(m), ctx.Baseline(Qps));
    ScoreRange(ExpectedTtfb(ctx, m) as real, ctx.Baseline(Latency));
    ScoreRange(Scaled(m.accuracy, rate), ctx.Baseline(Accuracy));
    FreshnessPenaltyRange(ctx, m);
    Round4Unit(if Degraded(ctx.SignalOf(m)) then ctx.policy.degradedPenalty else 0.0);
    ScaledNonNegative(ctx.policy.fallbackBonus, rate);
    ScaledMonotone(rate, 1.0, ctx.policy.fallbackBonus);
    ScaledByOne(ctx.policy.fallbackBonus);
    Round4Unit(Scaled(ctx.policy.fallbackBonus, rate));
    assert Scores(ctx, m).Valid();
    hide Scores, ScoresOf;
    ConfidenceRange(Scores(ctx, m), NormalizeWeights(ctx.policy.weights));
    CostNonNegative(ctx, m);
    AgeNonNegative(ctx.SignalOf(m), ctx.now);
  }

  lemma ConfidenceRange(scores: ScoreBreakdown, w: PolicyWeights)
    ensures 0.0 <= Confidence(scores, w) <= 1.0
    ensures Round4(Confidence(scores, w)) == Confidence(scores, w)
  {
    hide Round4;
    var x := Clamp(WeightedScore(scores, w));
    Round4Unit(x);
    Round4Grid(x);
  }

  lemma CostNonNegative(ctx: Context, m: CatalogModel)
    ensures RoundMoney(FinalCost(ctx, m)) >= 0.0
  {
    RoundMoneyNear(FinalCost(ctx, m));
  }

  lemma AgeNonNegative(signal: Signal, now: real)
    ensures var age := AgeSeconds(signal, now); age.Some? ==> age.value >= 0
  {
  }

  lemma {:induction false} SurvivorRanks(ctx: Context, models: seq<CatalogModel>)
    ensures forall i :: 0 <= i < |Survivors(ctx, models)| ==> Survivors(ctx, models)[i].rank == i + 1
  {
    hide CandidateOf, FirstFailure;
    if models != [] {
      SurvivorRanks(ctx, models[..|models| - 1]);
      CandidateRank(ctx, models[|models| - 1], |Survivors(ctx, models[..|models| - 1])| + 1);
    }
  }

  lemma SurvivorsValid(ctx: Context, catalog: Catalog)
    requires ctx.Valid() && catalog.Valid()
    ensures AllValid(Survivors(ctx, catalog.models))
  {
    hide CandidateOf, Survives, Candidate.Valid, Context.Valid, CatalogModel.Valid, Survivors;
    var models := catalog.models;
    SurvivorRanks(ctx, models);
    forall c | c in Survivors(ctx, models)
      ensures c.Valid()
    {
      var m := SurvivorHasModel(ctx, models, c);
      CandidateInRange(ctx, m, c.rank);
    }
  }

  lemma LadderLength(ctx: Context, models: seq<CatalogModel>)
    ensures |Ladder(ctx, models)| ==
            if |Survivors(ctx, models)| <= ctx.policy.maxCandidates then |Survivors(ctx, models)|
            else ctx.policy.maxCandidates
  {
  }

  lemma {:induction false} FreshnessNonNegative(ctx: Context, models: seq<CatalogModel>)
    requires ctx.freshnessSeconds >= 0
    ensures forall v :: v in FreshnessValues(ctx, models) ==> v >= 0
  {
    hide AgeSeconds, FailsProvider, FailsCapability;
    if models != [] {
      FreshnessNonNegative(ctx, models[..|models| - 1]);
      AgeNonNegative(ctx.SignalOf(models[|models| - 1]), ctx.now);
    }
  }

  lemma {:induction false} LeastIsOne(values: seq<int>)
    ensures Least(values).Some? ==> Least(values).value in values
  {
    if values != [] {
      LeastIsOne(values[..|values| - 1]);
    }
  }

  lemma SafetyScoreRange(cs: seq<Candidate>)
    ensures 0.0 <= SafetyScore(cs) <= 1.0
  {
    hide Round4, SumConfidence;
    if cs != [] {
      Round4Unit(Clamp(SumConfidence(cs) / |cs| as real));
    }
  }

  /** The observability record is in range, survivors or not. */
  lemma ObservedInRange(ctx: Context, models: seq<CatalogModel>)
    requires ctx.freshnessSeconds >= 0
    ensures Observed(ctx, models).Valid()
  {
    hide FreshnessValues, SafetyScore, Least, Ladder, Rejections, CountReason;
    FreshnessNonNegative(ctx, models);
    LeastIsOne(FreshnessValues(ctx, models));
    SafetyScoreRange(Ladder(ctx, models));
  }

  /** With valid inputs the engine fails exactly when no model survives: every candidate and the observability record
      construct. */
  lemma ValidInputsNeverRaise(ctx: Context, catalog: Catalog)
    requires ctx.Valid() && catalog.Valid()
    ensures Decide(ctx, catalog.models).Err? <==> forall m :: m in catalog.models ==> !Survives(ctx, m)
    ensures Decide(ctx, catalog.models).Err? ==> Decide(ctx, catalog.models).error == NoSurvivors
  {
    assert ctx.policy.maxCandidates >= 1 && ctx.freshnessSeconds >= 0;
    SurvivorsValid(ctx, catalog);
    ObservedInRange(ctx, catalog.models);
    LadderLength(ctx, catalog.models);
    hide CandidateOf, Survives, Candidate.Valid, Observed, Observability.Valid, Context.Valid, CatalogModel.Valid,
      AllValid, Survivors, Ladder, Rejections;
    if Survivors(ctx, catalog.models) != [] {
      var m := SurvivorHasModel(ctx, catalog.models, Survivors(ctx, catalog.models)[0]);
    }
    forall m | m in catalog.models && Survives(ctx, m)
      ensures Survivors(ctx, catalog.models) != []
    {
      var c := SurvivingModelListed(ctx, catalog.models, m);
    }
  }
}
