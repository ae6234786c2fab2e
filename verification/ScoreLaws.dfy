/** What scores, penalties and confidence say about a model, in terms of its signal, its figures and the policy. */
module ScoreLaws {
  import opened Wrappers
  import opened Rounding
  import opened Arithmetic
  import opened Schemas
  import opened PricingEngine
  import opened FilterLaws
  import opened EngineProperties
  import opened EngineTheorems

  // ----- the age of a signal

  /** The whole seconds since the last probe; a probe time in the future counts as now. */
  lemma AgeLaw(signal: Signal, now: real)
    ensures AgeSeconds(signal, now).None? <==> signal.lastProbeAt.None?
    ensures signal.lastProbeAt.Some? ==>
              var (probed, age) := (signal.lastProbeAt.value, AgeSeconds(signal, now).value);
              if probed <= now then age as real <= now - probed < age as real + 1.0 else age == 0
  {
  }

  /** The model's signal was probed, less than one second more than the freshness budget ago. */
  ghost predicate Fresh(ctx: Context, m: CatalogModel) {
    && m.modelId in ctx.signals && ctx.signals[m.modelId].lastProbeAt.Some?
    && ctx.now - ctx.signals[m.modelId].lastProbeAt.value < ctx.freshnessSeconds as real + 1.0
  }

  lemma FreshMeans(ctx: Context, m: CatalogModel)
    requires ctx.freshnessSeconds >= 0
    ensures var age := AgeSeconds(ctx.SignalOf(m), ctx.now);
            Fresh(ctx, m) <==> age.Some? && age.value <= ctx.freshnessSeconds
  {
    AgeLaw(ctx.SignalOf(m), ctx.now);
    hide AgeSeconds;
  }

  /** The penalty is all or nothing: older than the budget, an age is at least one budget, so its share is never less
      than one. */
  lemma FreshnessLaw(ctx: Context, m: CatalogModel)
    requires ctx.freshnessSeconds >= 0
    ensures FreshnessPenalty(ctx, m) == if Fresh(ctx, m) then 0.0 else Round4(ctx.policy.freshnessPenalty)
  {
    hide Round4, Scaled, Fresh;
    FreshMeans(ctx, m);
    var age := AgeSeconds(ctx.SignalOf(m), ctx.now);
    if age.Some? && age.value > ctx.freshnessSeconds {
      ShareAboveOne(age.value, ctx.freshnessSeconds);
      ScaledByOne(ctx.policy.freshnessPenalty);
    }
  }

  lemma ShareAboveOne(age: int, budget: int)
    requires age > budget >= 0
    ensures Min(1.0, age as real / MaxInt(budget, 1) as real) == 1.0
  {
    CrossMultiply(1.0, 1.0, age as real, MaxInt(budget, 1) as real);
  }

  /** The model whose last probe is no older never has the larger penalty. */
  lemma YoungerNotPenalizedMore(ctx: Context, a: CatalogModel, b: CatalogModel)
    requires ctx.freshnessSeconds >= 0 && ctx.policy.freshnessPenalty >= 0.0
    requires a.modelId in ctx.signals && ctx.signals[a.modelId].lastProbeAt.Some?
    requires b.modelId in ctx.signals && ctx.signals[b.modelId].lastProbeAt.Some?
    requires ctx.signals[a.modelId].lastProbeAt.value >= ctx.signals[b.modelId].lastProbeAt.value
    ensures FreshnessPenalty(ctx, a) <= FreshnessPenalty(ctx, b)
  {
    hide FreshnessPenalty, Round4;
    FreshnessLaw(ctx, a);
    FreshnessLaw(ctx, b);
    Round4Monotone(0.0, ctx.policy.freshnessPenalty);
    Round4Unit(0.0);
    Round4Zero();
  }

  lemma Round4Zero()
    ensures Round4(0.0) == 0.0
  {
  }

  /** Of two models that are alike in everything else that is measured, one with a fresh signal is no less confident. */
  lemma FreshIsNoLessConfident(ctx: Context, a: CatalogModel, b: CatalogModel)
    requires ctx.freshnessSeconds >= 0 && ctx.policy.freshnessPenalty >= 0.0 && ctx.policy.fallbackBonus >= 0.0
    requires UnitCost(ctx, a) == UnitCost(ctx, b) && ctx.QpsOf(a) == ctx.QpsOf(b)
    requires ExpectedTtfb(ctx, a) == ExpectedTtfb(ctx, b) && a.accuracy == b.accuracy
    requires ctx.SuccessRateOf(a) == ctx.SuccessRateOf(b) && DegradedPenalty(ctx, a) == DegradedPenalty(ctx, b)
    requires Fresh(ctx, a)
    ensures ConfidenceOf(ctx, a) >= ConfidenceOf(ctx, b)
  {
    hide Round4, Scaled, Fresh, UnitCost, ExpectedTtfb, DegradedPenalty, FreshnessPenalty, ConfidenceOf;
    FreshnessLaw(ctx, a);
    FreshnessLaw(ctx, b);
    Round4Monotone(0.0, ctx.policy.freshnessPenalty);
    Round4Zero();
    DominanceInConfidence(ctx, a, b);
  }

  // ----- the other adjustments

  /** A degraded model pays the policy's penalty in full, any other none; the bonus goes with the success rate, which
      is one for a model that was never probed. */
  lemma AdjustmentLaw(ctx: Context, m: CatalogModel)
    ensures DegradedPenalty(ctx, m) ==
            if m.modelId in ctx.signals && ctx.signals[m.modelId].degradedReason.GetOr("") != ""
            then Round4(ctx.policy.degradedPenalty) else 0.0
    ensures Scores(ctx, m).degradedPenalty == DegradedPenalty(ctx, m)
    ensures Scores(ctx, m).freshnessPenalty == FreshnessPenalty(ctx, m)
    ensures Scores(ctx, m).fallbackBonus == Round4(ctx.policy.fallbackBonus * SuccessRate(ctx, m))
  {
    RateMeans(ctx, m);
    Product(ctx.policy.fallbackBonus, SuccessRate(ctx, m));
    Round4Zero();
    hide Round4, CostScore, BenefitScore, FreshnessPenalty, UnitCost, ExpectedTtfb, Scaled, SuccessRate;
  }

  ghost function SuccessRate(ctx: Context, m: CatalogModel): real {
    if m.modelId in ctx.signals && ctx.signals[m.modelId].successRate.Some?
    then ctx.signals[m.modelId].successRate.value else 1.0
  }

  lemma RateMeans(ctx: Context, m: CatalogModel)
    ensures ctx.SuccessRateOf(m) == SuccessRate(ctx, m)
  {
  }

  lemma Product(x: real, rate: real)
    ensures Scaled(x, rate) == x * rate
  {
  }

  // ----- the four scores

  /** The share of `v` in `v` and the baseline; anything negative counts as nothing. */
  ghost function ShareOf(v: real, baseline: real): real
    requires baseline > 0.0
  {
    if v <= 0.0 then 0.0 else v / (v + baseline)
  }

  /** A baseline below one millionth counts as one millionth. */
  ghost function AtLeastTiny(b: real): real { if b < 0.000001 then 0.000001 else b }

  lemma BenefitIsShare(v: real, b: real)
    ensures BenefitScore(v, b) == ShareOf(v, AtLeastTiny(b))
  {
    var v', b' := Max(v, 0.0), AtLeastTiny(b);
    ShareInUnit(v', b');
    if v <= 0.0 {
      assert 0.0 / (0.0 + b') == 0.0;
    }
  }

  lemma ShareInUnit(v: real, b: real)
    requires v >= 0.0 && b > 0.0
    ensures 0.0 <= v / (v + b) <= 1.0 && b / (v + b) == 1.0 - v / (v + b)
  {
    var x, y, k := v / (v + b), b / (v + b), v + b;
    CrossMultiply(0.0, 1.0, v, k);
    CrossMultiply(v, k, 1.0, 1.0);
    SharesAddUp(x, y, v, b);
  }

  lemma SharesAddUp(x: real, y: real, v: real, b: real)
    requires x * (v + b) == v && y * (v + b) == b && v + b > 0.0
    ensures x + y == 1.0
  {
    var k := v + b;
    assert (x + y) * k == x * k + y * k;
    CancelFactor(x + y, 1.0, k);
    CancelFactor(1.0, x + y, k);
  }

  /** What is gained in benefit is what is lost in cost. */
  lemma CostIsRemainder(v: real, b: real)
    ensures CostScore(v, b) == 1.0 - ShareOf(v, AtLeastTiny(b))
  {
    ShareInUnit(Max(v, 0.0), AtLeastTiny(b));
  }

  /** A dimension is measured against the catalog's baseline, or against these where it has none. */
  ghost function Yardstick(ctx: Context, d: Dimension): (b: real)
    ensures b > 0.0
  {
    AtLeastTiny(if d in ctx.baseline then ctx.baseline[d]
                else match d case TokenCost => 0.002 case Qps => 40.0 case Latency => 800.0 case Accuracy => 0.8)
  }

  lemma YardstickMeans(ctx: Context, d: Dimension)
    ensures AtLeastTiny(ctx.Baseline(d)) == Yardstick(ctx, d)
  {
  }

  /** Throughput and accuracy, the latter as far as calls succeed, score by their share against the yardstick; price per
      thousand tokens and time to the first token by what their share leaves. */
  lemma ScoreLaw(ctx: Context, m: CatalogModel)
    ensures var s := Scores(ctx, m);
            && s.tokenCost == Round4(1.0 - ShareOf(UnitCost(ctx, m), Yardstick(ctx, TokenCost)))
            && s.qps == Round4(ShareOf(Throughput(ctx, m), Yardstick(ctx, Qps)))
            && s.latency == Round4(1.0 - ShareOf(TimeToFirstToken(ctx, m) as real, Yardstick(ctx, Latency)))
            && s.accuracy == Round4(ShareOf(m.accuracy * SuccessRate(ctx, m), Yardstick(ctx, Accuracy)))
  {
    hide Round4, CostScore, BenefitScore, UnitCost, ExpectedTtfb, FreshnessPenalty, DegradedPenalty, ShareOf,
      Yardstick, AtLeastTiny, Throughput, TimeToFirstToken, SuccessRate, Scaled, Context.Baseline, Context.QpsOf,
      Context.SuccessRateOf;
    RateMeans(ctx, m);
    Product(m.accuracy, SuccessRate(ctx, m));
    YardstickMeans(ctx, TokenCost);
    YardstickMeans(ctx, Qps);
    YardstickMeans(ctx, Latency);
    YardstickMeans(ctx, Accuracy);
    ThroughputMeans(ctx, m);
    TimeMeans(ctx, m);
    CostIsRemainder(UnitCost(ctx, m), ctx.Baseline(TokenCost));
    BenefitIsShare(Throughput(ctx, m), ctx.Baseline(Qps));
    CostIsRemainder(TimeToFirstToken(ctx, m) as real, ctx.Baseline(Latency));
    var weighted := m.accuracy * SuccessRate(ctx, m);
    BenefitIsShare(weighted, ctx.Baseline(Accuracy));
    assert Scaled(m.accuracy, ctx.SuccessRateOf(m)) == weighted;
    assert Scores(ctx, m).accuracy == Round4(BenefitScore(weighted, ctx.Baseline(Accuracy)));
  }

  // ----- the confidence

  /** The scores' mean under the policy's weights, whatever these sum to. */
  ghost function WeightedMean(s: ScoreBreakdown, w: PolicyWeights): real
    requires w.Valid()
  {
    (s.tokenCost * w.tokenCost + s.qps * w.qps + s.latency * w.latency + s.accuracy * w.accuracy)
    / (w.tokenCost + w.qps + w.latency + w.accuracy)
  }

  lemma WeightedScoreIsMean(s: ScoreBreakdown, w: PolicyWeights)
    requires w.Valid()
    ensures WeightedScore(s, NormalizeWeights(w))
            == WeightedMean(s, w) - s.freshnessPenalty - s.degradedPenalty + s.fallbackBonus
  {
    hide Scaled, Share, NormalizeWeights;
    NormalizedShares(w);
    var total := w.tokenCost + w.qps + w.latency + w.accuracy;
    ScaledQuotient(s.tokenCost, w.tokenCost, total);
    ScaledQuotient(s.qps, w.qps, total);
    ScaledQuotient(s.latency, w.latency, total);
    ScaledQuotient(s.accuracy, w.accuracy, total);
    QuotientSum(s.tokenCost * w.tokenCost, s.qps * w.qps, s.latency * w.latency, s.accuracy * w.accuracy, total);
  }

  lemma NormalizedShares(w: PolicyWeights)
    requires w.Valid()
    ensures var total := w.tokenCost + w.qps + w.latency + w.accuracy;
            NormalizeWeights(w) == PolicyWeights(Share(w.tokenCost, total), Share(w.qps, total),
                                                 Share(w.latency, total), Share(w.accuracy, total))
  {
    hide Share;
  }

  lemma ScaledQuotient(x: real, weight: real, total: real)
    requires total > 0.0
    ensures Scaled(x, Share(weight, total)) == x * weight / total
  {
    assert x * (weight / total) * total == x * weight;
  }

  lemma QuotientSum(a: real, b: real, c: real, d: real, total: real)
    requires total > 0.0
    ensures a / total + b / total + c / total + d / total == (a + b + c + d) / total
  {
    assert (a / total + b / total + c / total + d / total) * total == a + b + c + d;
  }

  /** A model's confidence: the weighted mean of its four scores, less the two penalties, plus the bonus, kept between
      zero and one and rounded. */
  lemma ConfidenceLaw(ctx: Context, m: CatalogModel)
    requires ctx.policy.weights.Valid()
    ensures var s := Scores(ctx, m);
            var x := WeightedMean(s, ctx.policy.weights) - s.freshnessPenalty - s.degradedPenalty + s.fallbackBonus;
            ConfidenceOf(ctx, m) == Round4(if x < 0.0 then 0.0 else if x > 1.0 then 1.0 else x)
  {
    hide Round4, Scores, WeightedMean, WeightedScore, NormalizeWeights;
    WeightedScoreIsMean(Scores(ctx, m), ctx.policy.weights);
  }
}
