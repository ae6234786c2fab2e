/** What a model costs and how long it takes, in terms of the catalog's prices and the request alone. */
module PriceLaws {
  import opened Wrappers
  import opened Rounding
  import opened Arithmetic
  import opened Schemas
  import opened PricingEngine
  import opened FilterLaws
  import opened EngineProperties
  import TokenEstimator

  // ----- the tier

  /** `k` is the position of the first tier that covers the tokens, or the number of tiers if none does. */
  ghost predicate FirstTier(tiers: seq<PricingTier>, tokens: int, k: nat) {
    && k <= |tiers|
    && (forall j :: 0 <= j < k ==> tiers[j].uptoTokens.Some? && tokens > tiers[j].uptoTokens.value)
    && (k < |tiers| ==> tiers[k].uptoTokens.None? || tokens <= tiers[k].uptoTokens.value)
  }

  // ----- the price

  /** The tokens at their prices. */
  ghost function TokenPrice(ctx: Context, m: CatalogModel, k: nat): real
    requires k <= |m.pricingTiers|
  {
    var (priceIn, priceOut) := if k < |m.pricingTiers| then (m.pricingTiers[k].inPrice1k, m.pricingTiers[k].outPrice1k)
                               else (m.inPrice1k, m.outPrice1k);
    PriceOf(InputTokens(ctx, m), priceIn) + PriceOf(OutputTokens(ctx), priceOut)
  }

  /** So many tokens at a price per thousand. */
  ghost function PriceOf(tokens: int, price1k: real): real { tokens as real * price1k / 1000.0 }

  ghost function LessShare(amount: real, share: real): real { amount * (1.0 - share) }

  /** With the cold start of a request that announces no throughput, and the discount on long texts. */
  ghost function NetPrice(ctx: Context, m: CatalogModel, k: nat): real
    requires k <= |m.pricingTiers|
  {
    var list := TokenPrice(ctx, m, k) + (if Announces(ctx.request) then 0.0 else m.coldStartCostUsd);
    if TotalTokens(ctx, m) >= m.longTextThresholdTokens then LessShare(list, m.longTextDiscountRate) else list
  }

  lemma ChargeIsPrice(tokens: int, price: real)
    ensures TokenCharge(tokens, price) == PriceOf(tokens, price)
  {
  }

  lemma ListIsPrice(ctx: Context, m: CatalogModel, k: nat)
    requires FirstTier(m.pricingTiers, TotalTokens(ctx, m), k)
    ensures ListCost(ctx, m) == TokenPrice(ctx, m, k) + (if Announces(ctx.request) then 0.0 else m.coldStartCostUsd)
  {
    FirstFittingTier(m.pricingTiers, m, TotalTokens(ctx, m), k);
    AnnouncesMeans(ctx);
    hide Announces, PickTier, TokenCharge, PriceOf, FirstTier, InputTokens, OutputTokens, TotalTokens, Context.Hint;
    var tier := PickTier(m.pricingTiers, m, TotalTokens(ctx, m));
    ChargeIsPrice(InputTokens(ctx, m), tier.inPrice1k);
    ChargeIsPrice(OutputTokens(ctx), tier.outPrice1k);
  }

  lemma DiscountIsNet(ctx: Context, m: CatalogModel, k: nat)
    requires m.Valid() && FirstTier(m.pricingTiers, TotalTokens(ctx, m), k)
    ensures Discounted(ListCost(ctx, m), DiscountRate(ctx, m)) == NetPrice(ctx, m, k) >= 0.0
  {
    ListIsPrice(ctx, m, k);
    ListCostNonNegative(ctx, m);
    DiscountedNet(ListCost(ctx, m), m.longTextDiscountRate);
    assert m.longTextDiscountRate >= 0.0;
    hide ListCost, TokenPrice, Announces, TotalTokens, Discounted, LessShare, FirstTier, CatalogModel.Valid;
  }

  lemma DiscountedNet(list: real, rate: real)
    requires list >= 0.0 && 0.0 <= rate <= 1.0
    ensures Discounted(list, rate) == LessShare(list, rate) >= 0.0
    ensures Discounted(list, 0.0) == list && LessShare(list, 0.0) == list
  {
  }

  /** What the premium makes of a net price: nothing without a hint, without throughput, or up to the burst threshold;
      beyond it the price grows in proportion to the excess, up to the full premium from one unit above it on. */
  ghost predicate Surcharged(net: real, cost: real, hint: real, q: real, burst: real, rate: real) {
    && net <= cost
    && (hint <= 0.0 || q <= 0.0 || hint <= q * burst ==> cost == net)
    && (hint > 0.0 && q > 0.0 && hint >= q * (burst + 1.0) ==> cost == net * (1.0 + rate))
    && (hint > 0.0 && q > 0.0 && q * burst <= hint <= q * (burst + 1.0) ==>
          (cost - net) * q == net * rate * (hint - q * burst))
  }

  lemma PremiumSurcharges(ctx: Context, m: CatalogModel, x: real)
    requires m.Valid() && x >= 0.0
    ensures Surcharged(x, WithPremium(x, PremiumRate(ctx, m)), ctx.Hint(), ctx.QpsOf(m), m.burstQpsThreshold,
                       m.concurrencyPremiumRate)
  {
    var (hint, q) := (ctx.Hint(), ctx.QpsOf(m));
    ScaledByOne(x);
    if hint > 0.0 && q > 0.0 {
      PremiumOf(x, q, m.concurrencyPremiumRate, hint, hint / q, m.burstQpsThreshold);
    }
    hide Context.QpsOf, Context.Hint;
  }

  /** `r` is the announced throughput in units of the model's own. */
  lemma PremiumOf(x: real, q: real, rate: real, hint: real, r: real, b: real)
    requires x >= 0.0 && q > 0.0 && rate >= 0.0 && r * q == hint > 0.0
    ensures r > b <==> hint > q * b
    ensures r >= b + 1.0 <==> hint >= q * (b + 1.0)
    ensures r > b ==> Surcharged(x, WithPremium(x, Scaled(rate, Min(r - b, 1.0))), hint, q, b, rate)
  {
    PremiumUnits(q, hint, r, b);
    PremiumUnits(q, hint, r, b + 1.0);
    if r > b {
      var over := Min(r - b, 1.0);
      ScaledNonNegative(rate, over);
      ScaledNonNegative(x, Scaled(rate, over));
      FullPremium(x, rate);
      PartPremium(x, rate, r - b, q, hint - q * b);
      hide Scaled;
    }
  }

  lemma FullPremium(x: real, rate: real)
    ensures WithPremium(x, Scaled(rate, 1.0)) == x * (1.0 + rate)
  {
  }

  lemma PartPremium(x: real, rate: real, over: real, q: real, excess: real)
    requires over * q == excess
    ensures (WithPremium(x, Scaled(rate, over)) - x) * q == x * rate * excess
  {
    ProportionalPremium(x, rate, over, q);
  }

  lemma PremiumUnits(q: real, hint: real, r: real, b: real)
    requires q > 0.0 && r * q == hint
    ensures r > b <==> hint > q * b
    ensures r >= b <==> hint >= q * b
    ensures (r - b) * q == hint - q * b
  {
  }

  lemma ProportionalPremium(x: real, rate: real, over: real, q: real)
    ensures x * (rate * over) * q == x * rate * (over * q)
  {
  }

  /** The price of a model is its net price, surcharged for the throughput the request announces. */
  lemma PriceLaw(ctx: Context, m: CatalogModel, k: nat)
    requires m.Valid() && FirstTier(m.pricingTiers, TotalTokens(ctx, m), k)
    ensures NetPrice(ctx, m, k) >= 0.0
    ensures Surcharged(NetPrice(ctx, m, k), FinalCost(ctx, m), ctx.request.throughputHintQps.GetOr(0.0),
                       Throughput(ctx, m), m.burstQpsThreshold, m.concurrencyPremiumRate)
  {
    var net := NetPrice(ctx, m, k);
    DiscountIsNet(ctx, m, k);
    PremiumSurcharges(ctx, m, net);
    ThroughputMeans(ctx, m);
    SurchargedAbove(net, WithPremium(net, PremiumRate(ctx, m)), ctx.Hint(), ctx.QpsOf(m), m.burstQpsThreshold,
                    m.concurrencyPremiumRate);
    hide NetPrice, ListCost, DiscountRate, PremiumRate, Throughput, Context.QpsOf, FirstTier, Discounted, WithPremium,
      CatalogModel.Valid, Surcharged;
  }

  lemma SurchargedAbove(net: real, cost: real, hint: real, q: real, burst: real, rate: real)
    requires Surcharged(net, cost, hint, q, burst, rate)
    ensures net <= cost
  {
  }

  /** The price per thousand tokens, which is scored, times the thousands of tokens is the price. */
  lemma UnitPriceLaw(ctx: Context, m: CatalogModel)
    ensures UnitCost(ctx, m) * TotalTokens(ctx, m) as real == FinalCost(ctx, m) * 1000.0
  {
    hide FinalCost, TotalTokens;
    TokensPositive(ctx, m);
    var n := TotalTokens(ctx, m) as real;
    var c := FinalCost(ctx, m) * 1000.0;
    assert c / n * n == c;
  }

  lemma TokensPositive(ctx: Context, m: CatalogModel)
    ensures TotalTokens(ctx, m) >= 1
  {
  }

  /** For a valid request the tokens are the estimate for the input and the output the request expects. */
  lemma TokenLaw(ctx: Context, m: CatalogModel)
    requires ctx.request.Valid()
    ensures InputTokens(ctx, m)
            == TokenEstimator.EstimateTokens(ctx.request.inputChars, m.modelId, ctx.request.language) >= 1
    ensures OutputTokens(ctx) == ctx.request.expectedOutputTokens
    ensures TotalTokens(ctx, m) == InputTokens(ctx, m) + OutputTokens(ctx)
  {
    TokenEstimator.EstimateBounds(ctx.request.inputChars, m.modelId, ctx.request.language);
    hide TokenEstimator.EstimateTokens;
  }
}
