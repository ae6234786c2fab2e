/** What a whole decision says about the catalog: who is returned, who is not and why, and in which order. */
module DecisionLaws {
  import opened Wrappers
  import opened Rounding
  import opened Arithmetic
  import opened Schemas
  import opened Ranking
  import opened PricingEngine
  import opened FilterLaws
  import opened EngineProperties
  import opened EngineTheorems

  // ----- who is returned

  /** The candidate's fields, read off its model. */
  ghost predicate Describes(ctx: Context, m: CatalogModel, c: Candidate) {
    && c.modelId == m.modelId && c.provider == m.provider
    && c.estimatedCostUsd == RoundMoney(FinalCost(ctx, m))
    && c.expectedTtfbMs == TimeToFirstToken(ctx, m)
    && c.confidence == ConfidenceOf(ctx, m) && c.scores == Scores(ctx, m)
    && c.signalFreshnessSeconds == AgeSeconds(ctx.SignalOf(m), ctx.now)
    && c.degradedReason == (if m.modelId in ctx.signals then ctx.signals[m.modelId].degradedReason else None)
  }

  lemma CandidateDescribes(ctx: Context, m: CatalogModel, rank: int)
    ensures Describes(ctx, m, CandidateOf(ctx, m, rank)) && CandidateOf(ctx, m, rank).rank == rank
  {
    TimeMeans(ctx, m);
    hide RoundMoney, FinalCost, ConfidenceOf, Scores, AgeSeconds, ExpectedTtfb, TimeToFirstToken;
  }

  /** Every returned candidate describes a catalog model that fits the request. */
  lemma CandidatesFit(ctx: Context, models: seq<CatalogModel>, d: Decision, i: nat) returns (m: CatalogModel)
    requires Decide(ctx, models) == Ok(d) && i < |d.candidates|
    ensures m in models && Fits(ctx, m) && Describes(ctx, m, d.candidates[i]) && d.candidates[i].rank == i + 1
  {
    hide Decide, Survives, CandidateOf, Fits, Describes;
    m := LadderEntry(ctx, models, d, i);
    SurvivalLaw(ctx, m);
    CandidateDescribes(ctx, m, i + 1);
  }

  /** Every model that fits is returned, unless the ladder is full of others at least as good. */
  lemma FittingModelsReturned(ctx: Context, models: seq<CatalogModel>, d: Decision, m: CatalogModel)
    requires Decide(ctx, models) == Ok(d) && m in models && Fits(ctx, m)
    ensures (exists i :: 0 <= i < |d.candidates| && d.candidates[i] == CandidateOf(ctx, m, i + 1))
            || (|d.candidates| == ctx.policy.maxCandidates
                && forall i :: 0 <= i < |d.candidates| ==>
                     var (a, c) := (d.candidates[i], CandidateOf(ctx, m, 1));
                     && a.confidence >= c.confidence
                     && (a.confidence == c.confidence ==> a.estimatedCostUsd <= c.estimatedCostUsd)
                     && (a.confidence == c.confidence && a.estimatedCostUsd == c.estimatedCostUsd ==>
                           a.expectedTtfbMs <= c.expectedTtfbMs))
  {
    hide Decide, Survives, CandidateOf, Fits, KeyLe, Tied, Survivors;
    SurvivalLaw(ctx, m);
    var c := SurvivingModelListed(ctx, models, m);
    var ranked := StableSort(Survivors(ctx, models));
    StableSortSorts(Survivors(ctx, models));
    LadderIsFront(ctx, models, d, ranked);
    assert c in multiset(ranked);
    var k :| 0 <= k < |ranked| && ranked[k] == c;
    if k < |d.candidates| {
      Reranked(ctx, m, c.rank, k + 1);
    } else {
      Reranked(ctx, m, c.rank, 1);
      forall i | 0 <= i < |d.candidates| {
        KeyOrder(ranked[i], c);
      }
    }
  }

  // ----- who is not, and why

  /** What a rejection with this reason says about its model: the demands before are met, this one is not. */
  ghost predicate Explains(ctx: Context, m: CatalogModel, reason: Reason) {
    && !Meets(ctx, m, reason)
    && (!reason.ProviderFiltered? ==> Meets(ctx, m, ProviderFiltered))
    && (reason.CapacityFiltered? || reason.BudgetFiltered? || reason.LatencyFiltered? ==>
          Meets(ctx, m, CapabilityFiltered))
    && (reason.BudgetFiltered? || reason.LatencyFiltered? ==> Meets(ctx, m, CapacityFiltered))
    && (reason.LatencyFiltered? ==> Meets(ctx, m, BudgetFiltered))
  }

  lemma FailureExplains(ctx: Context, m: CatalogModel, reason: Reason)
    ensures FirstFailure(ctx, m) == Some(reason) <==> Explains(ctx, m, reason)
    ensures FirstFailure(ctx, m).None? <==> Fits(ctx, m)
  {
    RejectionLaw(ctx, m);
    hide FirstFailure, FinalCost, Copes, InTime, ProviderAllowed, Capable;
  }

  /** The positions of the models that were rejected for this reason. */
  ghost function RejectedFor(ctx: Context, models: seq<CatalogModel>, reason: Reason): set<int> {
    set k | 0 <= k < |models| && FirstFailure(ctx, models[k]) == Some(reason)
  }

  lemma OneModelMore(ctx: Context, models: seq<CatalogModel>, reason: Reason)
    requires models != []
    ensures var n := |models| - 1;
            var more := FirstFailure(ctx, models[n]) == Some(reason);
            && RejectedFor(ctx, models, reason) == RejectedFor(ctx, models[..n], reason) + (if more then {n} else {})
            && n !in RejectedFor(ctx, models[..n], reason)
            && CountReason(Rejections(ctx, models), reason)
               == CountReason(Rejections(ctx, models[..n]), reason) + (if more then 1 else 0)
  {
    var n := |models| - 1;
    RejectedForMore(ctx, models, reason);
    hide FirstFailure, RejectedFor, CountReason;
    var verdict := FirstFailure(ctx, models[n]);
    if verdict.Some? {
      OneRejectionMore(Rejections(ctx, models[..n]), Rejection(models[n].modelId, models[n].provider, verdict.value));
    }
  }

  lemma RejectedForMore(ctx: Context, models: seq<CatalogModel>, reason: Reason)
    requires models != []
    ensures var n := |models| - 1;
            && RejectedFor(ctx, models, reason) == RejectedFor(ctx, models[..n], reason)
                 + (if FirstFailure(ctx, models[n]) == Some(reason) then {n} else {})
            && n !in RejectedFor(ctx, models[..n], reason)
  {
    hide FirstFailure;
  }

  lemma {:induction false} CountIsExact(ctx: Context, models: seq<CatalogModel>, reason: Reason)
    ensures CountReason(Rejections(ctx, models), reason) == |RejectedFor(ctx, models, reason)|
  {
    hide FirstFailure;
    if models == [] {
      assert RejectedFor(ctx, models, reason) == {};
    } else {
      CountIsExact(ctx, models[..|models| - 1], reason);
      hide CountReason, Rejections, RejectedFor;
      OneModelMore(ctx, models, reason);
    }
  }

  /** Each counter is the number of models that fell at its filter, and the record says how many there were. */
  lemma CountersExact(ctx: Context, models: seq<CatalogModel>, d: Decision)
    requires Decide(ctx, models) == Ok(d)
    ensures var o := d.observability;
            && o.filteredByProvider == |RejectedFor(ctx, models, ProviderFiltered)|
            && o.filteredByCapability == |RejectedFor(ctx, models, CapabilityFiltered)|
            && o.filteredByCapacity == |RejectedFor(ctx, models, CapacityFiltered)|
            && o.filteredByBudget == |RejectedFor(ctx, models, BudgetFiltered)|
            && o.filteredByLatency == |RejectedFor(ctx, models, LatencyFiltered)|
            && o.evaluatedModels == |models| && o.candidateCount == |d.candidates|
  {
    hide FirstFailure, CandidateOf, CountReason, SafetyScore, AllValid, RejectedFor, Survivors, Rejections, StableSort,
      FreshnessValues, Least;
    CountIsExact(ctx, models, ProviderFiltered);
    CountIsExact(ctx, models, CapabilityFiltered);
    CountIsExact(ctx, models, CapacityFiltered);
    CountIsExact(ctx, models, BudgetFiltered);
    CountIsExact(ctx, models, LatencyFiltered);
  }

  /** The model at position `at` is the one that this rejection is about. */
  ghost predicate IsAbout(ctx: Context, models: seq<CatalogModel>, r: Rejection, at: int) {
    0 <= at < |models| && r.modelId == models[at].modelId && r.provider == models[at].provider
    && FirstFailure(ctx, models[at]) == Some(r.reason)
  }

  lemma IsAboutFront(ctx: Context, models: seq<CatalogModel>, n: nat, r: Rejection, at: int)
    requires n <= |models| && IsAbout(ctx, models[..n], r, at)
    ensures IsAbout(ctx, models, r, at) && at < n
  {
    hide FirstFailure;
  }

  lemma {:induction false} RejectionPosition(ctx: Context, models: seq<CatalogModel>, i: nat) returns (at: nat)
    requires i < |Rejections(ctx, models)|
    ensures IsAbout(ctx, models, Rejections(ctx, models)[i], at)
  {
    hide FirstFailure;
    var n := |models| - 1;
    if i < |Rejections(ctx, models[..n])| {
      at := RejectionPosition(ctx, models[..n], i);
      IsAboutFront(ctx, models, n, Rejections(ctx, models)[i], at);
    } else {
      at := n;
    }
  }

  lemma {:induction false} RejectionPositions(ctx: Context, models: seq<CatalogModel>, i: nat, j: nat)
    returns (a: nat, b: nat)
    requires i < j < |Rejections(ctx, models)|
    ensures a < b && IsAbout(ctx, models, Rejections(ctx, models)[i], a)
            && IsAbout(ctx, models, Rejections(ctx, models)[j], b)
  {
    hide FirstFailure;
    var n := |models| - 1;
    var front := Rejections(ctx, models[..n]);
    if j < |front| {
      a, b := RejectionPositions(ctx, models[..n], i, j);
      IsAboutFront(ctx, models, n, front[i], a);
      IsAboutFront(ctx, models, n, front[j], b);
    } else {
      a := RejectionPosition(ctx, models[..n], i);
      b := n;
      IsAboutFront(ctx, models, n, front[i], a);
    }
  }

  /** The rejections explain why their models were rejected, and list them in catalog order. */
  lemma RejectionsExplained(ctx: Context, models: seq<CatalogModel>, d: Decision, i: nat, j: nat)
    returns (a: nat, b: nat)
    requires Decide(ctx, models) == Ok(d) && i <= j < |d.rejections|
    ensures a < |models| && b < |models| && (i < j ==> a < b)
    ensures d.rejections[i].modelId == models[a].modelId && d.rejections[i].provider == models[a].provider
    ensures d.rejections[j].modelId == models[b].modelId && d.rejections[j].provider == models[b].provider
    ensures Explains(ctx, models[a], d.rejections[i].reason) && Explains(ctx, models[b], d.rejections[j].reason)
  {
    hide FirstFailure, Explains, Survivors, CountReason, SafetyScore, AllValid, StableSort, FreshnessValues, Least;
    if i < j {
      a, b := RejectionPositions(ctx, models, i, j);
    } else {
      a := RejectionPosition(ctx, models, i);
      b := a;
    }
    FailureExplains(ctx, models[a], d.rejections[i].reason);
    FailureExplains(ctx, models[b], d.rejections[j].reason);
  }

  lemma {:induction false} UnfitListed(ctx: Context, models: seq<CatalogModel>, m: CatalogModel, reason: Reason)
    requires m in models && Explains(ctx, m, reason)
    ensures Rejection(m.modelId, m.provider, reason) in Rejections(ctx, models)
  {
    hide FirstFailure, Explains;
    var n := |models| - 1;
    FailureExplains(ctx, m, reason);
    if m in models[..n] {
      UnfitListed(ctx, models[..n], m, reason);
    }
  }

  /** Every model that does not fit is rejected, for the first demand it does not meet. */
  lemma UnfitRejected(ctx: Context, models: seq<CatalogModel>, d: Decision, m: CatalogModel)
    returns (reason: Reason)
    requires Decide(ctx, models) == Ok(d) && m in models && !Fits(ctx, m)
    ensures Explains(ctx, m, reason) && Rejection(m.modelId, m.provider, reason) in d.rejections
  {
    hide FirstFailure, Explains, Fits, Survivors, CountReason, SafetyScore, AllValid, StableSort, FreshnessValues,
      Least;
    FailureExplains(ctx, m, ProviderFiltered);
    reason := FirstFailure(ctx, m).value;
    FailureExplains(ctx, m, reason);
    UnfitListed(ctx, models, m, reason);
  }

  // ----- ties

  lemma {:induction false} SurvivorPosition(ctx: Context, models: seq<CatalogModel>, p: nat) returns (a: nat)
    requires p < |Survivors(ctx, models)|
    ensures a < |models| && Survivors(ctx, models)[p] == CandidateOf(ctx, models[a], p + 1)
  {
    hide FirstFailure, CandidateOf;
    var n := |models| - 1;
    if p < |Survivors(ctx, models[..n])| {
      a := SurvivorPosition(ctx, models[..n], p);
    } else {
      a := n;
    }
  }

  lemma {:induction false} SurvivorPositions(ctx: Context, models: seq<CatalogModel>, p: nat, q: nat)
    returns (a: nat, b: nat)
    requires p < q < |Survivors(ctx, models)|
    ensures a < b < |models| && Survivors(ctx, models)[p] == CandidateOf(ctx, models[a], p + 1)
    ensures Survivors(ctx, models)[q] == CandidateOf(ctx, models[b], q + 1)
  {
    hide FirstFailure, CandidateOf;
    var n := |models| - 1;
    if q < |Survivors(ctx, models[..n])| {
      a, b := SurvivorPositions(ctx, models[..n], p, q);
    } else {
      a := SurvivorPosition(ctx, models[..n], p);
      b := n;
    }
  }

  /** Candidates that tie in confidence, cost and time are returned in catalog order. */
  lemma TiesInCatalogOrder(ctx: Context, models: seq<CatalogModel>, d: Decision, i: nat, j: nat)
    returns (a: nat, b: nat)
    requires Decide(ctx, models) == Ok(d) && i < j < |d.candidates|
    requires d.candidates[i].confidence == d.candidates[j].confidence
    requires d.candidates[i].estimatedCostUsd == d.candidates[j].estimatedCostUsd
    requires d.candidates[i].expectedTtfbMs == d.candidates[j].expectedTtfbMs
    ensures a < b < |models|
    ensures d.candidates[i] == CandidateOf(ctx, models[a], i + 1)
    ensures d.candidates[j] == CandidateOf(ctx, models[b], j + 1)
  {
    hide Decide, CandidateOf, KeyLe, Tied, Survivors;
    var survivors := Survivors(ctx, models);
    var ranked := StableSort(survivors);
    StableSortSorts(survivors);
    LadderIsFront(ctx, models, d, ranked);
    var p, q := TiesKeepOrder(ranked, survivors, i, j);
    a, b := SurvivorPositions(ctx, models, p, q);
    Reranked(ctx, models[a], p + 1, i + 1);
    Reranked(ctx, models[b], q + 1, j + 1);
  }

  // ----- the freshest signal and the safety score

  /** The age that counts for a model whose signal was looked at: one never probed counts as twice the budget old. */
  ghost function CountedAge(ctx: Context, m: CatalogModel): int {
    var age := AgeSeconds(ctx.SignalOf(m), ctx.now);
    if age.Some? then age.value else 2 * ctx.freshnessSeconds
  }

  ghost predicate LookedAt(ctx: Context, m: CatalogModel) {
    ProviderAllowed(ctx.request, m) && Capable(ctx.request, m)
  }

  lemma LookedAtMeans(ctx: Context, m: CatalogModel)
    ensures LookedAt(ctx, m) <==> !FailsProvider(ctx, m) && !FailsCapability(ctx, m)
  {
    hide ProviderAllowed, Capable, FailsProvider, FailsCapability;
    ProviderMeans(ctx, m);
    CapableMeans(ctx, m);
  }

  lemma {:induction false} FreshnessValuesAre(ctx: Context, models: seq<CatalogModel>, v: int)
    ensures v in FreshnessValues(ctx, models) <==>
            exists m :: m in models && LookedAt(ctx, m) && CountedAge(ctx, m) == v
  {
    hide AgeSeconds, LookedAt, FailsProvider, FailsCapability;
    if models != [] {
      var front, m := models[..|models| - 1], models[|models| - 1];
      FreshnessValuesAre(ctx, front, v);
      LookedAtMeans(ctx, m);
      assert models == front + [m];
    }
  }

  lemma {:induction false} LeastIsLeast(values: seq<int>)
    ensures Least(values).None? <==> values == []
    ensures Least(values).Some? ==> Least(values).value in values && forall v :: v in values ==>
            Least(values).value <= v
  {
    if values != [] {
      var front, last := values[..|values| - 1], values[|values| - 1];
      LeastIsLeast(front);
      var least := Least(values).value;
      assert least <= last && (front != [] ==> least <= Least(front).value);
      assert least == last || (front != [] && least == Least(front).value);
      forall v | v in values
        ensures least <= v
      {
        assert v in front || v == last;
      }
    }
  }

  /** The age reported is the least among the models whose signals were looked at, and there is none if there are
      none. */
  lemma FreshestSignal(ctx: Context, models: seq<CatalogModel>, d: Decision)
    requires Decide(ctx, models) == Ok(d)
    ensures var least := d.observability.signalFreshnessMinSeconds;
            && (least.None? <==> forall m :: m in models ==> !LookedAt(ctx, m))
            && (least.Some? ==>
                  && (exists m :: m in models && LookedAt(ctx, m) && CountedAge(ctx, m) == least.value)
                  && forall m :: m in models && LookedAt(ctx, m) ==> least.value <= CountedAge(ctx, m))
  {
    hide LookedAt, CountedAge, Survivors, Rejections, CountReason, SafetyScore, AllValid, StableSort, FreshnessValues,
      Least;
    var values := FreshnessValues(ctx, models);
    assert d.observability.signalFreshnessMinSeconds == Least(values);
    LeastIsLeast(values);
    forall v {
      FreshnessValuesAre(ctx, models, v);
    }
    forall m | m in models && LookedAt(ctx, m)
      ensures CountedAge(ctx, m) in values
    {
    }
  }

  ghost function TotalConfidence(cs: seq<Candidate>): real {
    if cs == [] then 0.0 else cs[0].confidence + TotalConfidence(cs[1..])
  }

  lemma {:induction false} SumIsTotal(cs: seq<Candidate>)
    ensures SumConfidence(cs) == TotalConfidence(cs)
    decreases |cs|
  {
    if |cs| == 1 {
      assert cs[..0] == [] && cs[1..] == [];
    } else if cs != [] {
      SumIsTotal(cs[1..]);
      SumIsTotal(cs[..|cs| - 1]);
      SumIsTotal(cs[1..|cs| - 1]);
      assert cs[1..][..|cs| - 2] == cs[1..|cs| - 1] == cs[..|cs| - 1][1..];
    }
  }

  lemma {:induction false} TotalInRange(cs: seq<Candidate>)
    requires forall c :: c in cs ==> 0.0 <= c.confidence <= 1.0
    ensures 0.0 <= TotalConfidence(cs) <= |cs| as real
  {
    if cs != [] {
      TotalInRange(cs[1..]);
      assert cs[0] in cs;
    }
  }

  lemma MeanInUnit(total: real, n: nat)
    requires n >= 1 && 0.0 <= total <= n as real
    ensures 0.0 <= total / n as real <= 1.0
  {
    CrossMultiply(0.0, 1.0, total, n as real);
    CrossMultiply(total, n as real, 1.0, 1.0);
  }

  /** The safety score is the mean confidence of the ladder, rounded. */
  lemma SafetyIsMean(ctx: Context, models: seq<CatalogModel>, d: Decision)
    requires Decide(ctx, models) == Ok(d)
    ensures d.candidates != []
    ensures d.observability.fallbackSafetyScore == Round4(TotalConfidence(d.candidates) / |d.candidates| as real)
  {
    LadderScored(ctx, models, d);
    LadderDescends(ctx, models, d);
    hide Decide, Round4, SumConfidence, TotalConfidence;
    SumIsTotal(d.candidates);
    TotalInRange(d.candidates);
    MeanInUnit(TotalConfidence(d.candidates), |d.candidates|);
  }
}
