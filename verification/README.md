# Routing control plane: a verified model

The repository is a control plane that routes agents' requests to language models. An agent asks for a decision;
the control plane checks its quotas, ranks the catalog's models, stores the ranking under an id and hands it out. The
agent tries the candidates in order and reports once how it went; the control plane then releases the slot, charges
the day's counter and publishes an event. Probes keep a table of latency signals that the ranking reads, and a worker
copies probe events into the database.

This project models these parts and proves what they guarantee over all inputs, runs and interleavings.

| files | part |
|---|---|
| `Schemas`, `Rounding`, `TokenEstimator`, `Ranking`, `PricingEngine` | the decision engine, as a loop proved equal to a specification |
| `FilterLaws`, `PriceLaws`, `ScoreLaws`, `DecisionLaws` | what the engine's filters, prices, scores and whole decisions mean, read off request, catalog and signals |
| `EngineProperties`, `EngineTheorems` | partition, envelopes, optimality, dominance, relaxation |
| `Protocol`, `ControlPlane` | the calls on shared state as atomic steps, and the mutable services proved equal to them |
| `AtomicRuns`, `Admission`, `QuotaTheorems`, `RateWindow`, `DaySpend`, `SpendWitness` | whole runs of atomic calls: idempotency, settlement, conservation, every answer from the history, slots, rate, spend |
| `Interleaving`, `InterleavedSafety`, `InterleavedSpend`, `SerialSpend`, `CrowdedWitness`, `AtomicSchedules` | the same protocol with every Redis command and transaction a step of its own |
| `LatencyTracker`, `EventConsumer`, `AgentClient` | probe smoothing, the stream worker, the example client |
| `EndToEnd`, `EndToEndInterleaved` | the parts composed: probes to scores, engine and client to the spend laws, atomic and interleaved |
| `Arithmetic`, `Sums`, `Wrappers` | non-linear facts, finite sums, `Option` and `Result` |

How the two protocol models relate. The first takes whole calls as atomic steps (`Protocol.CreateStep`,
`Protocol.ReportStep`). That is an assumption: no quota, signal or event method of the in-memory runtime suspends, but a
call does await its decision and metadata stores, so it describes stores that answer without suspending, or requests
served one at a time. The second makes no such assumption: the steps of different requests interleave, each decision id
is a flight with a stage, a report commits only after its own rate check has passed, and a crashed request is one whose
next step is never taken.
`AtomicSchedules.AtomicRunsAreSchedules` shows that the interleaved machine reaches every state the atomic calls reach.

What the proofs say about the code:

- With atomic calls an agent whose reports stay within their budget limits spends at most one daily budget for each
  decision that can be settled in a day. Those are `min(concurrent_limit, 1440 * rate_limit_rpm)`: every slot may hold a
  decision opened before anything was charged, and every report has to pass the rate limit of its minute. Some run on
  one clock spends exactly that, for every credential. The daily budget alone is not a bound.
- With interleaved steps it depends on how many requests may wait at once between the budget check and the slot count,
  or between release and charge. The largest daily spend is nothing for none, one daily budget per slot for one, and one
  per slot and per waiting request from two on; each is reached on one clock with decisions the engine makes
  (`EndToEndInterleaved.CrowdedSpendExact`). The rate limit does not enter, because a report may pass its rate check
  days before it is charged. So the bound of one budget per slot holds exactly while at most one request waits
  (`EndToEndInterleaved.AtomicBoundHolds`).
- Half-up rounding lets a candidate be priced above the budget limit. This happens for some request and catalog
  exactly when rounding raises the limit itself (`EndToEnd.PricesRespectLimit`), which is when its last fraction of a
  millionth is a half or more (`Rounding.RoundMoneyStaysBelow`); the excess is at most half a millionth.
- Agents that take the engine's decisions and report as the example client does obey the same laws with the daily budget
  rounded as money is in place of the budget, and with no condition on their limits; again each maximum is reached. So
  `concurrent_limit` unrounded budgets bound them exactly when that is at least the maximum, which the credential alone
  decides (`EndToEnd.BudgetBoundsClients`, `EndToEndInterleaved.BudgetBoundsClientCrowd`). With no more slots than
  reports in a day, it is when rounding does not raise the budget.
- The penalty for stale signals is all or nothing: the share of the age in the freshness budget that should scale it is
  never below one once the age exceeds the budget (`ScoreLaws.FreshnessLaw`).
- Under constant readings a stored 95th percentile comes to rest at four tenths of the reading
  (`LatencyTracker.P95Settles`), and a stored throughput next to an odd reading, in thousandths, unless it starts there
  (`LatencyTracker.QpsSettles`).
- Replay works for every key but the empty one, which is unique in the table yet never looked up, so a second request
  with it is refused (`AtomicRuns.EmptyKeyNeverReplays`).
- A success rate once below 1 never returns to 1 (it rests at 0.9999). Under a constant reading a median from above
  comes to rest at the reading; from below it rests where it is if at most three milliseconds short, and else exactly
  three short.
- The example client treats a failed success report as a failed call and falls back. A later report then lists the first
  answer among its attempts but leaves out its cost (`AgentClient.LostReportHidesCost`). Which report is charged depends
  on what reached the control plane: the first that did, later ones being duplicates (`AtomicRuns.RecordedOnce`).

Prices and scores are exact reals; `round(x, 4)` is rounding to the 1e-4 grid with ties to even, `_round_money` half-up
to 1e-6. Clock readings, the date, `uuid4` ids, the contents of reads and the replies of providers, database and network
are parameters. Where it matters the readings are those of one clock that never goes back: minute and date are both read
off its seconds, the date being UTC's (`Protocol.Clocked`, `Interleaving.ClockedSteps`). The upper bounds that do not
name the rate limit need only dates that never go back. The field bounds of `app/schemas/routing.py` are the
preconditions (`Valid()` predicates in `Schemas`).

## Model

| member | source | states |
|---|---|---|
| PricingEngine.CalculateRoutingDecision | app/services/pricing_engine.py:98-325 | the loop with its counters, lists, in-place sort, truncation and rank overwriting yields exactly the decision (or error) that survivors, first failures and the stable order determine |
| PricingEngine.FilterModel | app/services/pricing_engine.py:122-231 | one pass of the five filters gives the first one the model fails, the two budget branches amounting to "costs more than the limit" |
| PricingEngine.PriceModel | app/services/pricing_engine.py:179-198 | the stepwise price is list price, then discount, then premium, never below zero |
| PricingEngine.ScoreModel | app/services/pricing_engine.py:233-275 | the candidate built for a model that passed every filter |
| PricingEngine.AssignRanks | app/services/pricing_engine.py:279-280 | ranks become the positions 1..n and nothing else changes |
| EngineProperties.FirstFailingFilter | app/services/pricing_engine.py:122-231 | a model survives iff it fits the request, which is to fail no filter; each filter fails exactly the models that miss its demand; the recorded reason is a filter it fails with no earlier one failed, and conversely |
| FilterLaws.SurvivalLaw | app/services/pricing_engine.py:80-231 | a model survives iff the allowlist is absent, empty or holds its provider and the denylist does not, it offers each required capability, supports the task and fits the context, copes with an announced throughput, costs at most the limit and answers in time, cold start included |
| FilterLaws.RejectionLaw | app/services/pricing_engine.py:80-231 | the reason recorded is the first of these five demands, in this order, that the model does not meet |
| EngineProperties.Partition | app/services/pricing_engine.py:122-276 | rejections and survivors together are the catalog, each model exactly once |
| EngineProperties.RejectionsNameTheFirstFailure | app/services/pricing_engine.py:122-231 | every rejection belongs to a catalog model and carries its first failing filter |
| EngineProperties.CountersAddUp | app/services/pricing_engine.py:293-306 | the five counters sum to the rejections; evaluated = rejections + survivors |
| DecisionLaws.CountersExact | app/services/pricing_engine.py:293-306 | each counter is the number of catalog models that fell at its filter |
| DecisionLaws.CandidatesFit | app/services/pricing_engine.py:263-280 | every returned candidate carries the figures of a catalog model that fits the request |
| DecisionLaws.FittingModelsReturned | app/services/pricing_engine.py:277-280 | every fitting model is returned unless the ladder is full of candidates none of which it beats in confidence, then cost, then time |
| DecisionLaws.RejectionsExplained | app/services/pricing_engine.py:122-231 | each rejection is about a model that meets the demands before its reason and not that one; rejections come in catalog order |
| DecisionLaws.UnfitRejected | app/services/pricing_engine.py:122-231 | every model that does not fit is among the rejections, with the first demand it does not meet |
| DecisionLaws.TiesInCatalogOrder | app/services/pricing_engine.py:277 | returned candidates with equal confidence, cost and time keep the order of the catalog |
| DecisionLaws.FreshestSignal | app/services/pricing_engine.py:159-304 | the age reported is the least among the models that passed the provider and capability filters, one never probed counting as twice the budget; there is none iff there are none |
| DecisionLaws.SafetyIsMean | app/services/pricing_engine.py:282-288 | the safety score is the mean confidence of the ladder, rounded |
| EngineProperties.FirstFittingTier | app/services/pricing_engine.py:60-64 | the tier chosen is the first that covers the token count, and the list prices iff none does |
| TokenEstimator.EstimateLaw | app/services/token_estimator.py:13-30 | the estimate is a whole percentage of the characters, cut off, at least one: that of the first family named in the model id in whatever case, or the default; only Chinese has a percentage of its own |
| PriceLaws.TokenLaw | app/services/pricing_engine.py:179-181 | for a valid request the tokens are the input's estimate and the expected output, and their sum |
| PriceLaws.PriceLaw | app/services/pricing_engine.py:179-198 | the cost is the net price (tokens at the first covering tier, cold start without an announced throughput, discount from the threshold on); it stays that up to the burst threshold, grows in proportion to the excess, and carries the full premium from one unit above on |
| PriceLaws.UnitPriceLaw | app/services/pricing_engine.py:233 | helper fact: the price per thousand tokens that is scored, times the tokens, is a thousand times the cost |
| FilterLaws.TimeMeans | app/services/pricing_engine.py:161-188 | helper fact: the expected time is the measured median or the catalog's, plus the cold start without an announced throughput |
| ScoreLaws.AgeLaw | app/services/pricing_engine.py:67-77 | the age is the whole seconds since the last probe, zero if that lies in the future, and unknown iff there was none |
| ScoreLaws.FreshnessLaw | app/services/pricing_engine.py:234-241 | the penalty is all or nothing: zero iff the last probe is known and less than a second more than the budget ago, and otherwise the policy's, rounded |
| ScoreLaws.YoungerNotPenalizedMore | app/services/pricing_engine.py:234-241 | a later last probe never has the larger penalty |
| ScoreLaws.FreshIsNoLessConfident | app/services/pricing_engine.py:234-262 | of two models alike in everything else one with a fresh signal is no less confident |
| ScoreLaws.AdjustmentLaw | app/services/pricing_engine.py:242-243 | a model with a degraded reason pays the policy's penalty in full, any other none; the bonus goes with the success rate, which is one if unknown |
| ScoreLaws.ScoreLaw | app/services/pricing_engine.py:38-253 | throughput and accuracy score by their share against the configured or default baseline, cost per thousand tokens and time by what their share leaves |
| ScoreLaws.ConfidenceLaw | app/services/pricing_engine.py:254-262 | the confidence is the mean of the four scores under the raw weights, less penalties plus bonus, kept between zero and one and rounded |
| EngineProperties.CostEnvelope | app/services/pricing_engine.py:167-198 | a survivor's cost lies between the discounted list price and the list price with the largest premium its capacity allows; the final max with zero changes nothing |
| EngineProperties.SurvivorWithinBudget | app/services/pricing_engine.py:199-220 | a survivor's exact cost is within the limit, its rounded cost within the rounded limit |
| EngineProperties.ConfidenceMonotone | app/services/pricing_engine.py:254-262 | better scores and smaller penalties never lower the confidence, through weighting, clamp and rounding |
| EngineProperties.ScoresMonotone | app/services/pricing_engine.py:38-47 | no worse inputs give no worse scores, through ratio and rounding |
| EngineProperties.CandidateInRange | app/schemas/routing.py:124-143 | every score, penalty, bonus and confidence lies in its declared range, for any valid request, policy, model and signal |
| EngineProperties.ValidInputsNeverRaise | app/services/pricing_engine.py:263-309 | on valid inputs every candidate and the observability record construct: the engine raises iff no model survives, and then for that reason |
| Ranking.StableSortIsStable | app/services/pricing_engine.py:277 | the sort is by confidence downwards, then cost, then time to the first token, field by field, and keeps ties in order |
| Ranking.StableSortUnique | app/services/pricing_engine.py:277 | two lists with these two properties are the same list |
| EngineTheorems.TopKOptimality | app/services/pricing_engine.py:277-280 | the ladder is the first min(max_candidates, survivors) of any stable sort of the survivors, ranked 1..n; nothing later in it or left out is more confident; or as confident and cheaper; or as confident, as dear and faster |
| EngineTheorems.RecommendedIsBest | app/services/pricing_engine.py:277-280 | no survivor is more confident than the recommendation, or as confident and cheaper, or as confident, as dear and faster |
| EngineTheorems.DominanceInConfidence | app/services/pricing_engine.py:233-262 | a model no worse in all seven measured inputs has no less confidence |
| EngineTheorems.DominanceInRanking | app/services/pricing_engine.py:233-277 | a dominated model that is not cheaper precedes its dominator only on a tie of the whole key |
| EngineTheorems.RelaxedSurvivor | app/services/pricing_engine.py:134-231 | a survivor survives every relaxation of the request, no dearer and with no less confidence |
| EngineTheorems.RelaxationMonotone | app/services/pricing_engine.py:122-278 | relaxing a request never turns a decision into a refusal and never lowers the recommended confidence |
| EngineTheorems.WeightScaleInvariance | app/services/pricing_engine.py:54-57 | multiplying all policy weights by one positive factor changes nothing in the decision |
| EngineTheorems.LadderPrefix | app/services/pricing_engine.py:278-280 | a smaller max_candidates gives a prefix of the ladder and the same rejections |
| EngineTheorems.SafetyScoreLaw | app/services/pricing_engine.py:282-289 | the safety score never exceeds the recommended confidence and never grows with max_candidates |
| ControlPlane.InMemoryQuotaManager.EnforceRpm | app/services/control_plane.py:228-233 | counts the call in its minute and lets it pass iff fewer than the limit were counted before |
| ControlPlane.InMemoryQuotaManager.ReserveConcurrency | app/services/control_plane.py:235-241 | holds the slot iff the set with it stays within the limit, otherwise leaves the set without it |
| ControlPlane.DecisionStore.GetByIdempotency | app/services/persistence.py:152-168 | the stored response of the agent's decision with that non-empty key, if there is one |
| ControlPlane.DecisionStore.CreateDecision | app/services/persistence.py:170-196 | inserts iff id and (agent, key) are unused, and otherwise changes nothing |
| ControlPlane.DecisionStore.RecordOutcome | app/services/persistence.py:202-238 | settles an open decision with this outcome and its attempt rows; a settled one answers with its first outcome and does not change |
| ControlPlane.ControlPlaneService.CreateDecision | app/services/control_plane.py:330-379 | the calls in their order, with the release on every failure, have the effect and answer of the atomic create step |
| ControlPlane.ControlPlaneService.RecordOutcome | app/services/control_plane.py:411-454 | likewise for reports: store, then release, charge and publish, only when recorded |
| AtomicRuns.FailedCreateLeavesNothing | app/services/control_plane.py:359-379 | a refused create leaves slots, decisions, keys, charges and events as they were |
| AtomicRuns.ReachableConsistent | app/services/persistence.py:170-238 | in every reachable state the key index matches the table, completed means an outcome with its own id and its rows, and events are the completed decisions, each once |
| AtomicRuns.OneDecisionPerKey | app/models/control_plane.py:60 | never two decisions for one agent and key |
| AtomicRuns.IdempotentReplay | app/services/control_plane.py:336-340 | once decided under a non-empty key, every later call with it gets the same response and changes nothing, whatever request, catalog, signals or limits it comes with |
| AtomicRuns.EmptyKeyNeverReplays | app/services/persistence.py:157-158 | with the empty key the opposite: every later call with it is refused |
| AtomicRuns.RecordedOnce | app/services/control_plane.py:411-454 | a recorded report is answered with its decision's id, its status, its number of attempts and its fallback depth; a later one on the decision with the same four fields as a duplicate exactly if it comes from the same agent, in its own name, for the same request, within the rate, and is refused otherwise; the attempt rows stay the first report's |
| AtomicRuns.OutcomeWasRecorded | app/services/persistence.py:211-238 | a decision has an outcome only because an earlier report was answered "recorded" with it |
| Admission.AdmissionLaw | app/services/control_plane.py:330-379 | a create in the agent's own name whose key leads to no decision is refused for the rate iff its minute is used up; else for the budget iff the day's recorded spend and its limit exceed the daily budget; else for the policy; else for the slots iff the open decisions and it exceed the limit; else by the engine; else for the key iff that is the empty one and used; and otherwise decided with the engine's decision |
| Admission.ReachesHistory | app/services/control_plane.py:334-342 | the rate check is reached by exactly the calls in the caller's own name, except creates whose non-empty key an earlier create of the agent was decided with |
| Admission.ForeignName | app/services/control_plane.py:334-418 | exactly the calls in another agent's name are refused for that |
| Admission.EnvironmentsApart | app/services/control_plane.py:228-250 | a call moves no rate counter, slot or charge of another agent, nor of its own agent in another environment |
| Admission.OpenDecisions | app/services/persistence.py:170-238 | an agent's open decisions are those its creates were answered with and no report was recorded on |
| Admission.KeyHistory | app/services/persistence.py:152-196 | the unique index is the set of keys that decided creates came with |
| Admission.DecisionIsKept | app/services/persistence.py:170-196 | the row of a decision keeps the caller's agent, environment, request and key, and the response: its id, the policy and the engine's decision |
| Admission.ReportLaw | app/services/control_plane.py:411-454 | a report in the agent's own name on a decision is refused for the rate, for another agent's decision or for another request, in this order; else recorded with its own fields iff no report on it was; and otherwise a duplicate with the recorded one's fields |
| Admission.UnknownDecisionLaw | app/services/control_plane.py:420-423 | it is refused for an unknown decision iff it is within the rate and no create was answered with that decision |
| Admission.SettlementIsKept | app/services/persistence.py:211-238 | whatever follows a recorded report, the row stays completed with its key, model and outcome, and the event with its eight fields stays published |
| ControlPlane.RouteLaw | app/services/control_plane.py:347-369 | the policy is the first named by request, credential or default; it must be known and active, and the engine decides under it with the catalog, signals and clock of the moment |
| AtomicRuns.DailyLedger | app/services/control_plane.py:246-250 | each daily counter is the sum of the costs of the reports recorded on that day |
| AtomicRuns.SpendConserved | app/services/control_plane.py:430-445 | an agent's spend over all days equals the sum over its published events, which are its completed decisions |
| QuotaTheorems.SlotAccounting | app/services/control_plane.py:235-244 | an agent's slots are exactly its open decisions, at most its limit |
| QuotaTheorems.CoveredSpendBound | app/services/control_plane.py:342-345 | if of each decision some reserve is set aside that covers its reports and fits, with what is spent, into `most` whenever the budget check passes, no day's spend exceeds concurrent_limit * most |
| QuotaTheorems.DailySpendBound | app/services/control_plane.py:342-345 | on no day does an agent spend more than concurrent_limit * (daily_budget + slack), if every report costs at most its decision's limit plus slack |
| DaySpend.DayPasses | app/services/control_plane.py:228-233 | on one clock at most 1440 * rate_limit_rpm of an agent's calls pass the rate check in a day |
| DaySpend.ClockedSpendBound | app/services/control_plane.py:228-250 | with such a reserve, on one clock no day's spend exceeds min(concurrent_limit, 1440 * rate_limit_rpm) * most |
| DaySpend.ClockedDailyBound | app/services/control_plane.py:228-250 | if every report costs at most its decision's limit plus slack, it stays within as many times (daily_budget + slack) |
| SpendWitness.SpendBoundReached | app/services/control_plane.py:342-345 | for every credential some run on one clock, with no slack, spends exactly min(concurrent_limit, 1440 * rate_limit_rpm) * daily_budget in one day |
| RateWindow.RefusedForRate | app/services/control_plane.py:228-233 | exactly the calls that reach the rate check and fail it are refused for the rate |
| RateWindow.RateExact | app/services/control_plane.py:228-233 | in each minute exactly min(attempts, rate_limit_rpm) of the agent's calls pass, decisions and outcomes together |
| RateWindow.RateWindowBound | app/services/control_plane.py:228-233 | at most 2 * rate_limit_rpm pass in any sixty seconds |
| Interleaving.StepMoves | app/services/control_plane.py:260-290 | a step changes nothing, begins a flight, or moves its own flight one stage along its life |
| Interleaving.ReachableCoherent | app/services/persistence.py:170-238 | under every interleaving table, key index, attempt rows and stages agree |
| InterleavedSafety.SlotSafety | app/services/control_plane.py:269-280 | although adding and counting are separate steps, the ids that passed the count and are not released never exceed the limit, nor do open decisions |
| InterleavedSafety.SlotAccounting | app/services/control_plane.py:359-379 | the agent's slot set is exactly the ids of its requests whose decision is open, settled and not yet released, or whose reservation is in flight; a failed create has left neither slot nor decision |
| InterleavedSafety.OneDecisionPerKeyInterleaved | app/models/control_plane.py:60 | the insert race has one winner per agent and key |
| InterleavedSafety.ReplayInterleaved | app/services/control_plane.py:336-340 | once stored, a decision answers every later request with its key, which takes no further step |
| InterleavedSafety.CommittedOnce | app/services/persistence.py:208-238 | a committed outcome and its rows never change, and no second report commits |
| InterleavedSafety.SpendConservedInterleaved | app/services/control_plane.py:430-445 | daily counters sum to the charged decisions and events to the published ones, each decision once and at its committed cost |
| InterleavedSpend.CoveredCrowdBound | app/services/control_plane.py:342-360 | with a covering reserve and never more than w requests between budget check and count or between release and charge, a day's spend stays within (concurrent_limit + w) * most |
| InterleavedSpend.CrowdedSpendBound | app/services/control_plane.py:342-360 | for agents whose reports stay within their limits, within (concurrent_limit + w) daily budgets |
| SerialSpend.CoveredSerialBound | app/services/control_plane.py:342-360 | with a covering reserve and never more than one such request, a day's spend stays within concurrent_limit * most |
| SerialSpend.SerialSpendBound | app/services/control_plane.py:342-360 | for agents whose reports stay within their limits, within concurrent_limit daily budgets |
| CrowdedWitness.CrowdSpends | app/services/control_plane.py:342-360 | whatever decision the engine gives and whatever its reports cost, some run on one clock with never more than w such requests charges that cost in one day once per slot for w = 1, and once per slot and waiting request for every w >= 2 |
| EndToEndInterleaved.CrowdedSpendReached | app/services/control_plane.py:342-360 | for every credential and every w, with the engine's own decisions: some run on one clock spends nothing for w = 0, one budget per slot for w = 1, one per slot and waiting request from w = 2 on |
| EndToEndInterleaved.CrowdedSpendExact | app/services/control_plane.py:342-360 | for every w that is the largest daily spend of all frugal runs with never more than w such requests |
| EndToEndInterleaved.AtomicBoundHolds | app/services/control_plane.py:342-360 | for every credential with a budget, one budget per slot bounds all runs on one clock with at most w such requests iff w <= 1 |
| AtomicSchedules.CreateIsSchedule | app/services/control_plane.py:330-379 | the steps of a create taken without interruption have the effect of the atomic call, on every path |
| AtomicSchedules.ReportIsSchedule | app/services/control_plane.py:411-445 | likewise the steps of a report, from a machine at rest |
| AtomicSchedules.AtomicRunsAreSchedules | app/services/control_plane.py:256-290 | every state that a run of atomic calls reaches, the interleaved machine reaches |
| LatencyTracker.InMemorySignalStore.SmoothAndStoreSignal | app/services/latency_tracker.py:143-165 | stores and returns the smoothed signal and touches no other model's |
| LatencyTracker.InMemorySignalStore.ProbeLoopOnce | app/services/latency_tracker.py:172-184 | a round smooths every result against the signals from before the round |
| LatencyTracker.SignalsStayWithin | app/services/latency_tracker.py:143-165 | over any run of rounds a stored median stays within the readings seen and a success rate within 0 and 1 |
| LatencyTracker.ProbeRunsGiveValidSignals | app/services/latency_tracker.py:172-184 | every signal a run leaves behind is valid engine input |
| LatencyTracker.P50Settles | app/services/latency_tracker.py:157 | under a constant reading the median comes to rest at the reading from above, where it is if at most 3 ms short, and else exactly 3 ms short; it reaches the reading iff it starts no lower |
| LatencyTracker.StoredSignalSettles | app/services/latency_tracker.py:143-184 | the signal stored after any run, followed by enough rounds that read the same: median and success rate rest at exactly these values |
| LatencyTracker.FirstProbe | app/services/latency_tracker.py:143-165 | a first probe stores its readings, rates rounded, but of the 95th percentile only six tenths |
| LatencyTracker.LastProbeStamps | app/services/latency_tracker.py:156-184 | the stored signal carries the time and degraded reason of the model's last probe |
| LatencyTracker.P95Settles | app/services/latency_tracker.py:158 | under a constant reading the 95th percentile rests at four tenths of it, wherever it started |
| LatencyTracker.QpsSettles | app/services/latency_tracker.py:159 | under a constant reading the throughput rests at the reading if that is even in thousandths, and else next to it on the side it came from |
| LatencyTracker.StoredCarries | app/services/latency_tracker.py:143-184 | after any run of valid rounds the stored throughput is in whole thousandths and the 95th percentile not negative |
| LatencyTracker.StoredLoadSettles | app/services/latency_tracker.py:143-184 | a signal stored with such values and followed by enough rounds that read the same rests at exactly these |
| LatencyTracker.RateClimbs | app/services/latency_tracker.py:160 | under constant success the rate climbs from any lower grid value to 0.9999 and stays |
| LatencyTracker.RateFalls | app/services/latency_tracker.py:160 | under constant failure it falls from any positive grid value to 0.0001 and stays |
| EventConsumer.NormalizeSettles | app/services/persistence.py:34-45 | normalizing fails iff there is no reading; otherwise it keeps a given status and derives a missing one from the degraded reason, cuts the fraction off the reading, keeps the rest, and is idempotent |
| EventConsumer.SnapshotLaw | app/services/persistence.py:255-271 | a probe entry is stored iff it parses, has a reading and none of its four required keys is missing, and the row has exactly their values, the status, the cut-off reading and the reason |
| EventConsumer.ReadingLaw | app/services/persistence.py:38 | helper fact: the reading is under its own key, or under the older one only if that key is missing |
| EventConsumer.FailureLaw | app/workers/event_consumer.py:24-37 | an outcome entry fails iff it does not parse; a probe entry also if a reading or key is missing or the database is down |
| EventConsumer.Worker.Iterate | app/workers/event_consumer.py:21-38 | one iteration takes entries up in order, the offset first, and abandons the batch at the first failure |
| EventConsumer.FirstFailureStops | app/workers/event_consumer.py:21-38 | of a batch exactly the entries up to and including its first failing one, or all of them, are added to what each stream has taken up, in order; the rest has no effect |
| EventConsumer.IterationInStep | app/workers/event_consumer.py:21-38 | an iteration keeps each stream taken up exactly to its offset, moves no offset back, and passes the first entry read |
| EventConsumer.WorkerStaysInStep | app/workers/event_consumer.py:16-38 | over any run and failure pattern the entries taken up are exactly each stream's prefix up to its offset, once and in order, and the rows exactly the successful probe entries among them |
| EventConsumer.EveryReadAdvances | app/workers/event_consumer.py:20-38 | every read that returns anything takes up at least one more entry, so a failing entry blocks nothing |
| AgentClient.InvokeWithFallback | examples/agent_client.py:136-201 | the fallback loop posts exactly the reports, and ends as, the session determines, whatever providers and network reply; an error from the final report propagates |
| AgentClient.ProviderIsBeforeFirstSlash | examples/agent_client.py:145 | the provider is the part of the model id before its first slash |
| AgentClient.ReportsPriced | examples/agent_client.py:103-200 | every report names its decision and either failed at cost 0 or succeeded at the price of the candidate it names |
| AgentClient.AttemptsCostWhatReportsSay | examples/agent_client.py:148-192 | the attempts a report lists cost, in total, what it and all reports posted before it say |
| AgentClient.LostReportHidesCost | examples/agent_client.py:143-192 | if the first candidate answers but its report fails, and the second answers, the second report lists both answers and charges only the second |
| AgentClient.ReportsTell | examples/agent_client.py:103-200 | every report lists, candidate by candidate and field by field, the failed calls, the answers and the lost reports so far, and sums up their time, number and, on success, the last one's model and cost |
| AgentClient.EndingLaw | examples/agent_client.py:143-201 | the first turn that does not fall back decides how an invocation ends; one report is made of every answer, and one of the failure if all turns fall back |
| AgentClient.ReportsGrow | examples/agent_client.py:148-200 | every report satisfies the bounds of the outcome schema, and is followed by another only if it was a success report that got lost |
| AgentClient.EndingMatchesLastReport | examples/agent_client.py:143-201 | an invocation that returns a model has reported its success last; one that gives up has reported failure last |
| Rounding.RoundingRespectsLimit | app/services/pricing_engine.py:50-51 | rounding keeps every amount within a limit below it iff it does not raise the limit |
| Rounding.RoundMoneyStaysBelow | app/services/pricing_engine.py:50-51 | it raises a limit iff the limit's last fraction of a millionth is a half or more |
| EndToEnd.ProbedEngineNeverRaises | app/services/pricing_engine.py:159-275 | with signals from any run of valid probe rounds the engine raises only when no model survives |
| EndToEnd.CandidatesWithinLimit | app/services/pricing_engine.py:198-268 | every returned candidate is priced in whole millionths, within the rounded budget limit |
| EndToEnd.PricesRespectLimit | app/services/pricing_engine.py:198-268 | no candidate is ever priced above the limit itself iff rounding does not raise the limit; otherwise a valid request and model show one |
| EndToEnd.SomeRequestIsServed | app/services/pricing_engine.py:98-325 | for every limit some valid request and catalog are served, with the one candidate they determine |
| EndToEnd.EndToEndSpendBound | examples/agent_client.py:136-201 | agents that take the engine's decisions and report as the client does spend at most concurrent_limit times the rounded daily budget a day, whatever their limits and whatever fails |
| EndToEnd.ClockedClientBound | examples/agent_client.py:136-201 | on one clock, at most min(concurrent_limit, 1440 * rate_limit_rpm) times the rounded daily budget |
| EndToEnd.ClientBoundReached | examples/agent_client.py:136-201 | for every credential some such run on one clock, with valid requests and a valid catalog, engine and client included, spends exactly that |
| EndToEnd.BudgetBoundsClients | examples/agent_client.py:136-201 | concurrent_limit * daily_budget bounds all such runs on one clock iff it is at least min(concurrent_limit, 1440 * rate_limit_rpm) times the rounded daily budget; with no more slots than 1440 * rate_limit_rpm, iff rounding does not raise the budget |
| EndToEnd.EndToEndLimitsBound | examples/agent_client.py:136-201 | it also bounds every such run in which rounding raises no budget limit, even where it raises the daily budget |
| EndToEnd.EndToEndSpendNear | examples/agent_client.py:136-201 | the excess over concurrent_limit * daily_budget is at most half a millionth per slot |
| EndToEnd.WholeMicrosRound | app/services/pricing_engine.py:50-51 | limits in whole millionths are never raised |
| EndToEndInterleaved.ClientCrowdBound | examples/agent_client.py:136-201 | with interleaved steps, the engine's decisions, the client's reports and never more than w waiting requests: nothing for w = 0, one rounded daily budget per slot for w = 1, one per slot and waiting request from w = 2 on |
| EndToEndInterleaved.ClientCrowdReached | examples/agent_client.py:136-201 | for every credential and every w some such run on one clock spends exactly that |
| EndToEndInterleaved.BudgetBoundsClientCrowd | examples/agent_client.py:136-201 | concurrent_limit * daily_budget bounds all such runs on one clock iff it is at least that maximum |
| TokenEstimator.EstimateBounds | app/services/token_estimator.py:13-30 | helper fact: text costs at least one token and never more tokens than characters, no text none |
| EngineProperties.PriceSensitivity | app/services/pricing_engine.py:179-185 | helper fact: without tiers, a price raised by an amount raises the list cost by that amount per thousand tokens of its own kind, input or output |
| EngineProperties.NormalizedSumToOne | app/services/pricing_engine.py:54-57 | helper fact: normalized weights sum to one |
| EngineProperties.OneDimension | app/services/pricing_engine.py:254-262 | helper fact: a policy that weighs one dimension only is confident by that dimension's score, less penalties plus bonus |
| EngineProperties.BaselineScoresHalf | app/services/pricing_engine.py:38-47 | helper fact: a value at its baseline scores one half, whether more or less of it is better |
| LatencyTracker.NextRateOnGrid | app/services/latency_tracker.py:160 | helper fact: the success rate stays on the 1e-4 grid, where the recurrence is one on integers |

## Left out

- InterleavedSpend.CrowdedSpendBound: the bound of the atomic calls is false once two requests wait between budget check and charge, so the bound carries their number; it is exact from two on, see EndToEndInterleaved.CrowdedSpendExact.
- InterleavedSafety.SlotAccounting: an error at EXPIRE or SCARD, after SADD and outside the `try`, leaves the slot behind; in the model that request stays in flight at the stage it reached.
- DaySpend.ClockedSpendBound: one clock reading per atomic call; a call that straddles midnight or a full minute is two readings in the code.
- QuotaTheorems.DailySpendBound: assumes one credential (one environment, fixed limits) per agent id, because outcomes release and charge under the caller's environment while ownership is checked by agent id only.
- Interleaving.StepMoves: the engine's answer is any decision or failure, and one passed rate check lets any number of reports of that agent on that decision try to commit (at most one does), so the machine does at least what the code does.
- RateWindow.RateExact: proved for atomic calls; the Redis counter is one INCR and decides in that same step, so interleaving adds nothing to it.
- EventConsumer.WorkerStaysInStep: within one process; offsets start at 0-0 after a restart, so entries are then taken up again.
- EventConsumer.IterationInStep: lets a read return any in-order stretch of each stream; that XREAD groups entries by stream and stops at fifty is not used.
- ControlPlane.DecisionStore.RecordOutcome: one atomic transaction; the separate read of the decision before it is merged with it, which the immutability of the fields it checks permits.
- TokenEstimator.EstimateBounds: lower-casing covers ASCII letters only.
- IEEE floats, decimal precision and the string form of numbers: amounts are exact reals.
- Redis key expiry, including the TTL on the slot set: slot properties hold while the key lives. Clocks that go back, and dates of another time zone than UTC, in the spend theorems.
- A database commit whose success is reported as failure: an insert either happens and answers, or fails and does nothing.
- HTTP, FastAPI, Pydantic parsing, authentication, scopes, key hashing, migrations and metrics: plumbing or single guards; the principal is given.
- Loading and defaulting of the catalog file and the best-effort metadata persistence: the catalog is a given sequence with distinct ids.
- Timestamps, `policy_trace`, explanations, rejection details and compute times: an age in seconds is enough for the scores.
- The network bodies of `probe_model` and `call_model`: environment steps that return a valid value or fail.
- p95 after smoothing is not at least p50, cost is not monotone in input size across tiers, and shrinking an allowlist to nothing lifts it: these are not claimed.
