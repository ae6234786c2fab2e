/**
 The running services: quota manager, decision store, event publisher, signal store and the
 control plane that calls them in order. Each method is tied to the protocol's atomic step.
 */
module ControlPlane {
  import opened Wrappers
  import opened Schemas
  import opened PricingEngine
  import opened Protocol

  class InMemoryQuotaManager {
    var rpm: map<MinuteKey, nat>
    var concurrent: map<Owner, set<Id>>
    var dailyBudget: map<DayKey, real>

    constructor ()
      ensures rpm == map[] && concurrent == map[] && dailyBudget == map[]
    {
      rpm, concurrent, dailyBudget := map[], map[], map[];
    }

    method EnforceRpm(p: Principal, clock: Clock) returns (allowed: bool)
      modifies this`rpm
      ensures rpm == CountHit(old(rpm), MinuteKey(p.Key(), clock.Minute()))
      ensures allowed <==> Hits(old(rpm), MinuteKey(p.Key(), clock.Minute())) < p.rateLimitRpm
    {
      var key := MinuteKey(p.Key(), clock.Minute());
      rpm := rpm[key := Hits(rpm, key) + 1];
      allowed := !(rpm[key] > p.rateLimitRpm);
    }

    method ReserveConcurrency(p: Principal, id: Id) returns (reserved: bool)
      modifies this`concurrent
      ensures reserved <==> |Held(old(concurrent), p.Key()) + {id}| <= p.concurrentLimit
      ensures concurrent == if reserved then AddSlot(old(concurrent), p.Key(), id)
                            else DropSlot(AddSlot(old(concurrent), p.Key(), id), p.Key(), id)
    {
      var current := Held(concurrent, p.Key());
      current := current + {id};
      concurrent := concurrent[p.Key() := current];
      if |current| > p.concurrentLimit {
        concurrent := concurrent[p.Key() := current - {id}];
        return false;
      }
      return true;
    }

    method ReleaseConcurrency(p: Principal, id: Id)
      modifies this`concurrent
      ensures concurrent == DropSlot(old(concurrent), p.Key(), id)
    {
      concurrent := concurrent[p.Key() := Held(concurrent, p.Key()) - {id}];
    }

    method CurrentDailySpend(p: Principal, day: int) returns (amount: real)
      ensures amount == Spent(dailyBudget, DayKey(p.Key(), day))
    {
      amount := Spent(dailyBudget, DayKey(p.Key(), day));
    }

    method RecordSpend(p: Principal, amount: real, day: int)
      modifies this`dailyBudget
      ensures dailyBudget == AddSpend(old(dailyBudget), DayKey(p.Key(), day), amount)
    {
      var key := DayKey(p.Key(), day);
      dailyBudget := dailyBudget[key := Spent(dailyBudget, key) + amount];
    }
  }

  class DecisionStore {
    var decisions: map<Id, Record>
    var index: map<IdempotencyKey, Id>
    var attemptRows: map<Id, seq<Attempt>>

    constructor ()
      ensures decisions == map[] && index == map[] && attemptRows == map[]
    {
      decisions, index, attemptRows := map[], map[], map[];
    }

    method GetByIdempotency(agentId: string, key: Option<string>) returns (r: Option<Response>)
      ensures r == Lookup(decisions, index, agentId, key)
    {
      if key.None? || key.value == "" {
        return None;
      }
      var k := IdempotencyKey(agentId, key.value);
      if k !in index || index[k] !in decisions {
        return None;
      }
      return Some(decisions[index[k]].response);
    }

    /** Inserts a row, or raises on a violated constraint and leaves the table alone. */
    method CreateDecision(p: Principal, request: DecisionRequest, response: Response, key: Option<string>)
      returns (inserted: bool)
      modifies this`decisions, this`index
      ensures inserted <==> Insertable(old(decisions), old(index), p.agentId, response.decisionId, key)
      ensures inserted ==> decisions == old(decisions)[response.decisionId := NewRecord(p, request, key, response)]
      ensures inserted ==> index == Indexed(old(index), p.agentId, key, response.decisionId)
      ensures !inserted ==> decisions == old(decisions) && index == old(index)
    {
      if response.decisionId in decisions || (key.Some? && IdempotencyKey(p.agentId, key.value) in index) {
        return false;
      }
      decisions := decisions[response.decisionId := NewRecord(p, request, key, response)];
      if key.Some? {
        index := index[IdempotencyKey(p.agentId, key.value) := response.decisionId];
      }
      return true;
    }

    /** One transaction: a decision that already has an outcome answers with that outcome. */
    method RecordOutcome(o: Outcome, key: Option<string>) returns (r: OutcomeResponse)
      requires o.decisionId in decisions
      modifies this`decisions, this`attemptRows
      ensures var first := old(decisions)[o.decisionId].outcome;
              if first.Some? then r == first.value.(status := Duplicate) && decisions == old(decisions)
                 && attemptRows == old(attemptRows)
              else
                && r == OutcomeResponse(o.decisionId, Recorded, o.finalStatus, |o.attempts|, o.fallbackDepth)
                && decisions == old(decisions)[o.decisionId := CompletedRecord(old(decisions)[o.decisionId], o, key)]
                && attemptRows == old(attemptRows)[o.decisionId := o.attempts]
    {
      var decision := decisions[o.decisionId];
      if decision.outcome.Some? {
        return DuplicateOf(decision.outcome.value);
      }
      var rows: seq<Attempt> := [];
      for i := 0 to |o.attempts|
        invariant rows == o.attempts[..i]
      {
        rows := rows + [o.attempts[i]];
      }
      attemptRows := attemptRows[o.decisionId := rows];
      assert rows == o.attempts;
      r := OutcomeResponse(o.decisionId, Recorded, o.finalStatus, |o.attempts|, o.fallbackDepth);
      decisions := decisions[o.decisionId :=
                               decision.(outcomeKey := key, status := Completed,
                                         finalModelId := o.finalModelId, outcome := Some(r))];
    }
  }

  class InMemoryEventPublisher {
    var outcomeEvents: seq<OutcomeEvent>

    constructor ()
      ensures outcomeEvents == []
    {
      outcomeEvents := [];
    }

    method PublishOutcome(e: OutcomeEvent)
      modifies this
      ensures outcomeEvents == old(outcomeEvents) + [e]
    {
      outcomeEvents := outcomeEvents + [e];
    }
  }

  // ----- routing a request

  const DEFAULT_POLICY_ID := "balanced"

  /** What `create_decision` reads besides the quota and decision stores. */
  datatype World = World(
    policies: map<string, RoutingPolicy>,
    catalog: Catalog,
    signals: map<string, Signal>,
    now: real,
    freshnessSeconds: int)
  {
    ghost predicate Valid() {
      && (forall id :: id in policies ==> policies[id].Valid())
      && catalog.Valid() && freshnessSeconds >= 0
      && (forall id :: id in signals ==> signals[id].Valid())
    }
  }

  predicate Given(s: Option<string>) { s.Some? && s.value != "" }

  function PolicyIdFor(p: Principal, request: DecisionRequest): string {
    if Given(request.policyId) then request.policyId.value
    else if p.defaultPolicyId != "" then p.defaultPolicyId
    else DEFAULT_POLICY_ID
  }

  function ContextFor(w: World, policy: RoutingPolicy, request: DecisionRequest): Context {
    Context(request, policy, w.catalog.normalizationBaseline, w.signals, w.now, w.freshnessSeconds)
  }

  function Route(w: World, p: Principal, request: DecisionRequest): Routing {
    var policyId := PolicyIdFor(p, request);
    if policyId !in w.policies || !w.policies[policyId].active then NoSuchPolicy
    else Routed(policyId, Decide(ContextFor(w, w.policies[policyId], request), w.catalog.models))
  }

  /** The policy is the first one named, by the request, by the credential or by default; it must be known and active.
      The engine then decides the request under it, with the catalog, signals and clock of the moment. */
  lemma RouteLaw(w: World, p: Principal, request: DecisionRequest, k: nat)
    requires k < 3 && [request.policyId.GetOr(""), p.defaultPolicyId, DEFAULT_POLICY_ID][k] != ""
    requires forall j :: 0 <= j < k ==> [request.policyId.GetOr(""), p.defaultPolicyId, DEFAULT_POLICY_ID][j] == ""
    ensures var id := [request.policyId.GetOr(""), p.defaultPolicyId, DEFAULT_POLICY_ID][k];
            if id in w.policies && w.policies[id].active then
              Route(w, p, request)
              == Routed(id, Decide(Context(request, w.policies[id], w.catalog.normalizationBaseline, w.signals, w.now,
                                           w.freshnessSeconds), w.catalog.models))
            else Route(w, p, request) == NoSuchPolicy
  {
    hide Decide;
    var named := [request.policyId.GetOr(""), p.defaultPolicyId, DEFAULT_POLICY_ID];
    assert k > 0 ==> named[0] == "";
    assert k > 1 ==> named[1] == "";
  }

  class ControlPlaneService {
    const quota: InMemoryQuotaManager
    const store: DecisionStore
    const publisher: InMemoryEventPublisher

    constructor (quota: InMemoryQuotaManager, store: DecisionStore, publisher: InMemoryEventPublisher)
      ensures this.quota == quota && this.store == store && this.publisher == publisher
    {
      this.quota, this.store, this.publisher := quota, store, publisher;
    }

    /** The state of the three stores together. */
    ghost function Abs(): State
      reads quota, store, publisher
    {
      State(quota.rpm, quota.concurrent, quota.dailyBudget, store.decisions, store.index, store.attemptRows,
            publisher.outcomeEvents)
    }

    method CreateDecision(p: Principal, request: DecisionRequest, key: Option<string>, freshId: Id, w: World,
                          clock: Clock)
      returns (a: Answer)
      requires request.Valid()
      modifies quota, store
      ensures (Abs(), a) == CreateStep(old(Abs()), p, request, key, freshId, Route(w, p, request), clock)
    {
      hide Decide;
      if p.agentId != request.agentId {
        return Refused(AgentMismatch);
      }
      var existing := store.GetByIdempotency(p.agentId, key);
      if existing.Some? {
        return Decided(existing.value);
      }
      var allowed := quota.EnforceRpm(p, clock);
      if !allowed {
        return Refused(RpmExceeded);
      }
      var currentSpend := quota.CurrentDailySpend(p, clock.day);
      if currentSpend + request.budgetLimitUsd > p.dailyBudgetUsd {
        return Refused(BudgetExceeded);
      }
      var policyId := PolicyIdFor(p, request);
      if policyId !in w.policies || !w.policies[policyId].active {
        return Refused(UnknownPolicy);
      }
      var reserved := quota.ReserveConcurrency(p, freshId);
      if !reserved {
        return Refused(ConcurrencyExceeded);
      }
      var result := CalculateRoutingDecision(ContextFor(w, w.policies[policyId], request), w.catalog.models);
      match result {
        case Err(e) =>
          quota.ReleaseConcurrency(p, freshId);
          a := Refused(EngineFailed(e));
        case Ok(d) =>
          var response := Response(freshId, policyId, d);
          var inserted := store.CreateDecision(p, request, response, key);
          if inserted {
            a := Decided(response);
          } else {
            quota.ReleaseConcurrency(p, freshId);
            a := Refused(DuplicateKey);
          }
      }
    }

    method RecordOutcome(p: Principal, o: Outcome, key: Option<string>, clock: Clock) returns (a: Answer)
      requires o.Valid()
      modifies quota, store, publisher
      ensures (Abs(), a) == ReportStep(old(Abs()), p, o, key, clock)
    {
      if p.agentId != o.agentId {
        return Refused(AgentMismatch);
      }
      var allowed := quota.EnforceRpm(p, clock);
      if !allowed {
        return Refused(RpmExceeded);
      }
      if o.decisionId !in store.decisions {
        return Refused(UnknownDecision);
      }
      var record := store.decisions[o.decisionId];
      if record.agentId != p.agentId {
        return Refused(OwnershipMismatch);
      }
      if record.request.requestId != o.requestId {
        return Refused(RequestMismatch);
      }
      var response := store.RecordOutcome(o, key);
      if response.status == Recorded {
        quota.ReleaseConcurrency(p, o.decisionId);
        quota.RecordSpend(p, o.finalCostUsd, clock.day);
        publisher.PublishOutcome(EventOf(p, o));
      }
      a := Settled(response);
    }
  }
}
