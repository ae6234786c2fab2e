/** What every atomic call is answered, from the calls and answers before it. */
module Admission {
  import opened Wrappers
  import opened Schemas
  import PricingEngine
  import opened Protocol
  import opened AtomicRuns
  import opened QuotaTheorems
  import opened RateWindow

  // ----- the tables as history

  ghost predicate DecidedAt(calls: seq<Call>, j: nat) {
    j < |calls| && calls[j].Create? && AnswerAt(calls, j).Decided?
  }

  /** Some create of the agent with this key was decided. */
  ghost predicate KeyUsed(calls: seq<Call>, agentId: string, key: string) {
    exists j: nat :: DecidedAt(calls, j) && calls[j].p.agentId == agentId && calls[j].key == Some(key)
  }

  /** Some create was answered with this decision. */
  ghost predicate IdDecided(calls: seq<Call>, d: Id) {
    exists j: nat :: DecidedAt(calls, j) && AnswerAt(calls, j).response.decisionId == d
  }

  ghost predicate RecordedAt(calls: seq<Call>, j: nat, d: Id) {
    && j < |calls| && calls[j].Report? && calls[j].outcome.decisionId == d
    && AnswerAt(calls, j).Settled? && AnswerAt(calls, j).outcome.status == Recorded
  }

  /** Some report on the decision was recorded. */
  ghost predicate IdReported(calls: seq<Call>, d: Id) {
    exists j: nat :: RecordedAt(calls, j, d)
  }

  lemma SameAnswer(calls: seq<Call>, n: nat, j: nat)
    requires j < n <= |calls|
    ensures AnswerAt(calls[..n], j) == AnswerAt(calls, j) && calls[..n][j] == calls[j]
  {
    hide Apply, Exec;
    assert calls[..n][..j] == calls[..j];
  }

  lemma {:induction false} HitsAreAttempts(calls: seq<Call>, k: MinuteKey)
    ensures Hits(Exec(calls).rpm, k) == Attempts(calls, k)
  {
    if calls != [] {
      var n := |calls| - 1;
      HitsAreAttempts(calls[..n], k);
      RpmStep(Exec(calls[..n]), calls[n]);
      hide Apply, ReachesRpm;
    }
  }

  lemma KeyIsUsed(calls: seq<Call>, j: nat)
    requires DecidedAt(calls, j) && calls[j].key.Some?
    ensures IdempotencyKey(calls[j].p.agentId, calls[j].key.value) in Exec(calls).index
  {
    hide Apply, Exec, Extends;
    var s := Exec(calls[..j]);
    var (t, a) := Apply(s, calls[j]);
    DecidedAnswers(s, calls[j], t, a);
    ExecStep(calls, j);
    LaterExtends(calls, j + 1);
    AnswersLater(t, Exec(calls), IdempotencyKey(calls[j].p.agentId, calls[j].key.value), a.response);
  }

  lemma {:induction false} UsedKey(calls: seq<Call>, k: IdempotencyKey)
    requires k in Exec(calls).index
    ensures KeyUsed(calls, k.agentId, k.key)
  {
    hide Apply, KeyUsed;
    var n := |calls| - 1;
    var front, c := calls[..n], calls[n];
    var s := Exec(front);
    if k in s.index {
      UsedKey(front, k);
      KeyStaysUsed(calls, n, k.agentId, k.key);
    } else {
      NewKey(s, c, k);
      KeyUsedNow(calls, n, k.agentId, k.key);
    }
  }

  lemma KeyUsedNow(calls: seq<Call>, j: nat, agentId: string, key: string)
    requires DecidedAt(calls, j) && calls[j].p.agentId == agentId && calls[j].key == Some(key)
    ensures KeyUsed(calls, agentId, key)
  {
  }

  lemma KeyStaysUsed(calls: seq<Call>, n: nat, agentId: string, key: string)
    requires n <= |calls| && KeyUsed(calls[..n], agentId, key)
    ensures KeyUsed(calls, agentId, key)
  {
    hide Apply, Exec;
    var front := calls[..n];
    var j: nat :| DecidedAt(front, j) && front[j].p.agentId == agentId && front[j].key == Some(key);
    SameAnswer(calls, n, j);
    assert DecidedAt(calls, j);
  }

  lemma NewKey(s: State, c: Call, k: IdempotencyKey)
    requires k !in s.index && k in Apply(s, c).0.index
    ensures c.Create? && Apply(s, c).1.Decided? && c.p.agentId == k.agentId && c.key == Some(k.key)
  {
    var (t, a) := Apply(s, c);
    CallEffect(s, c, t, a);
    hide Apply, FreshId, SameSlots, Repeats;
    if Creates(s, c, t, a) {
      CreateWrites(s, c, t, a);
      hide Creates, Settles, NewRecord, AddSlot;
    } else if Settles(s, c, t, a) {
      SettleWrites(s, c, t, a);
    }
  }

  /** The unique index is the set of keys that decided creates came with. */
  lemma KeyHistory(calls: seq<Call>, agentId: string, key: string)
    ensures IdempotencyKey(agentId, key) in Exec(calls).index <==> KeyUsed(calls, agentId, key)
  {
    hide Exec;
    if KeyUsed(calls, agentId, key) {
      var j: nat :| DecidedAt(calls, j) && calls[j].p.agentId == agentId && calls[j].key == Some(key);
      KeyIsUsed(calls, j);
    }
    if IdempotencyKey(agentId, key) in Exec(calls).index {
      UsedKey(calls, IdempotencyKey(agentId, key));
    }
  }

  lemma DecidedStored(s: State, c: Call, t: State, a: Answer)
    requires Apply(s, c) == (t, a) && c.Create? && a.Decided? && RecordsConsistent(s)
    ensures a.response.decisionId in t.decisions && t.decisions[a.response.decisionId].response == a.response
  {
    CallEffect(s, c, t, a);
    hide FreshId, SameSlots, Repeats, Settles;
    if Creates(s, c, t, a) {
      CreateWrites(s, c, t, a);
    } else {
      NotReserved(s, c, t, a);
    }
  }

  /** A create that decides without storing a row repeats a stored response. */
  lemma NotReserved(s: State, c: Call, t: State, a: Answer)
    requires Apply(s, c) == (t, a) && c.Create? && a.Decided? && !Creates(s, c, t, a)
    ensures t == s && Lookup(s.decisions, s.index, c.p.agentId, c.key) == Some(a.response)
  {
    hide WithinDailyBudget, RpmAllows, CountHit, Reserved, Lookup, Insertable, AddSlot, DropSlot, Held;
    if Lookup(s.decisions, s.index, c.p.agentId, c.key).None? && c.routing.Routed? {
      ReservedEffect(Counted(s, c.p, c.clock), c.p, c.request, c.key, c.id, c.routing);
    }
  }

  /** The decision table is the set of ids that creates were answered with. */
  lemma {:induction false} DecisionHistory(calls: seq<Call>, d: Id)
    ensures d in Exec(calls).decisions <==> IdDecided(calls, d)
  {
    hide Apply, Exec, Extends, RecordsConsistent, IdDecided;
    if d in Exec(calls).decisions {
      StoredWasDecided(calls, d);
    }
    if IdDecided(calls, d) {
      DecidedIsStored(calls, d);
    }
  }

  lemma DecidedIsStored(calls: seq<Call>, d: Id)
    requires IdDecided(calls, d)
    ensures d in Exec(calls).decisions
  {
    hide Apply, Exec, RecordsConsistent, IndexConsistent, EventsConsistent;
    var j: nat :| DecidedAt(calls, j) && AnswerAt(calls, j).response.decisionId == d;
    var s := Exec(calls[..j]);
    var (t, a) := Apply(s, calls[j]);
    ReachableConsistent(calls[..j]);
    DecidedStored(s, calls[j], t, a);
    ExecStep(calls, j);
    LaterExtends(calls, j + 1);
  }

  lemma IdDecidedNow(calls: seq<Call>, j: nat, d: Id)
    requires DecidedAt(calls, j) && AnswerAt(calls, j).response.decisionId == d
    ensures IdDecided(calls, d)
  {
  }

  lemma IdStaysDecided(calls: seq<Call>, n: nat, d: Id)
    requires n <= |calls| && IdDecided(calls[..n], d)
    ensures IdDecided(calls, d)
  {
    hide Apply, Exec;
    var front := calls[..n];
    var j: nat :| DecidedAt(front, j) && AnswerAt(front, j).response.decisionId == d;
    SameAnswer(calls, n, j);
    assert DecidedAt(calls, j);
  }

  lemma NewRow(s: State, c: Call, d: Id)
    requires d !in s.decisions && d in Apply(s, c).0.decisions
    ensures c.Create? && c.id == d && Apply(s, c).1.Decided? && Apply(s, c).1.response.decisionId == d
  {
    var (t, a) := Apply(s, c);
    CallEffect(s, c, t, a);
    hide Apply, FreshId, SameSlots, Repeats;
    if Creates(s, c, t, a) {
      CreateWrites(s, c, t, a);
      hide Creates, Settles, NewRecord, AddSlot;
    } else if Settles(s, c, t, a) {
      SettleWrites(s, c, t, a);
    }
  }

  lemma {:induction false} StoredWasDecided(calls: seq<Call>, d: Id)
    requires d in Exec(calls).decisions
    ensures IdDecided(calls, d)
  {
    hide Apply, IdDecided;
    var n := |calls| - 1;
    if d in Exec(calls[..n]).decisions {
      StoredWasDecided(calls[..n], d);
      IdStaysDecided(calls, n, d);
    } else {
      NewRow(Exec(calls[..n]), calls[n], d);
      IdDecidedNow(calls, n, d);
    }
  }

  /** A stored decision has an outcome exactly if a report on it was recorded. */
  lemma OutcomeHistory(calls: seq<Call>, d: Id)
    requires d in Exec(calls).decisions
    ensures Exec(calls).decisions[d].outcome.Some? <==> IdReported(calls, d)
  {
    hide Apply, Exec, Extends;
    if Exec(calls).decisions[d].outcome.Some? {
      var j := OutcomeWasRecorded(calls, d);
      assert RecordedAt(calls, j, d);
    }
    if IdReported(calls, d) {
      var j: nat :| RecordedAt(calls, j, d);
      SettlementLasts(calls, j);
    }
  }

  /** A recorded report's answer stays the decision's outcome. */
  lemma SettlementLasts(calls: seq<Call>, j: nat)
    requires j < |calls| && calls[j].Report? && RecordedAt(calls, j, calls[j].outcome.decisionId)
    ensures var o := calls[j].outcome;
            SettledWith(Exec(calls), o.decisionId, calls[j].p.agentId, o.requestId, AnswerAt(calls, j).outcome,
                        o.attempts)
  {
    hide Apply, Exec, Extends, SettledWith;
    var s, c := Exec(calls[..j]), calls[j];
    var (t, a) := Apply(s, c);
    RecordedSettles(s, c, t, a);
    ExecStep(calls, j);
    LaterExtends(calls, j + 1);
    SettledLater(t, Exec(calls), c.outcome.decisionId, c.p.agentId, c.outcome.requestId, a.outcome, c.outcome.attempts);
  }

  // ----- what a decision leaves

  /** The call stored the decision it was answered with, under its own new id. */
  ghost predicate OpenedAt(calls: seq<Call>, j: nat) {
    && DecidedAt(calls, j) && AnswerAt(calls, j).response.decisionId == calls[j].id
    && calls[j].id !in Exec(calls[..j]).decisions
  }

  lemma OpenedStores(s: State, c: Call, t: State, a: Answer)
    requires Apply(s, c) == (t, a) && c.Create? && a.Decided? && RecordsConsistent(s)
    requires a.response.decisionId == c.id && c.id !in s.decisions
    ensures Creates(s, c, t, a)
  {
    if !Creates(s, c, t, a) {
      NotReserved(s, c, t, a);
    }
  }

  /** Whatever happens later, the row of a decision keeps the caller's agent, environment, request and key and the
      response it was answered with: its id, the routed policy and what the engine decided. */
  lemma DecisionIsKept(calls: seq<Call>, j: nat)
    requires OpenedAt(calls, j)
    ensures var c := calls[j];
            && c.id in Exec(calls).decisions && c.routing.Routed? && c.routing.result.Ok?
            && var r := Exec(calls).decisions[c.id];
            && r.agentId == c.p.agentId && r.environment == c.p.environment && r.request == c.request
            && r.idempotencyKey == c.key && r.response.decisionId == c.id
            && r.response.policyId == c.routing.policyId && r.response.decision == c.routing.result.value
            && AnswerAt(calls, j) == Decided(r.response)
  {
    hide Exec;
    var s, c := Exec(calls[..j]), calls[j];
    var (t, a) := Apply(s, c);
    ReachableConsistent(calls[..j]);
    hide IndexConsistent, EventsConsistent, RecordsConsistent;
    OpenedStores(s, c, t, a);
    CreateWrites(s, c, t, a);
    ExecStep(calls, j);
    LaterExtends(calls, j + 1);
    hide Apply;
  }

  // ----- what a recorded report leaves

  /** The row, completed by this report, and the event published for it. */
  ghost predicate LeftCompleted(s: State, p: Principal, o: Outcome, key: Option<string>) {
    && o.decisionId in s.decisions
    && var r := s.decisions[o.decisionId];
    && r.status == Completed && r.outcomeKey == key && r.finalModelId == o.finalModelId
    && r.outcome == Some(OutcomeResponse(o.decisionId, Recorded, o.finalStatus, |o.attempts|, o.fallbackDepth))
    && OutcomeEvent(o.decisionId, p.agentId, o.requestId, o.finalStatus, o.finalModelId, o.fallbackDepth,
                    o.finalCostUsd, o.endToEndLatencyMs) in s.events
  }

  lemma SettleCompletes(s: State, c: Call, t: State, a: Answer)
    requires Settles(s, c, t, a)
    ensures LeftCompleted(t, c.p, c.outcome, c.key)
  {
    SettleWrites(s, c, t, a);
    hide Settles, AddSpend, DropSlot;
    var e := EventOf(c.p, c.outcome);
    assert t.events[|s.events|] == e;
  }

  lemma CompletedLater(s: State, t: State, p: Principal, o: Outcome, key: Option<string>)
    requires LeftCompleted(s, p, o, key) && Extends(s, t)
    ensures LeftCompleted(t, p, o, key)
  {
    var e := OutcomeEvent(o.decisionId, p.agentId, o.requestId, o.finalStatus, o.finalModelId, o.fallbackDepth,
                          o.finalCostUsd, o.endToEndLatencyMs);
    var i :| 0 <= i < |s.events| && s.events[i] == e;
    assert t.events[i] == e;
  }

  /** Whatever happens later, the row stays as the recorded report completed it, and the event with the report's fields
      stays published. */
  lemma SettlementIsKept(calls: seq<Call>, j: nat)
    requires j < |calls| && calls[j].Report? && RecordedAt(calls, j, calls[j].outcome.decisionId)
    ensures LeftCompleted(Exec(calls), calls[j].p, calls[j].outcome, calls[j].key)
  {
    hide Exec, Extends, LeftCompleted, SameSlots, FreshId, Creates, Leaves;
    var s, c := Exec(calls[..j]), calls[j];
    var (t, a) := Apply(s, c);
    hide Apply;
    CallEffect(s, c, t, a);
    SettledApart(s, c, t, a);
    SettleCompletes(s, c, t, a);
    ExecStep(calls, j);
    LaterExtends(calls, j + 1);
    CompletedLater(t, Exec(calls), c.p, c.outcome, c.key);
  }

  // ----- when a create is admitted

  /** The create's key leads to an earlier decision: only a non-empty key is ever looked up. */
  ghost predicate Replays(calls: seq<Call>, i: nat)
    requires i < |calls| && calls[i].Create?
  {
    && calls[i].key.Some? && calls[i].key.value != ""
    && KeyUsed(calls[..i], calls[i].p.agentId, calls[i].key.value)
  }

  /** The calls that reached the rate check in the same minute before, and this one, are within the rate. */
  ghost predicate InRate(calls: seq<Call>, i: nat)
    requires i < |calls|
  {
    Attempts(calls[..i], MinuteOf(calls[i])) + 1 <= calls[i].p.rateLimitRpm
  }

  lemma RateHistory(calls: seq<Call>, i: nat)
    requires i < |calls|
    ensures InRate(calls, i) <==> RpmAllows(Exec(calls[..i]), calls[i].p, calls[i].clock)
  {
    HitsAreAttempts(calls[..i], MinuteOf(calls[i]));
  }

  lemma LookupHistory(calls: seq<Call>, i: nat)
    requires i < |calls| && calls[i].Create?
    ensures var s, c := Exec(calls[..i]), calls[i];
            Lookup(s.decisions, s.index, c.p.agentId, c.key).Some? <==> Replays(calls, i)
  {
    hide Exec, Apply, EventsConsistent, RecordsConsistent, KeyUsed;
    var c := calls[i];
    ReachableConsistent(calls[..i]);
    if c.key.Some? {
      KeyHistory(calls[..i], c.p.agentId, c.key.value);
    }
  }

  /** The calls that reach the rate check: those in the caller's own name, except creates that an earlier decision
      answers. */
  lemma ReachesHistory(calls: seq<Call>, i: nat)
    requires i < |calls|
    ensures ReachesRpm(Exec(calls[..i]), calls[i]) <==>
            match calls[i]
            case Create(p, request, _, _, _, _) => p.agentId == request.agentId && !Replays(calls, i)
            case Report(p, outcome, _, _) => p.agentId == outcome.agentId
  {
    hide Exec, Lookup, Replays;
    if calls[i].Create? {
      LookupHistory(calls, i);
    }
  }

  /** What one create is answered, in terms of the state it meets. */
  lemma CreateAnswer(s: State, c: Call)
    requires c.Create? && c.p.agentId == c.request.agentId && Lookup(s.decisions, s.index, c.p.agentId, c.key).None?
    requires RpmAllows(s, c.p, c.clock)
    ensures Apply(s, c).1 ==
            if Spent(s.spend, DayKey(c.p.Key(), c.clock.day)) + c.request.budgetLimitUsd > c.p.dailyBudgetUsd then
              Refused(BudgetExceeded)
            else if c.routing.NoSuchPolicy? then Refused(UnknownPolicy)
            else if |Held(s.slots, c.p.Key()) + {c.id}| > c.p.concurrentLimit then Refused(ConcurrencyExceeded)
            else if c.routing.result.Err? then Refused(EngineFailed(c.routing.result.error))
            else if c.id in s.decisions || (c.key.Some? && IdempotencyKey(c.p.agentId, c.key.value) in s.index) then
              Refused(DuplicateKey)
            else Decided(Response(c.id, c.routing.policyId, c.routing.result.value))
  {
    hide RpmAllows, CountHit, Lookup, AddSlot, DropSlot, Held, Indexed, NewRecord, Spent;
    HeldAfterAdd(s.slots, c.p.Key(), c.id);
  }

  lemma DecidedOwned(s: State, c: Call, t: State, a: Answer)
    requires Apply(s, c) == (t, a) && c.Create? && a.Decided? && RecordsConsistent(s) && IndexConsistent(s)
    ensures a.response.decisionId in t.decisions && t.decisions[a.response.decisionId].agentId == c.p.agentId
  {
    CallEffect(s, c, t, a);
    hide FreshId, SameSlots, Repeats, Settles;
    if Creates(s, c, t, a) {
      CreateWrites(s, c, t, a);
    } else {
      NotReserved(s, c, t, a);
    }
  }

  /** A decision belongs to every agent that was ever answered with it: there is only one. */
  lemma OwnerHistory(calls: seq<Call>, j: nat)
    requires DecidedAt(calls, j)
    ensures var d := AnswerAt(calls, j).response.decisionId;
            d in Exec(calls).decisions && Exec(calls).decisions[d].agentId == calls[j].p.agentId
  {
    hide Exec, Apply, IndexConsistent, RecordsConsistent, EventsConsistent;
    var s := Exec(calls[..j]);
    var (t, a) := Apply(s, calls[j]);
    ReachableConsistent(calls[..j]);
    DecidedOwned(s, calls[j], t, a);
    ExecStep(calls, j);
    LaterExtends(calls, j + 1);
  }

  ghost predicate DecidedFor(calls: seq<Call>, agentId: string, d: Id) {
    exists j: nat :: DecidedAt(calls, j) && AnswerAt(calls, j).response.decisionId == d && calls[j].p.agentId == agentId
  }

  lemma DecidedForOwner(calls: seq<Call>, agentId: string, d: Id)
    ensures DecidedFor(calls, agentId, d) <==> d in Exec(calls).decisions && Exec(calls).decisions[d].agentId == agentId
  {
    hide Exec, Apply;
    DecisionHistory(calls, d);
    if DecidedFor(calls, agentId, d) {
      var j: nat :| DecidedAt(calls, j) && AnswerAt(calls, j).response.decisionId == d && calls[j].p.agentId == agentId;
      OwnerHistory(calls, j);
    }
    if IdDecided(calls, d) {
      var j: nat :| DecidedAt(calls, j) && AnswerAt(calls, j).response.decisionId == d;
      OwnerHistory(calls, j);
    }
  }

  /** An agent's open decisions are the ones its creates were answered with and on which no report was recorded. */
  lemma OpenDecisions(calls: seq<Call>, agentId: string, d: Id)
    ensures d in OpenIds(Exec(calls), agentId) <==> DecidedFor(calls, agentId, d) && !IdReported(calls, d)
  {
    hide Exec, DecidedFor, IdReported, IndexConsistent, EventsConsistent;
    ReachableConsistent(calls);
    DecidedForOwner(calls, agentId, d);
    if d in Exec(calls).decisions {
      OutcomeHistory(calls, d);
    }
  }

  lemma {:induction false} RunFront(p: Principal, calls: seq<Call>, i: nat)
    requires Run(calls) && OneCredential(p, calls) && i < |calls|
    ensures Run(calls[..i]) && OneCredential(p, calls[..i]) && GoodCall(Exec(calls[..i]), calls[i])
    decreases |calls|
  {
    hide GoodCall, Exec;
    var front := calls[..|calls| - 1];
    if i < |front| {
      assert front[..i] == calls[..i];
      RunFront(p, front, i);
    }
  }

  /** The slots a create would hold: one for each open decision of the agent, and its own. */
  lemma SlotsWanted(p: Principal, calls: seq<Call>, i: nat)
    requires Run(calls) && OneCredential(p, calls) && p.Valid()
    requires i < |calls| && calls[i].Create? && calls[i].p == p
    ensures var s := Exec(calls[..i]);
            |Held(s.slots, p.Key()) + {calls[i].id}| == |OpenIds(s, p.agentId)| + 1 && calls[i].id !in s.decisions
  {
    hide Run, OneCredential, Exec, OpenIds, Held;
    RunFront(p, calls, i);
    SlotAccounting(p, calls[..i]);
  }

  /** When a create in the agent's own name, whose key leads to no earlier decision, is admitted, and what it is refused
      for otherwise: first the rate; then the day's recorded spend and the request's limit against the daily budget;
      then the policy; then the open decisions and this one against the concurrent limit; then the engine; and last the
      key, which can only conflict if it is the empty one. */
  lemma AdmissionLaw(p: Principal, calls: seq<Call>, i: nat)
    requires Run(calls) && OneCredential(p, calls) && p.Valid()
    requires i < |calls| && calls[i].Create? && calls[i].p == p && p.agentId == calls[i].request.agentId
    requires !Replays(calls, i)
    ensures var front, c := calls[..i], calls[i];
            AnswerAt(calls, i) ==
            if !InRate(calls, i) then Refused(RpmExceeded)
            else if Charged(front, DayKey(p.Key(), c.clock.day)) + c.request.budgetLimitUsd > p.dailyBudgetUsd then
              Refused(BudgetExceeded)
            else if c.routing.NoSuchPolicy? then Refused(UnknownPolicy)
            else if |OpenIds(Exec(front), p.agentId)| + 1 > p.concurrentLimit then Refused(ConcurrencyExceeded)
            else if c.routing.result.Err? then Refused(EngineFailed(c.routing.result.error))
            else if c.key == Some("") && KeyUsed(front, p.agentId, "") then Refused(DuplicateKey)
            else Decided(Response(c.id, c.routing.policyId, c.routing.result.value))
  {
    hide Run, OneCredential, Exec, Apply, OpenIds, Held, Charged, KeyUsed, InRate, RpmAllows, ReachesRpm, Lookup, Spent;
    var front, c := calls[..i], calls[i];
    var s := Exec(front);
    RateHistory(calls, i);
    LookupHistory(calls, i);
    DailyLedger(front, DayKey(p.Key(), c.clock.day));
    SlotsWanted(p, calls, i);
    if c.key.Some? {
      KeyHistory(front, p.agentId, c.key.value);
    }
    if InRate(calls, i) {
      CreateAnswer(s, c);
    } else {
      RateRefuses(s, c);
    }
  }

  lemma RateRefuses(s: State, c: Call)
    requires c.Create? && c.p.agentId == c.request.agentId && Lookup(s.decisions, s.index, c.p.agentId, c.key).None?
    requires !RpmAllows(s, c.p, c.clock)
    ensures Apply(s, c).1 == Refused(RpmExceeded)
  {
    hide RpmAllows, Lookup;
  }

  /** A call in another agent's name, and no other, is refused for that. */
  lemma ForeignName(s: State, c: Call)
    ensures Apply(s, c).1 == Refused(AgentMismatch)
            <==> c.p.agentId != (match c case Create(_, request, _, _, _, _) => request.agentId
                                         case Report(_, outcome, _, _) => outcome.agentId)
  {
    hide RpmAllows, Lookup, WithinDailyBudget, AddSlot, DropSlot, Held, Insertable, Counted, Stored, SettledBy;
  }

  // ----- what a report is answered

  lemma ReportAnswer(s: State, c: Call)
    requires c.Report? && c.p.agentId == c.outcome.agentId
    ensures var o, d := c.outcome, c.outcome.decisionId;
            Apply(s, c).1 ==
            if !RpmAllows(s, c.p, c.clock) then Refused(RpmExceeded)
            else if d !in s.decisions then Refused(UnknownDecision)
            else if s.decisions[d].agentId != c.p.agentId then Refused(OwnershipMismatch)
            else if s.decisions[d].request.requestId != o.requestId then Refused(RequestMismatch)
            else if s.decisions[d].outcome.Some? then Settled(s.decisions[d].outcome.value.(status := Duplicate))
            else Settled(OutcomeResponse(d, Recorded, o.finalStatus, |o.attempts|, o.fallbackDepth))
  {
    hide RpmAllows, CountHit, SettledBy;
  }

  /** A report in the agent's own name on a decision that no create was answered with. */
  lemma UnknownDecisionLaw(calls: seq<Call>, i: nat)
    requires i < |calls| && calls[i].Report? && calls[i].p.agentId == calls[i].outcome.agentId
    ensures AnswerAt(calls, i) == Refused(UnknownDecision)
            <==> InRate(calls, i) && !IdDecided(calls[..i], calls[i].outcome.decisionId)
  {
    hide Exec, Apply, InRate, RpmAllows, IdDecided;
    RateHistory(calls, i);
    DecisionHistory(calls[..i], calls[i].outcome.decisionId);
    ReportAnswer(Exec(calls[..i]), calls[i]);
  }

  /** What a report in the agent's own name on a decision is answered: refused for the rate, for a decision of another
      agent or for another request; recorded if it is the first to get through; and a duplicate of the first, with the
      first one's fields, from then on. */
  lemma ReportLaw(calls: seq<Call>, j: nat, i: nat)
    requires j < i < |calls| && OpenedAt(calls, j)
    requires calls[i].Report? && calls[i].outcome.decisionId == calls[j].id
    requires calls[i].p.agentId == calls[i].outcome.agentId
    ensures var c, o, d, a := calls[i], calls[i].outcome, calls[j].id, AnswerAt(calls, i);
            if !InRate(calls, i) then a == Refused(RpmExceeded)
            else if calls[j].p.agentId != c.p.agentId then a == Refused(OwnershipMismatch)
            else if calls[j].request.requestId != o.requestId then a == Refused(RequestMismatch)
            else if !IdReported(calls[..i], d) then
              a == Settled(OutcomeResponse(d, Recorded, o.finalStatus, |o.attempts|, o.fallbackDepth))
            else
              exists k: nat :: RecordedAt(calls[..i], k, d)
                && var first := calls[k].outcome;
                   a == Settled(OutcomeResponse(d, Duplicate, first.finalStatus, |first.attempts|, first.fallbackDepth))
  {
    hide Exec, Apply, InRate, RpmAllows;
    var front, d := calls[..i], calls[j].id;
    RateHistory(calls, i);
    ReportAnswer(Exec(front), calls[i]);
    SameAnswer(calls, i, j);
    assert front[..j] == calls[..j];
    DecisionIsKept(front, j);
    OutcomeHistory(front, d);
    if IdReported(front, d) {
      var k: nat :| RecordedAt(front, k, d);
      SettlementIsKept(front, k);
    }
  }

  // ----- quotas of others

  lemma CreateSlots(s: State, c: Call)
    requires c.Create?
    ensures var t, k := Apply(s, c).0, c.p.Key();
            t.slots == s.slots || t.slots == AddSlot(s.slots, k, c.id)
            || t.slots == DropSlot(AddSlot(s.slots, k, c.id), k, c.id)
  {
    hide Apply, Reserved, Lookup, CountHit, WithinDailyBudget, Insertable, AddSlot, DropSlot, Indexed, NewRecord, Held;
    CreateGuards(s, c);
    if c.routing.Routed? {
      ReservedEffect(Counted(s, c.p, c.clock), c.p, c.request, c.key, c.id, c.routing);
    }
  }

  lemma ReportSlots(s: State, c: Call)
    requires c.Report?
    ensures var t, k := Apply(s, c).0, c.p.Key();
            t.slots == s.slots || t.slots == DropSlot(s.slots, k, c.outcome.decisionId)
  {
    hide Apply, CountHit, DropSlot, AddSpend, CompletedRecord, EventOf, RecordedResponse, DuplicateOf;
    ReportGuards(s, c);
  }

  lemma SpendMoves(s: State, c: Call)
    ensures var t, k := Apply(s, c).0, DayKey(c.p.Key(), c.clock.day);
            t.spend == s.spend || (c.Report? && t.spend == AddSpend(s.spend, k, c.outcome.finalCostUsd))
  {
    hide Apply, Creates, Settles, SameSlots, Repeats, FreshId, AddSpend;
    var (t, a) := Apply(s, c);
    CallEffect(s, c, t, a);
    if Creates(s, c, t, a) {
      CreateWrites(s, c, t, a);
    } else if Settles(s, c, t, a) {
      SettleWrites(s, c, t, a);
    }
  }

  /** A call moves no counter, slot or charge of another agent, nor of its own agent in another environment. */
  lemma EnvironmentsApart(s: State, c: Call, environment: string, agentId: string, minute: int, day: int)
    requires environment != c.p.environment || agentId != c.p.agentId
    ensures var t, o := Apply(s, c).0, Owner(environment, agentId);
            && Hits(t.rpm, MinuteKey(o, minute)) == Hits(s.rpm, MinuteKey(o, minute))
            && Held(t.slots, o) == Held(s.slots, o)
            && Spent(t.spend, DayKey(o, day)) == Spent(s.spend, DayKey(o, day))
  {
    hide Apply, ReachesRpm;
    RpmStep(s, c);
    SpendMoves(s, c);
    if c.Create? {
      CreateSlots(s, c);
    } else {
      ReportSlots(s, c);
    }
  }
}
