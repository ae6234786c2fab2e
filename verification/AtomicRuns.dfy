/** Whole runs of atomic calls: consistency of every reachable state, idempotency, exactly-once settlement and
    conservation of spend. */
module AtomicRuns {
  import opened Wrappers
  import opened Schemas
  import opened Protocol
  import opened Sums

  // ----- what every reachable state satisfies

  ghost predicate IndexConsistent(s: State) {
    && (forall k :: k in s.index ==>
          && s.index[k] in s.decisions
          && s.decisions[s.index[k]].agentId == k.agentId
          && s.decisions[s.index[k]].idempotencyKey == Some(k.key))
    && (forall d :: d in s.decisions && s.decisions[d].idempotencyKey.Some? ==>
          var k := IdempotencyKey(s.decisions[d].agentId, s.decisions[d].idempotencyKey.value);
          k in s.index && s.index[k] == d)
  }

  ghost predicate RecordsConsistent(s: State) {
    forall d :: d in s.decisions ==>
      && s.decisions[d].response.decisionId == d
      && (s.decisions[d].status == Completed <==> s.decisions[d].outcome.Some?)
      && (s.decisions[d].status == Completed ==>
          && d in s.attemptRows && |s.attemptRows[d]| == s.decisions[d].outcome.value.attemptsRecorded
          && s.decisions[d].outcome.value.decisionId == d && s.decisions[d].outcome.value.status == Recorded)
  }

  /** The published events are the completed decisions, each exactly once and with its recorded outcome. */
  ghost predicate EventsConsistent(s: State) {
    && (forall i, j :: 0 <= i < j < |s.events| ==> s.events[i].decisionId != s.events[j].decisionId)
    && (forall i :: 0 <= i < |s.events| ==> EventMatches(s, s.events[i]))
    && (forall d :: d in s.decisions && s.decisions[d].status == Completed ==>
        exists i :: 0 <= i < |s.events| && s.events[i].decisionId == d)
  }

  ghost predicate EventMatches(s: State, e: OutcomeEvent) {
    && e.decisionId in s.decisions
    && var r := s.decisions[e.decisionId];
    && r.status == Completed && r.agentId == e.agentId && r.request.requestId == e.requestId
    && r.finalModelId == e.finalModelId
    && r.outcome.Some? && r.outcome.value.finalStatus == e.finalStatus
    && r.outcome.value.fallbackDepth == e.fallbackDepth
  }

  ghost predicate Consistent(s: State) {
    IndexConsistent(s) && RecordsConsistent(s) && EventsConsistent(s)
  }

  /** `uuid4` never returns an id that is already in use. */
  ghost predicate FreshId(s: State, c: Call) {
    c.Create? ==> c.id !in s.decisions && c.id !in Held(s.slots, c.p.Key())
  }

  // ----- a call leaves the tables alone, stores one decision, or settles one decision

  ghost predicate Leaves(s: State, t: State) {
    && t.decisions == s.decisions && t.index == s.index && t.attemptRows == s.attemptRows
    && t.events == s.events && t.spend == s.spend
  }

  ghost predicate Creates(s: State, c: Call, t: State, a: Answer) {
    && c.Create? && c.routing.Routed? && c.routing.result.Ok?
    && a == Decided(Response(c.id, c.routing.policyId, c.routing.result.value))
    && c.p.agentId == c.request.agentId
    && Lookup(s.decisions, s.index, c.p.agentId, c.key).None?
    && Insertable(s.decisions, s.index, c.p.agentId, c.id, c.key)
    && WithinDailyBudget(s, c.p, c.request, c.clock.day)
    && |Held(s.slots, c.p.Key()) + {c.id}| <= c.p.concurrentLimit
    && t == Stored(Counted(s, c.p, c.clock).(slots := AddSlot(s.slots, c.p.Key(), c.id)), c.p, c.request, c.key,
                   a.response)
  }

  ghost predicate Settles(s: State, c: Call, t: State, a: Answer) {
    && c.Report? && c.outcome.decisionId in s.decisions
    && s.decisions[c.outcome.decisionId].outcome.None?
    && s.decisions[c.outcome.decisionId].agentId == c.p.agentId
    && s.decisions[c.outcome.decisionId].request.requestId == c.outcome.requestId
    && a == Settled(RecordedResponse(c.outcome))
    && t == SettledBy(Counted(s, c.p, c.clock), c.p, c.outcome, c.key, c.clock.day)
  }

  lemma SlotRoundTrip(slots: map<Owner, set<Id>>, k: Owner, id: Id)
    requires id !in Held(slots, k)
    ensures forall o :: Held(DropSlot(AddSlot(slots, k, id), k, id), o) == Held(slots, o)
  {
  }

  /** No slot is gained or lost. */
  ghost predicate SameSlots(s: State, t: State) {
    forall o :: Held(t.slots, o) == Held(s.slots, o)
  }

  lemma ReservedEffect(s: State, p: Principal, request: DecisionRequest, key: Option<string>, id: Id, routing: Routing)
    requires routing.Routed?
    ensures var (t, a) := Reserved(s, p, request, key, id, routing);
            || (&& a.Refused?
                && t == s.(slots := DropSlot(AddSlot(s.slots, p.Key(), id), p.Key(), id)))
            || (&& routing.result.Ok? && a == Decided(Response(id, routing.policyId, routing.result.value))
                && Insertable(s.decisions, s.index, p.agentId, id, key)
                && |Held(s.slots, p.Key()) + {id}| <= p.concurrentLimit
                && t == Stored(s.(slots := AddSlot(s.slots, p.Key(), id)), p, request, key, a.response))
  {
    HeldAfterAdd(s.slots, p.Key(), id);
    hide Insertable, AddSlot, DropSlot, Held, Stored;
  }

  /** A create stops at one of its guards, or gets as far as the reservation. */
  lemma CreateGuards(s: State, c: Call)
    requires c.Create?
    ensures var counted := Counted(s, c.p, c.clock);
            || ((Apply(s, c).0 == s || Apply(s, c).0 == counted) && !Apply(s, c).1.Settled?)
            || (&& c.routing.Routed? && c.p.agentId == c.request.agentId
                && Lookup(s.decisions, s.index, c.p.agentId, c.key).None?
                && WithinDailyBudget(s, c.p, c.request, c.clock.day)
                && Apply(s, c) == Reserved(counted, c.p, c.request, c.key, c.id, c.routing))
  {
    hide WithinDailyBudget, RpmAllows, CountHit, Lookup, Reserved, Spent;
  }

  lemma CreateEffect(s: State, c: Call, t: State, a: Answer)
    requires c.Create? && Apply(s, c) == (t, a)
    ensures Creates(s, c, t, a) || (Leaves(s, t) && (FreshId(s, c) ==> SameSlots(s, t)))
    ensures !a.Settled?
  {
    hide Apply, Insertable, WithinDailyBudget, CountHit, AddSlot, DropSlot, Lookup, Held, Reserved, Indexed, NewRecord,
      SameSlots;
    var counted := Counted(s, c.p, c.clock);
    CreateGuards(s, c);
    SlotsUntouched(s, counted);
    SlotsUntouched(s, s);
    if c.routing.Routed? && (t, a) == Reserved(counted, c.p, c.request, c.key, c.id, c.routing) {
      ReservedEffect(counted, c.p, c.request, c.key, c.id, c.routing);
      SlotsGivenBack(s, t, c);
    }
  }

  lemma SlotsUntouched(s: State, t: State)
    requires t.slots == s.slots
    ensures SameSlots(s, t)
  {
  }

  lemma SlotsGivenBack(s: State, t: State, c: Call)
    requires c.Create?
    ensures FreshId(s, c) && t.slots == DropSlot(AddSlot(s.slots, c.p.Key(), c.id), c.p.Key(), c.id) ==> SameSlots(s, t)
  {
    hide AddSlot, DropSlot, Held;
    if c.id !in Held(s.slots, c.p.Key()) {
      SlotRoundTrip(s.slots, c.p.Key(), c.id);
    }
  }

  lemma HeldAfterAdd(slots: map<Owner, set<Id>>, k: Owner, id: Id)
    ensures Held(AddSlot(slots, k, id), k) == Held(slots, k) + {id}
  {
  }

  /** A report that is answered either settles the decision or repeats its recorded outcome. */
  ghost predicate Repeats(s: State, c: Call, t: State, a: Answer) {
    && c.Report? && Leaves(s, t) && c.outcome.decisionId in s.decisions
    && s.decisions[c.outcome.decisionId].outcome.Some?
    && a == Settled(DuplicateOf(s.decisions[c.outcome.decisionId].outcome.value))
  }

  /** A report stops at one of its guards, or gets as far as the store. */
  lemma ReportGuards(s: State, c: Call)
    requires c.Report?
    ensures var counted, d := Counted(s, c.p, c.clock), c.outcome.decisionId;
            || (Apply(s, c).1.Refused? && (Apply(s, c).0 == s || Apply(s, c).0 == counted))
            || (&& d in s.decisions && s.decisions[d].agentId == c.p.agentId
                && s.decisions[d].request.requestId == c.outcome.requestId
                && Apply(s, c) == match s.decisions[d].outcome
                                  case Some(first) => (counted, Settled(DuplicateOf(first)))
                                  case None => (SettledBy(counted, c.p, c.outcome, c.key, c.clock.day),
                                                Settled(RecordedResponse(c.outcome))))
  {
    hide RpmAllows, CountHit, SettledBy, RecordedResponse, DuplicateOf;
  }

  lemma ReportEffect(s: State, c: Call, t: State, a: Answer)
    requires c.Report? && Apply(s, c) == (t, a)
    ensures Settles(s, c, t, a) || (Repeats(s, c, t, a) && SameSlots(s, t))
            || (a.Refused? && Leaves(s, t) && SameSlots(s, t))
  {
    hide Apply, CountHit, SettledBy, RecordedResponse, DuplicateOf, SameSlots;
    var counted := Counted(s, c.p, c.clock);
    ReportGuards(s, c);
    SlotsUntouched(s, s);
    SlotsUntouched(s, counted);
  }

  lemma CallEffect(s: State, c: Call, t: State, a: Answer)
    requires Apply(s, c) == (t, a)
    ensures Leaves(s, t) || Creates(s, c, t, a) || Settles(s, c, t, a)
    ensures !Creates(s, c, t, a) && !Settles(s, c, t, a) && FreshId(s, c) ==> SameSlots(s, t)
    ensures a.Settled? ==> Settles(s, c, t, a) || Repeats(s, c, t, a)
    ensures a.Decided? && !Creates(s, c, t, a) ==> Leaves(s, t)
  {
    hide Apply, Creates, Settles, Leaves, Repeats, SameSlots, FreshId;
    if c.Create? {
      CreateEffect(s, c, t, a);
    } else {
      ReportEffect(s, c, t, a);
    }
    RepeatsLeaves(s, c, t, a);
    SettlesReports(s, c, t, a);
  }

  lemma RepeatsLeaves(s: State, c: Call, t: State, a: Answer)
    ensures Repeats(s, c, t, a) ==> Leaves(s, t) && a.Settled?
  {
  }

  lemma SettlesReports(s: State, c: Call, t: State, a: Answer)
    ensures Settles(s, c, t, a) ==> c.Report? && a.Settled? && a.outcome.status == Recorded
    ensures Creates(s, c, t, a) ==> c.Create? && a.Decided?
  {
  }

  /** A create that does not decide leaves no slot, row, charge or event behind. */
  lemma FailedCreateLeavesNothing(s: State, c: Call)
    requires c.Create? && Apply(s, c).1.Refused? && FreshId(s, c)
    ensures Leaves(s, Apply(s, c).0)
    ensures forall o :: Held(Apply(s, c).0.slots, o) == Held(s.slots, o)
  {
    var (t, a) := Apply(s, c);
    CallEffect(s, c, t, a);
  }

  // ----- consistency of every reachable state

  /** What a create writes, apart from quotas. */
  lemma CreateWrites(s: State, c: Call, t: State, a: Answer)
    requires Creates(s, c, t, a)
    ensures c.Create?
    ensures t == State(t.rpm, AddSlot(s.slots, c.p.Key(), c.id), s.spend,
                       s.decisions[c.id := NewRecord(c.p, c.request, c.key, a.response)],
                       Indexed(s.index, c.p.agentId, c.key, c.id), s.attemptRows, s.events)
    ensures a.response.decisionId == c.id
    ensures c.id !in s.decisions && (c.key.Some? ==> IdempotencyKey(c.p.agentId, c.key.value) !in s.index)
  {
    hide Held, WithinDailyBudget, CountHit, AddSlot, Lookup, Indexed, NewRecord;
  }

  /** What a settlement writes, apart from the rate counter. */
  lemma SettleWrites(s: State, c: Call, t: State, a: Answer)
    requires Settles(s, c, t, a)
    ensures c.Report? && c.outcome.decisionId in s.decisions
    ensures var d := c.outcome.decisionId;
            t == State(t.rpm, DropSlot(s.slots, c.p.Key(), d),
                       AddSpend(s.spend, DayKey(c.p.Key(), c.clock.day), c.outcome.finalCostUsd),
                       s.decisions[d := CompletedRecord(s.decisions[d], c.outcome, c.key)], s.index,
                       s.attemptRows[d := c.outcome.attempts], s.events + [EventOf(c.p, c.outcome)])
  {
    hide CountHit, DropSlot, AddSpend, CompletedRecord, EventOf, RecordedResponse;
  }

  lemma CreateKeepsIndex(s: State, c: Call, t: State, a: Answer)
    requires IndexConsistent(s) && Creates(s, c, t, a)
    ensures IndexConsistent(t)
  {
    hide Creates, AddSlot;
    CreateWrites(s, c, t, a);
    forall k | k in t.index
      ensures t.index[k] in t.decisions && t.decisions[t.index[k]].agentId == k.agentId
              && t.decisions[t.index[k]].idempotencyKey == Some(k.key)
    {
    }
  }

  lemma CreateKeepsRecords(s: State, c: Call, t: State, a: Answer)
    requires RecordsConsistent(s) && Creates(s, c, t, a)
    ensures RecordsConsistent(t)
  {
    hide Creates, Indexed, AddSlot;
    CreateWrites(s, c, t, a);
  }

  lemma CreateMatches(s: State, c: Call, t: State, a: Answer, e: OutcomeEvent)
    requires Creates(s, c, t, a)
    ensures EventMatches(s, e) ==> EventMatches(t, e)
    ensures t.events == s.events
    ensures forall d :: d in t.decisions && t.decisions[d].status == Completed ==>
            d in s.decisions && s.decisions[d].status == Completed
  {
    hide Creates, Indexed, AddSlot;
    CreateWrites(s, c, t, a);
  }

  lemma CreateKeepsEvents(s: State, c: Call, t: State, a: Answer)
    requires EventsConsistent(s) && Creates(s, c, t, a)
    ensures EventsConsistent(t)
  {
    hide Creates, EventMatches;
    CreateMatches(s, c, t, a, EventOf(c.p, Outcome("", "", "", Failed, [], None, 0, 0, 0.0)));
    forall e {
      CreateMatches(s, c, t, a, e);
    }
  }

  lemma CreateKeepsConsistency(s: State, c: Call, t: State, a: Answer)
    requires Consistent(s) && Creates(s, c, t, a)
    ensures Consistent(t)
  {
    hide IndexConsistent, RecordsConsistent, EventsConsistent, Creates;
    CreateKeepsIndex(s, c, t, a);
    CreateKeepsRecords(s, c, t, a);
    CreateKeepsEvents(s, c, t, a);
  }

  lemma SettleKeepsIndex(s: State, c: Call, t: State, a: Answer)
    requires IndexConsistent(s) && Settles(s, c, t, a)
    ensures IndexConsistent(t)
  {
    hide Settles, DropSlot, AddSpend, EventOf, RecordedResponse;
    SettleWrites(s, c, t, a);
  }

  lemma SettleKeepsRecords(s: State, c: Call, t: State, a: Answer)
    requires RecordsConsistent(s) && Settles(s, c, t, a)
    ensures RecordsConsistent(t)
  {
    hide Settles, DropSlot, AddSpend, EventOf;
    SettleWrites(s, c, t, a);
  }

  lemma SettleMatches(s: State, c: Call, t: State, a: Answer)
    requires Settles(s, c, t, a)
    ensures EventMatches(t, EventOf(c.p, c.outcome))
    ensures forall e :: EventMatches(s, e) ==> EventMatches(t, e) && e.decisionId != c.outcome.decisionId
  {
    SettleWrites(s, c, t, a);
    assert s.decisions[c.outcome.decisionId].outcome.None? && c.outcome.decisionId in s.decisions;
    assert s.decisions[c.outcome.decisionId].agentId == c.p.agentId;
    assert s.decisions[c.outcome.decisionId].request.requestId == c.outcome.requestId;
    hide Settles, AddSpend, DropSlot;
  }

  lemma SettleKeepsEvents(s: State, c: Call, t: State, a: Answer)
    requires EventsConsistent(s) && Settles(s, c, t, a)
    ensures EventsConsistent(t)
  {
    hide Settles, EventMatches, AddSpend, DropSlot;
    SettleWrites(s, c, t, a);
    SettleMatches(s, c, t, a);
    var id, n := c.outcome.decisionId, |s.events|;
    assert t.events[n].decisionId == id;
    forall i | 0 <= i < n
      ensures t.events[i] == s.events[i] && EventMatches(t, t.events[i]) && t.events[i].decisionId != id
    {
      assert EventMatches(s, s.events[i]);
    }
    forall d | d in t.decisions && t.decisions[d].status == Completed
      ensures exists i :: 0 <= i < |t.events| && t.events[i].decisionId == d
    {
      if d != id {
        var i :| 0 <= i < n && s.events[i].decisionId == d;
        assert t.events[i].decisionId == d;
      }
    }
  }

  lemma SettleKeepsConsistency(s: State, c: Call, t: State, a: Answer)
    requires Consistent(s) && Settles(s, c, t, a)
    ensures Consistent(t)
  {
    hide IndexConsistent, RecordsConsistent, EventsConsistent, Settles;
    SettleKeepsIndex(s, c, t, a);
    SettleKeepsRecords(s, c, t, a);
    SettleKeepsEvents(s, c, t, a);
  }

  lemma LeaveKeepsConsistency(s: State, t: State)
    requires Consistent(s) && Leaves(s, t)
    ensures Consistent(t)
  {
    assert forall i :: 0 <= i < |s.events| ==> EventMatches(s, s.events[i]) && EventMatches(t, t.events[i]);
  }

  lemma {:induction false} ReachableConsistent(calls: seq<Call>)
    ensures Consistent(Exec(calls))
  {
    if calls != [] {
      var front, c := calls[..|calls| - 1], calls[|calls| - 1];
      ReachableConsistent(front);
      var s := Exec(front);
      var (t, a) := Apply(s, c);
      CallEffect(s, c, t, a);
      hide Apply, Consistent, Creates, Settles, Leaves;
      if Creates(s, c, t, a) {
        CreateKeepsConsistency(s, c, t, a);
      } else if Settles(s, c, t, a) {
        SettleKeepsConsistency(s, c, t, a);
      } else {
        LeaveKeepsConsistency(s, t);
      }
    }
  }

  /** Over any run there is at most one decision per agent and key, the empty key included. */
  lemma OneDecisionPerKey(calls: seq<Call>, d: Id, e: Id)
    requires d in Exec(calls).decisions && e in Exec(calls).decisions
    requires Exec(calls).decisions[d].agentId == Exec(calls).decisions[e].agentId
    requires Exec(calls).decisions[d].idempotencyKey == Exec(calls).decisions[e].idempotencyKey != None
    ensures d == e
  {
    ReachableConsistent(calls);
  }

  // ----- what later calls cannot change

  /** Stored decisions keep their identity, and settled ones their outcome and attempts. */
  ghost predicate Extends(s: State, t: State) {
    && (forall d :: d in s.decisions ==>
          && d in t.decisions
          && t.decisions[d].response == s.decisions[d].response
          && t.decisions[d].agentId == s.decisions[d].agentId
          && t.decisions[d].environment == s.decisions[d].environment
          && t.decisions[d].idempotencyKey == s.decisions[d].idempotencyKey
          && t.decisions[d].request == s.decisions[d].request)
    && (forall d :: d in s.decisions && s.decisions[d].outcome.Some? ==>
          && t.decisions[d] == s.decisions[d]
          && (d in s.attemptRows ==> d in t.attemptRows && t.attemptRows[d] == s.attemptRows[d]))
    && (forall k :: k in s.index ==> k in t.index && t.index[k] == s.index[k])
    && s.events <= t.events
  }

  lemma CreateExtends(s: State, c: Call, t: State, a: Answer)
    requires Creates(s, c, t, a)
    ensures Extends(s, t)
  {
    hide Creates, AddSlot, NewRecord;
    CreateWrites(s, c, t, a);
  }

  lemma SettleExtends(s: State, c: Call, t: State, a: Answer)
    requires Settles(s, c, t, a)
    ensures Extends(s, t)
  {
    SettleWrites(s, c, t, a);
    assert c.outcome.decisionId in s.decisions && s.decisions[c.outcome.decisionId].outcome.None?;
    hide Settles, DropSlot, AddSpend, EventOf, RecordedResponse;
  }

  lemma ApplyExtends(s: State, c: Call)
    ensures Extends(s, Apply(s, c).0)
  {
    var (t, a) := Apply(s, c);
    CallEffect(s, c, t, a);
    hide Apply, Creates, Settles, SameSlots, FreshId, Repeats;
    if Creates(s, c, t, a) {
      CreateExtends(s, c, t, a);
    } else if Settles(s, c, t, a) {
      SettleExtends(s, c, t, a);
    }
  }

  lemma {:induction false} LaterExtends(calls: seq<Call>, i: nat)
    requires i <= |calls|
    ensures Extends(Exec(calls[..i]), Exec(calls))
  {
    if i == |calls| {
      assert calls[..i] == calls;
    } else {
      var front := calls[..|calls| - 1];
      assert front[..i] == calls[..i];
      LaterExtends(front, i);
      ApplyExtends(Exec(front), calls[|calls| - 1]);
    }
  }

  /** The key leads to a stored decision with this response. */
  ghost predicate Answers(s: State, k: IdempotencyKey, r: Response) {
    k in s.index && s.index[k] in s.decisions && s.decisions[s.index[k]].response == r
  }

  lemma DecidedAnswers(s: State, c: Call, t: State, a: Answer)
    requires Apply(s, c) == (t, a) && c.Create? && a.Decided? && c.key.Some?
    ensures Answers(t, IdempotencyKey(c.p.agentId, c.key.value), a.response)
  {
    hide Reserved, WithinDailyBudget, RpmAllows, CountHit;
    if Lookup(s.decisions, s.index, c.p.agentId, c.key).None? {
      CallEffect(s, c, t, a);
      if Creates(s, c, t, a) {
        CreateWrites(s, c, t, a);
      } else {
        ReservedEffect(Counted(s, c.p, c.clock), c.p, c.request, c.key, c.id, c.routing);
        assert false;
      }
    }
  }

  lemma AnswersLater(s: State, t: State, k: IdempotencyKey, r: Response)
    requires Answers(s, k, r) && Extends(s, t)
    ensures Answers(t, k, r)
  {
  }

  lemma AnsweredAtOnce(s: State, c: Call, r: Response)
    requires c.Create? && c.p.agentId == c.request.agentId && c.key.Some? && c.key.value != ""
    requires Answers(s, IdempotencyKey(c.p.agentId, c.key.value), r)
    ensures Apply(s, c) == (s, Decided(r))
  {
    hide Reserved, WithinDailyBudget, RpmAllows, CountHit;
  }

  lemma EmptyKeyConflicts(s: State, c: Call, r: Response)
    requires c.Create? && c.key == Some("") && Answers(s, IdempotencyKey(c.p.agentId, ""), r)
    ensures Apply(s, c).1.Refused?
  {
    hide Reserved, WithinDailyBudget, RpmAllows, CountHit;
    if c.routing.Routed? {
      ReservedEffect(Counted(s, c.p, c.clock), c.p, c.request, c.key, c.id, c.routing);
    }
  }

  lemma ExecStep(calls: seq<Call>, i: nat)
    requires i < |calls|
    ensures Exec(calls[..i + 1]) == Apply(Exec(calls[..i]), calls[i]).0
  {
    hide Apply;
    assert calls[..i + 1][..i] == calls[..i];
  }

  /** Once a call with a non-empty key has been decided, every later call of that agent with that key, whatever
      else it carries, gets the same response and changes nothing, quotas included. */
  lemma IdempotentReplay(calls: seq<Call>, i: nat, j: nat)
    requires i < j < |calls| && calls[i].Create? && calls[j].Create?
    requires AnswerAt(calls, i).Decided?
    requires calls[j].p.agentId == calls[j].request.agentId == calls[i].p.agentId
    requires calls[j].key == calls[i].key && calls[i].key.Some? && calls[i].key.value != ""
    ensures AnswerAt(calls, j) == AnswerAt(calls, i)
    ensures Exec(calls[..j + 1]) == Exec(calls[..j])
  {
    hide Apply, Exec, Answers, Extends;
    var s, c := Exec(calls[..i]), calls[i];
    var (t, a) := Apply(s, c);
    var k := IdempotencyKey(c.p.agentId, c.key.value);
    DecidedAnswers(s, c, t, a);
    ExecStep(calls, i);
    assert calls[..j][..i + 1] == calls[..i + 1];
    LaterExtends(calls[..j], i + 1);
    AnswersLater(t, Exec(calls[..j]), k, a.response);
    AnsweredAtOnce(Exec(calls[..j]), calls[j], a.response);
    ExecStep(calls, j);
  }

  /** With the empty key there is no replay: it is never looked up but still unique, so once a call with it has been
      decided, every later call of that agent with it is refused. Replay thus needs, and only needs, a non-empty key. */
  lemma EmptyKeyNeverReplays(calls: seq<Call>, i: nat, j: nat)
    requires i < j < |calls| && calls[i].Create? && calls[j].Create?
    requires AnswerAt(calls, i).Decided?
    requires calls[j].p.agentId == calls[i].p.agentId && calls[i].key == calls[j].key == Some("")
    ensures AnswerAt(calls, j).Refused?
  {
    hide Apply, Exec, Answers, Extends;
    var s, c := Exec(calls[..i]), calls[i];
    var (t, a) := Apply(s, c);
    var k := IdempotencyKey(c.p.agentId, "");
    DecidedAnswers(s, c, t, a);
    ExecStep(calls, i);
    assert calls[..j][..i + 1] == calls[..i + 1];
    LaterExtends(calls[..j], i + 1);
    AnswersLater(t, Exec(calls[..j]), k, a.response);
    EmptyKeyConflicts(Exec(calls[..j]), calls[j], a.response);
  }

  /** The decision is settled, for this agent and request, with this outcome, and its attempt rows are these. */
  ghost predicate SettledWith(s: State, d: Id, agentId: string, requestId: string, r: OutcomeResponse,
                              rows: seq<Attempt>) {
    && d in s.decisions && s.decisions[d].outcome == Some(r)
    && s.decisions[d].agentId == agentId && s.decisions[d].request.requestId == requestId
    && d in s.attemptRows && s.attemptRows[d] == rows
  }

  lemma RecordedSettles(s: State, c: Call, t: State, a: Answer)
    requires Apply(s, c) == (t, a) && c.Report? && a.Settled? && a.outcome.status == Recorded
    ensures var o := c.outcome;
            a.outcome == OutcomeResponse(o.decisionId, Recorded, o.finalStatus, |o.attempts|, o.fallbackDepth)
    ensures SettledWith(t, c.outcome.decisionId, c.p.agentId, c.outcome.requestId, a.outcome, c.outcome.attempts)
  {
    hide Apply, SameSlots, Creates, EventOf, AddSpend, DropSlot, CountHit, FreshId, Leaves;
    CallEffect(s, c, t, a);
    SettledApart(s, c, t, a);
    SettleWrites(s, c, t, a);
  }

  lemma SettledApart(s: State, c: Call, t: State, a: Answer)
    requires a.Settled? && a.outcome.status == Recorded
    ensures !Repeats(s, c, t, a)
  {
  }

  lemma SettledLater(s: State, t: State, d: Id, agentId: string, requestId: string, r: OutcomeResponse,
                     rows: seq<Attempt>)
    requires SettledWith(s, d, agentId, requestId, r, rows) && Extends(s, t)
    ensures SettledWith(t, d, agentId, requestId, r, rows)
  {
  }

  /** The report is made by this agent, in its own name, for this request, and within its rate. */
  predicate PassesGuards(s: State, c: Call, agentId: string, requestId: string)
    requires c.Report?
  {
    && c.p.agentId == c.outcome.agentId && c.p.agentId == agentId && c.outcome.requestId == requestId
    && RpmAllows(s, c.p, c.clock)
  }

  lemma SettledRepeats(s: State, c: Call, agentId: string, requestId: string, r: OutcomeResponse, rows: seq<Attempt>)
    requires c.Report? && SettledWith(s, c.outcome.decisionId, agentId, requestId, r, rows)
    ensures if PassesGuards(s, c, agentId, requestId) then Apply(s, c).1 == Settled(DuplicateOf(r))
            else Apply(s, c).1.Refused?
  {
    hide RpmAllows, CountHit;
  }

  /** The answer to a recorded report names its decision and repeats its status, the number of its attempts and its
      fallback depth. A later report on the decision is answered with the same four fields, the first report's, as a
      duplicate exactly if it comes from the same agent for the same request within the rate, and is refused otherwise;
      the attempt rows stay the first report's. */
  lemma RecordedOnce(calls: seq<Call>, i: nat, j: nat)
    requires i < j < |calls| && calls[i].Report? && calls[j].Report?
    requires calls[i].outcome.decisionId == calls[j].outcome.decisionId
    requires AnswerAt(calls, i).Settled? && AnswerAt(calls, i).outcome.status == Recorded
    ensures if PassesGuards(Exec(calls[..j]), calls[j], calls[i].p.agentId, calls[i].outcome.requestId)
            then var o := calls[i].outcome;
                 AnswerAt(calls, j) == Settled(OutcomeResponse(o.decisionId, Duplicate, o.finalStatus, |o.attempts|,
                                                               o.fallbackDepth))
            else AnswerAt(calls, j).Refused?
    ensures var o := calls[i].outcome;
            AnswerAt(calls, i)
            == Settled(OutcomeResponse(o.decisionId, Recorded, o.finalStatus, |o.attempts|, o.fallbackDepth))
    ensures var d := calls[i].outcome.decisionId;
            d in Exec(calls).attemptRows && Exec(calls).attemptRows[d] == calls[i].outcome.attempts
  {
    hide Apply, Exec, Extends, PassesGuards;
    var s, c := Exec(calls[..i]), calls[i];
    var (t, a) := Apply(s, c);
    var d, agent, request, rows := c.outcome.decisionId, c.p.agentId, c.outcome.requestId, c.outcome.attempts;
    RecordedSettles(s, c, t, a);
    ExecStep(calls, i);
    LaterExtends(calls, i + 1);
    SettledLater(t, Exec(calls), d, agent, request, a.outcome, rows);
    assert calls[..j][..i + 1] == calls[..i + 1];
    LaterExtends(calls[..j], i + 1);
    SettledLater(t, Exec(calls[..j]), d, agent, request, a.outcome, rows);
    SettledRepeats(Exec(calls[..j]), calls[j], agent, request, a.outcome, rows);
  }

  lemma CompletedBy(s: State, c: Call, d: Id)
    requires d in Apply(s, c).0.decisions && Apply(s, c).0.decisions[d].outcome.Some?
    requires !(d in s.decisions && s.decisions[d].outcome.Some?)
    ensures c.Report? && c.outcome.decisionId == d && Apply(s, c).1 == Settled(Apply(s, c).0.decisions[d].outcome.value)
    ensures Apply(s, c).0.decisions[d].outcome.value.status == Recorded
  {
    var (t, a) := Apply(s, c);
    CallEffect(s, c, t, a);
    SettlesReports(s, c, t, a);
    hide Apply, SameSlots, Repeats, FreshId;
    if Creates(s, c, t, a) {
      CreateWrites(s, c, t, a);
      hide Creates, Settles, Leaves;
    } else if Settles(s, c, t, a) {
      assert a == Settled(RecordedResponse(c.outcome));
      SettleWrites(s, c, t, a);
      hide Creates, Settles, Leaves, DropSlot, AddSpend, EventOf;
    }
  }

  /** A decision has an outcome only because some report before was answered "recorded" with it, so "recorded" comes
      first. */
  lemma {:induction false} OutcomeWasRecorded(calls: seq<Call>, d: Id) returns (i: nat)
    requires d in Exec(calls).decisions && Exec(calls).decisions[d].outcome.Some?
    ensures i < |calls| && calls[i].Report? && calls[i].outcome.decisionId == d
    ensures AnswerAt(calls, i) == Settled(Exec(calls).decisions[d].outcome.value)
    ensures Exec(calls).decisions[d].outcome.value.status == Recorded
  {
    hide Apply;
    var n := |calls| - 1;
    var front, c := calls[..n], calls[n];
    var s := Exec(front);
    if d in s.decisions && s.decisions[d].outcome.Some? {
      ApplyExtends(s, c);
      i := OutcomeWasRecorded(front, d);
      assert front[..i] == calls[..i];
    } else {
      CompletedBy(s, c, d);
      i := n;
    }
  }

  // ----- conservation of spend

  ghost function EventTotal(events: seq<OutcomeEvent>, agentId: string): real {
    if events == [] then 0.0
    else
      var e := events[|events| - 1];
      EventTotal(events[..|events| - 1], agentId) + (if e.agentId == agentId then e.finalCostUsd else 0.0)
  }

  /** The agent's daily counters. */
  ghost function SpendOf(s: State, agentId: string): map<DayKey, real> { SpendIn(s.spend, agentId) }

  /** What the recorded reports of a run charge to one daily counter. */
  ghost function Charged(calls: seq<Call>, k: DayKey): real {
    if calls == [] then 0.0
    else
      var n := |calls| - 1;
      var (c, a) := (calls[n], AnswerAt(calls, n));
      Charged(calls[..n], k)
      + (if c.Report? && a.Settled? && a.outcome.status == Recorded && DayKey(c.p.Key(), c.clock.day) == k then
           c.outcome.finalCostUsd
         else 0.0)
  }

  /** Each daily counter is the sum of the costs of the reports recorded on that day, each counted once. */
  lemma {:induction false} DailyLedger(calls: seq<Call>, k: DayKey)
    ensures Spent(Exec(calls).spend, k) == Charged(calls, k)
  {
    if calls != [] {
      var n := |calls| - 1;
      DailyLedger(calls[..n], k);
      var s, c := Exec(calls[..n]), calls[n];
      var (t, a) := Apply(s, c);
      ReachableConsistent(calls[..n]);
      OutcomeStaysRecorded(calls[..n]);
      CallEffect(s, c, t, a);
    }
  }

  lemma OutcomeStaysRecorded(calls: seq<Call>)
    ensures forall d :: d in Exec(calls).decisions && Exec(calls).decisions[d].outcome.Some? ==>
      Exec(calls).decisions[d].outcome.value.status == Recorded
  {
    forall d | d in Exec(calls).decisions && Exec(calls).decisions[d].outcome.Some?
      ensures Exec(calls).decisions[d].outcome.value.status == Recorded
    {
      var _ := OutcomeWasRecorded(calls, d);
    }
  }

  /** Over any run an agent's spend over all days is the sum over its published events; these are its completed
      decisions, each exactly once (see EventsConsistent). */
  lemma {:induction false} SpendConserved(calls: seq<Call>, agentId: string)
    ensures Sum(SpendOf(Exec(calls), agentId)) == EventTotal(Exec(calls).events, agentId)
    ensures EventsConsistent(Exec(calls))
  {
    ReachableConsistent(calls);
    if calls == [] {
      assert SpendOf(EMPTY, agentId) == map[];
    } else {
      var front, c := calls[..|calls| - 1], calls[|calls| - 1];
      SpendConserved(front, agentId);
      var s := Exec(front);
      var (t, a) := Apply(s, c);
      CallEffect(s, c, t, a);
      if Settles(s, c, t, a) {
        SettleConserves(s, c, t, a, agentId);
      } else {
        assert SpendOf(t, agentId) == SpendOf(s, agentId);
      }
    }
  }

  lemma SettleConserves(s: State, c: Call, t: State, a: Answer, agentId: string)
    requires Settles(s, c, t, a)
    requires Sum(SpendOf(s, agentId)) == EventTotal(s.events, agentId)
    ensures Sum(SpendOf(t, agentId)) == EventTotal(t.events, agentId)
  {
    SettleWrites(s, c, t, a);
    hide Settles, DropSlot, CompletedRecord;
    var k, amount := DayKey(c.p.Key(), c.clock.day), c.outcome.finalCostUsd;
    assert t.events[..|s.events|] == s.events;
    SpendAfter(s.spend, k, amount, agentId);
    hide AddSpend, Sum;
  }

  ghost function SpendIn(spend: map<DayKey, real>, agentId: string): map<DayKey, real> {
    map k | k in spend && k.owner.agentId == agentId :: spend[k]
  }

  lemma SpendAfter(spend: map<DayKey, real>, k: DayKey, amount: real, agentId: string)
    ensures Sum(SpendIn(AddSpend(spend, k, amount), agentId)) ==
            Sum(SpendIn(spend, agentId)) + (if k.owner.agentId == agentId then amount else 0.0)
  {
    var before, after := SpendIn(spend, agentId), SpendIn(AddSpend(spend, k, amount), agentId);
    if k.owner.agentId == agentId {
      assert after == before[k := Spent(spend, k) + amount];
      SumUpdate(before, k, Spent(spend, k) + amount);
    } else {
      assert after == before;
    }
  }
}
