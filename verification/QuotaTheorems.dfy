/** The quota guarantees of one agent over whole runs of atomic calls. */
module QuotaTheorems {
  import opened Wrappers
  import opened Schemas
  import opened Protocol
  import opened Sums
  import opened AtomicRuns

  // ----- runs

  ghost predicate GoodCall(s: State, c: Call) {
    && FreshId(s, c) && c.p.Valid()
    && (c.Create? ==> c.request.Valid())
    && (c.Report? ==> c.outcome.Valid())
  }

  /** Fresh ids, valid inputs, and a calendar that never goes back. */
  ghost predicate Run(calls: seq<Call>) {
    calls == [] ||
    var front := calls[..|calls| - 1];
    && Run(front)
    && GoodCall(Exec(front), calls[|calls| - 1])
    && (front != [] ==> front[|front| - 1].clock.day <= calls[|calls| - 1].clock.day)
  }

  /** The agent has one credential: one environment and fixed limits. */
  ghost predicate OneCredential(p: Principal, calls: seq<Call>) {
    forall c :: c in calls && c.p.agentId == p.agentId ==> c.p == p
  }

  /** Every report of the agent costs at most the budget limit its decision was requested with, give or take `slack`. */
  ghost predicate Frugal(p: Principal, calls: seq<Call>, slack: real) {
    forall i :: 0 <= i < |calls| ==> FrugalCall(p, Exec(calls[..i]), calls[i], slack)
  }

  ghost predicate FrugalCall(p: Principal, s: State, c: Call, slack: real) {
    c.Report? && c.p == p && c.outcome.decisionId in s.decisions
      && s.decisions[c.outcome.decisionId].agentId == p.agentId ==>
      c.outcome.finalCostUsd <= s.decisions[c.outcome.decisionId].request.budgetLimitUsd + slack
  }

  /** The same in general. Of each decision `reserve` of its limit is set aside: no report of the agent costs more, and
      what the budget check lets through fits, reserve and all, into `most`. */
  ghost predicate Covered(p: Principal, calls: seq<Call>, reserve: real -> real, most: real) {
    forall i :: 0 <= i < |calls| ==> CoveredCall(p, Exec(calls[..i]), calls[i], reserve, most)
  }

  ghost predicate CoveredCall(p: Principal, s: State, c: Call, reserve: real -> real, most: real) {
    && (c.Report? && c.p == p && c.outcome.decisionId in s.decisions
        && s.decisions[c.outcome.decisionId].agentId == p.agentId ==>
          c.outcome.finalCostUsd <= reserve(s.decisions[c.outcome.decisionId].request.budgetLimitUsd))
    && (c.Create? && c.p == p && WithinDailyBudget(s, p, c.request, c.clock.day) ==>
          0.0 <= reserve(c.request.budgetLimitUsd) <= most - SpentOn(p, s, c.clock.day))
  }

  function SpentOn(p: Principal, s: State, day: int): real { Spent(s.spend, DayKey(p.Key(), day)) }

  lemma CoveredFront(p: Principal, calls: seq<Call>, reserve: real -> real, most: real)
    requires Covered(p, calls, reserve, most) && calls != []
    ensures Covered(p, calls[..|calls| - 1], reserve, most)
    ensures CoveredCall(p, Exec(calls[..|calls| - 1]), calls[|calls| - 1], reserve, most)
  {
    hide Exec, CoveredCall;
    var front := calls[..|calls| - 1];
    forall i | 0 <= i < |front|
      ensures CoveredCall(p, Exec(front[..i]), front[i], reserve, most)
    {
      assert front[..i] == calls[..i];
    }
  }

  // ----- slots

  predicate IsOpen(s: State, agentId: string, d: Id) {
    d in s.decisions && s.decisions[d].agentId == agentId && s.decisions[d].status == Open
  }

  function OpenIds(s: State, agentId: string): set<Id> {
    set d | d in s.decisions && IsOpen(s, agentId, d)
  }

  /** The agent's slots are its open decisions, never more than its limit. */
  ghost predicate SlotsExact(p: Principal, s: State) {
    && Held(s.slots, p.Key()) == OpenIds(s, p.agentId)
    && |OpenIds(s, p.agentId)| <= p.concurrentLimit
  }

  lemma CreateOpensAt(p: Principal, s: State, c: Call, t: State, a: Answer, d: Id)
    requires Creates(s, c, t, a)
    ensures c.Create?
    ensures IsOpen(t, p.agentId, d) <==> if d == c.id then c.p.agentId == p.agentId else IsOpen(s, p.agentId, d)
    ensures !IsOpen(s, p.agentId, c.id)
  {
    hide Creates, AddSlot, Indexed;
    CreateWrites(s, c, t, a);
  }

  lemma CreateOpens(p: Principal, s: State, c: Call, t: State, a: Answer)
    requires Creates(s, c, t, a)
    ensures c.Create?
    ensures OpenIds(t, p.agentId) == if c.p.agentId == p.agentId then OpenIds(s, p.agentId) + {c.id}
                                     else OpenIds(s, p.agentId)
    ensures c.id !in OpenIds(s, p.agentId)
  {
    hide Creates, IsOpen, OpenIds;
    CreateOpensAt(p, s, c, t, a, "");
    forall d {
      CreateOpensAt(p, s, c, t, a, d);
    }
    OpenIdsHold(s, p.agentId);
    OpenIdsHold(t, p.agentId);
  }

  lemma OpenIdsHold(s: State, agentId: string)
    ensures forall d :: d in OpenIds(s, agentId) <==> IsOpen(s, agentId, d)
    ensures OpenIds(s, agentId) <= s.decisions.Keys
  {
  }

  lemma SettleClosesAt(p: Principal, s: State, c: Call, t: State, a: Answer, d: Id)
    requires Settles(s, c, t, a) && RecordsConsistent(s)
    ensures c.Report?
    ensures IsOpen(t, p.agentId, d) <==> d != c.outcome.decisionId && IsOpen(s, p.agentId, d)
    ensures IsOpen(s, p.agentId, c.outcome.decisionId) <==> c.p.agentId == p.agentId
  {
    hide CountHit, DropSlot, AddSpend, EventOf;
  }

  lemma SettleCloses(p: Principal, s: State, c: Call, t: State, a: Answer)
    requires Settles(s, c, t, a) && RecordsConsistent(s)
    ensures c.Report?
    ensures OpenIds(t, p.agentId) == OpenIds(s, p.agentId) - {c.outcome.decisionId}
    ensures c.outcome.decisionId in OpenIds(s, p.agentId) <==> c.p.agentId == p.agentId
  {
    hide Settles, RecordsConsistent, IsOpen, OpenIds;
    SettleClosesAt(p, s, c, t, a, "");
    forall d {
      SettleClosesAt(p, s, c, t, a, d);
    }
    OpenIdsHold(s, p.agentId);
    OpenIdsHold(t, p.agentId);
  }

  lemma CreateHolds(s: State, c: Call, t: State, a: Answer, o: Owner)
    requires Creates(s, c, t, a)
    ensures c.Create? && |Held(s.slots, c.p.Key()) + {c.id}| <= c.p.concurrentLimit
    ensures Held(t.slots, o) == if o == c.p.Key() then Held(s.slots, o) + {c.id} else Held(s.slots, o)
  {
    hide Lookup, Insertable, WithinDailyBudget, CountHit, Indexed, NewRecord;
  }

  lemma SettleReleases(s: State, c: Call, t: State, a: Answer, o: Owner)
    requires Settles(s, c, t, a)
    ensures c.Report?
    ensures Held(t.slots, o) == if o == c.p.Key() then Held(s.slots, o) - {c.outcome.decisionId} else Held(s.slots, o)
  {
    hide CountHit, CompletedRecord, EventOf, RecordedResponse, AddSpend;
  }

  lemma SlotCreate(p: Principal, s: State, c: Call, t: State, a: Answer)
    requires SlotsExact(p, s) && Creates(s, c, t, a) && (c.p.agentId == p.agentId ==> c.p == p)
    ensures SlotsExact(p, t)
  {
    hide Creates, Held, OpenIds;
    CreateHolds(s, c, t, a, p.Key());
    CreateOpens(p, s, c, t, a);
  }

  lemma SlotSettle(p: Principal, s: State, c: Call, t: State, a: Answer)
    requires SlotsExact(p, s) && RecordsConsistent(s) && Settles(s, c, t, a) && (c.p.agentId == p.agentId ==> c.p == p)
    ensures SlotsExact(p, t)
  {
    hide Settles, RecordsConsistent, Held, OpenIds;
    SettleReleases(s, c, t, a, p.Key());
    SettleCloses(p, s, c, t, a);
    var before, after := OpenIds(s, p.agentId), OpenIds(t, p.agentId);
    SubsetSmaller(after, before);
    if c.p.agentId != p.agentId {
      assert after == before;
    }
  }

  lemma SlotStep(p: Principal, s: State, c: Call, t: State, a: Answer)
    requires SlotsExact(p, s) && RecordsConsistent(s) && Apply(s, c) == (t, a) && FreshId(s, c)
    requires c.p.agentId == p.agentId ==> c.p == p
    ensures SlotsExact(p, t)
  {
    hide Apply, RecordsConsistent, Creates, Settles, Held, FreshId, IsOpen, SlotsExact;
    CallEffect(s, c, t, a);
    if Creates(s, c, t, a) {
      SlotCreate(p, s, c, t, a);
    } else if Settles(s, c, t, a) {
      SlotSettle(p, s, c, t, a);
    } else {
      SlotsAlone(p, s, t);
    }
  }

  lemma SlotsAlone(p: Principal, s: State, t: State)
    requires SlotsExact(p, s) && Leaves(s, t) && SameSlots(s, t)
    ensures SlotsExact(p, t)
  {
    hide Held;
    assert OpenIds(t, p.agentId) == OpenIds(s, p.agentId);
  }

  /** In every reachable state an agent's slots are exactly its open decisions, at most its limit. */
  lemma {:induction false} SlotAccounting(p: Principal, calls: seq<Call>)
    requires Run(calls) && OneCredential(p, calls) && p.Valid()
    ensures SlotsExact(p, Exec(calls))
  {
    if calls == [] {
      assert OpenIds(EMPTY, p.agentId) == {};
    } else {
      var front, c := calls[..|calls| - 1], calls[|calls| - 1];
      SlotAccounting(p, front);
      ReachableConsistent(front);
      var (t, a) := Apply(Exec(front), c);
      SlotStep(p, Exec(front), c, t, a);
    }
  }

  // ----- the daily spend bound

  /** What the agent's open decisions may still cost. */
  ghost function OpenLimits(s: State, agentId: string, reserve: real -> real): map<Id, real> {
    map d | d in OpenIds(s, agentId) :: reserve(s.decisions[d].request.budgetLimitUsd)
  }

  ghost function Cap(p: Principal, most: real): real
    requires p.Valid()
  {
    Times(p.concurrentLimit, most)
  }

  ghost predicate LimitsWithin(m: map<Id, real>, most: real) {
    forall d :: d in m ==> 0.0 <= m[d] <= most
  }

  ghost predicate SpendRange(p: Principal, s: State, today: int, most: real) {
    && (forall day :: 0.0 <= SpentOn(p, s, day) <= most)
    && (forall day :: day > today ==> SpentOn(p, s, day) == 0.0)
  }

  /** What is spent today or may still be spent stays within the cap; past days are within it for good,
      and nothing has been charged to days to come. */
  ghost predicate Ledger(p: Principal, s: State, today: int, reserve: real -> real, most: real)
    requires p.Valid()
  {
    && LimitsWithin(OpenLimits(s, p.agentId, reserve), most)
    && SpendRange(p, s, today, Cap(p, most))
    && SpentOn(p, s, today) + Sum(OpenLimits(s, p.agentId, reserve)) <= Cap(p, most)
  }

  lemma LimitsBounded(m: map<Id, real>, n: nat, most: real)
    requires LimitsWithin(m, most) && most >= 0.0 && |m| <= n
    ensures 0.0 <= Sum(m) <= Times(n, most)
  {
    SumNonNegative(m);
    SumAtMost(m, most);
    TimesMonotone(|m|, n, most);
  }

  lemma OpenLimitsSize(s: State, agentId: string, reserve: real -> real)
    ensures OpenLimits(s, agentId, reserve).Keys == OpenIds(s, agentId)
    ensures |OpenLimits(s, agentId, reserve)| == |OpenIds(s, agentId)|
  {
    hide OpenIds;
    assert OpenLimits(s, agentId, reserve).Keys == OpenIds(s, agentId);
  }

  /** A new day begins with nothing spent and at most one full budget per slot outstanding. */
  lemma NewDay(p: Principal, s: State, today: int, later: int, reserve: real -> real, most: real)
    requires p.Valid() && Ledger(p, s, today, reserve, most) && today <= later && most >= 0.0
    requires |OpenIds(s, p.agentId)| <= p.concurrentLimit
    ensures Ledger(p, s, later, reserve, most)
  {
    hide OpenLimits, OpenIds, SpentOn, LimitsWithin, Sum, Times;
    OpenLimitsSize(s, p.agentId, reserve);
    LimitsBounded(OpenLimits(s, p.agentId, reserve), p.concurrentLimit, most);
  }

  // What each kind of call does to the counters and to the open limits.

  lemma CountersAlone(p: Principal, s: State, c: Call, t: State, a: Answer)
    requires Leaves(s, t) || Creates(s, c, t, a) || (Settles(s, c, t, a) && c.p.agentId != p.agentId)
    ensures forall day :: SpentOn(p, t, day) == SpentOn(p, s, day)
  {
    hide Lookup, Insertable, WithinDailyBudget, CountHit, AddSlot, Held, Indexed, NewRecord, DropSlot, CompletedRecord,
      EventOf;
    assert Settles(s, c, t, a) || t.spend == s.spend;
  }

  lemma CounterCharged(p: Principal, s: State, c: Call, t: State, a: Answer)
    requires Settles(s, c, t, a) && c.p == p
    ensures forall day ::
            SpentOn(p, t, day) == SpentOn(p, s, day) + (if day == c.clock.day then c.outcome.finalCostUsd else 0.0)
  {
    hide CountHit, DropSlot, CompletedRecord, EventOf, RecordedResponse;
    assert t.spend == AddSpend(s.spend, DayKey(p.Key(), c.clock.day), c.outcome.finalCostUsd);
  }

  lemma RowOpened(s: State, c: Call, t: State, a: Answer, d: Id)
    requires Creates(s, c, t, a)
    ensures c.Create? && c.id in t.decisions && t.decisions[c.id].request == c.request
    ensures d in s.decisions ==> d in t.decisions && t.decisions[d] == s.decisions[d]
  {
    hide Creates, AddSlot, Indexed;
    CreateWrites(s, c, t, a);
  }

  lemma LimitOpened(p: Principal, s: State, c: Call, t: State, a: Answer, reserve: real -> real)
    requires Creates(s, c, t, a) && c.p == p
    ensures c.id !in OpenLimits(s, p.agentId, reserve)
    ensures OpenLimits(t, p.agentId, reserve)
            == OpenLimits(s, p.agentId, reserve)[c.id := reserve(c.request.budgetLimitUsd)]
  {
    hide Creates, OpenIds, IsOpen;
    CreateOpens(p, s, c, t, a);
    forall d {
      RowOpened(s, c, t, a, d);
    }
    RowOpened(s, c, t, a, c.id);
    OpenIdsHold(s, p.agentId);
  }

  lemma LimitClosed(p: Principal, s: State, c: Call, t: State, a: Answer, reserve: real -> real, most: real)
    requires Settles(s, c, t, a) && c.p == p && RecordsConsistent(s) && CoveredCall(p, s, c, reserve, most)
    ensures var d := c.outcome.decisionId;
            && d in OpenLimits(s, p.agentId, reserve)
            && OpenLimits(s, p.agentId, reserve)[d] >= c.outcome.finalCostUsd
            && OpenLimits(t, p.agentId, reserve) == OpenLimits(s, p.agentId, reserve) - {d}
  {
    SettleCloses(p, s, c, t, a);
    SettleWrites(s, c, t, a);
    assert s.decisions[c.outcome.decisionId].agentId == c.p.agentId;
    hide Settles, DropSlot, AddSpend, EventOf, OpenIds, RecordsConsistent, RecordedResponse;
  }

  /** Another agent's call, or one that changes nothing, leaves the agent's open decisions as they are. */
  ghost predicate SameOpen(p: Principal, s: State, t: State) {
    && OpenIds(t, p.agentId) == OpenIds(s, p.agentId)
    && forall d :: d in OpenIds(s, p.agentId) ==> t.decisions[d] == s.decisions[d]
  }

  lemma OthersCreate(p: Principal, s: State, c: Call, t: State, a: Answer)
    requires Creates(s, c, t, a) && c.p.agentId != p.agentId
    ensures SameOpen(p, s, t)
  {
    CreateOpens(p, s, c, t, a);
    CreateWrites(s, c, t, a);
    hide Creates, OpenIds, Indexed, AddSlot;
  }

  lemma OthersSettle(p: Principal, s: State, c: Call, t: State, a: Answer)
    requires Settles(s, c, t, a) && c.p.agentId != p.agentId && RecordsConsistent(s)
    ensures SameOpen(p, s, t)
  {
    SettleCloses(p, s, c, t, a);
    SettleWrites(s, c, t, a);
    hide Settles, OpenIds, RecordsConsistent, DropSlot, AddSpend, EventOf;
  }

  lemma LimitsAlone(p: Principal, s: State, c: Call, t: State, a: Answer, reserve: real -> real)
    requires RecordsConsistent(s)
    requires Leaves(s, t) || ((Creates(s, c, t, a) || Settles(s, c, t, a)) && c.p.agentId != p.agentId)
    ensures OpenLimits(t, p.agentId, reserve) == OpenLimits(s, p.agentId, reserve)
  {
    hide Creates, Settles, RecordsConsistent;
    assert SameOpen(p, s, t) by {
      if Leaves(s, t) {
        hide OpenIds;
      } else if Creates(s, c, t, a) {
        OthersCreate(p, s, c, t, a);
      } else if Settles(s, c, t, a) {
        OthersSettle(p, s, c, t, a);
      }
    }
    hide OpenIds, Leaves;
  }

  lemma CreateFits(p: Principal, s: State, c: Call, t: State, a: Answer)
    requires Creates(s, c, t, a) && c.p == p && SlotsExact(p, s) && FreshId(s, c)
    ensures WithinDailyBudget(s, p, c.request, c.clock.day)
    ensures |OpenIds(s, p.agentId)| + 1 <= p.concurrentLimit
  {
    hide Lookup, Insertable, CountHit, AddSlot, Held, Indexed, OpenIds, Spent, Stored;
    assert |OpenIds(s, p.agentId) + {c.id}| == |OpenIds(s, p.agentId)| + 1;
  }

  lemma CreateKeepsLedger(p: Principal, s: State, c: Call, t: State, a: Answer, reserve: real -> real, most: real)
    requires p.Valid() && Ledger(p, s, c.clock.day, reserve, most) && SlotsExact(p, s) && most >= 0.0
    requires Creates(s, c, t, a) && c.p == p && CoveredCall(p, s, c, reserve, most) && FreshId(s, c)
    ensures Ledger(p, t, c.clock.day, reserve, most)
  {
    SettlesReports(s, c, t, a);
    hide Creates, SlotsExact, OpenLimits, OpenIds, SpentOn, Sum, FreshId, WithinDailyBudget;
    var today, b := c.clock.day, reserve(c.request.budgetLimitUsd);
    var m, n := OpenLimits(s, p.agentId, reserve), p.concurrentLimit - 1;
    CountersAlone(p, s, c, t, a);
    LimitOpened(p, s, c, t, a, reserve);
    CreateFits(p, s, c, t, a);
    OpenLimitsSize(s, p.agentId, reserve);
    LimitsBounded(m, n, most);
    SumInsert(m, c.id, b);
    assert SpentOn(p, s, today) >= 0.0;
    assert Cap(p, most) == most + Times(n, most);
  }

  lemma SettleKeepsLedger(p: Principal, s: State, c: Call, t: State, a: Answer, reserve: real -> real, most: real)
    requires p.Valid() && Ledger(p, s, c.clock.day, reserve, most) && RecordsConsistent(s)
    requires Settles(s, c, t, a) && c.p == p && c.outcome.finalCostUsd >= 0.0 && CoveredCall(p, s, c, reserve, most)
    ensures Ledger(p, t, c.clock.day, reserve, most)
  {
    SettlesReports(s, c, t, a);
    hide Settles, OpenLimits, SpentOn, Sum, Cap, RecordsConsistent, CoveredCall;
    var d := c.outcome.decisionId;
    CounterCharged(p, s, c, t, a);
    LimitClosed(p, s, c, t, a, reserve, most);
    SumRemove(OpenLimits(s, p.agentId, reserve), d);
    SumNonNegative(OpenLimits(t, p.agentId, reserve));
  }

  lemma OtherKeepsLedger(p: Principal, s: State, c: Call, t: State, a: Answer, today: int, reserve: real -> real,
                         most: real)
    requires p.Valid() && Ledger(p, s, today, reserve, most) && RecordsConsistent(s)
    requires Leaves(s, t) || ((Creates(s, c, t, a) || Settles(s, c, t, a)) && c.p.agentId != p.agentId)
    ensures Ledger(p, t, today, reserve, most)
  {
    hide Creates, Settles, Leaves, OpenLimits, SpentOn, Sum, Cap, RecordsConsistent, LimitsWithin;
    LimitsAlone(p, s, c, t, a, reserve);
    CountersAlone(p, s, c, t, a);
  }

  lemma EmptyLedger(p: Principal, today: int, reserve: real -> real, most: real)
    requires p.Valid() && most >= 0.0
    ensures Ledger(p, EMPTY, today, reserve, most)
  {
    assert OpenLimits(EMPTY, p.agentId, reserve) == map[];
    TimesMonotone(0, p.concurrentLimit, most);
  }

  ghost function Today(calls: seq<Call>): int {
    if calls == [] then 0 else calls[|calls| - 1].clock.day
  }

  lemma {:induction false} LedgerKept(p: Principal, calls: seq<Call>, reserve: real -> real, most: real)
    requires Run(calls) && OneCredential(p, calls) && Covered(p, calls, reserve, most) && p.Valid() && most >= 0.0
    ensures Ledger(p, Exec(calls), Today(calls), reserve, most)
  {
    hide Apply, Ledger, CoveredCall, SlotsExact, IndexConsistent, RecordsConsistent, EventsConsistent;
    if calls == [] {
      EmptyLedger(p, 0, reserve, most);
    } else {
      var front, c := calls[..|calls| - 1], calls[|calls| - 1];
      CoveredFront(p, calls, reserve, most);
      LedgerKept(p, front, reserve, most);
      SlotAccounting(p, front);
      ReachableConsistent(front);
      assert c in calls;
      LedgerStep(p, front, c, reserve, most);
    }
  }

  lemma LedgerStep(p: Principal, front: seq<Call>, c: Call, reserve: real -> real, most: real)
    requires p.Valid() && most >= 0.0 && Ledger(p, Exec(front), Today(front), reserve, most)
    requires SlotsExact(p, Exec(front)) && RecordsConsistent(Exec(front))
    requires GoodCall(Exec(front), c) && CoveredCall(p, Exec(front), c, reserve, most)
    requires front != [] ==> Today(front) <= c.clock.day
    requires c.p.agentId == p.agentId ==> c.p == p
    ensures Ledger(p, Apply(Exec(front), c).0, c.clock.day, reserve, most)
  {
    hide Apply, Ledger, CoveredCall, RecordsConsistent, OpenIds, Creates, Settles, Leaves;
    var s := Exec(front);
    var (t, a) := Apply(s, c);
    if front == [] {
      EmptyLedger(p, c.clock.day, reserve, most);
    } else {
      NewDay(p, s, Today(front), c.clock.day, reserve, most);
    }
    hide Exec, Held;
    CallEffect(s, c, t, a);
    SettlesReports(s, c, t, a);
    if Creates(s, c, t, a) && c.p == p {
      CreateKeepsLedger(p, s, c, t, a, reserve, most);
    } else if Settles(s, c, t, a) && c.p == p {
      SettleKeepsLedger(p, s, c, t, a, reserve, most);
    } else {
      OtherKeepsLedger(p, s, c, t, a, c.clock.day, reserve, most);
    }
  }

  /** On no day can the agent spend more than `most` per slot. */
  lemma CoveredSpendBound(p: Principal, calls: seq<Call>, reserve: real -> real, most: real, day: int)
    requires Run(calls) && OneCredential(p, calls) && Covered(p, calls, reserve, most) && p.Valid() && most >= 0.0
    ensures SpentOn(p, Exec(calls), day) <= p.concurrentLimit as real * most
  {
    LedgerKept(p, calls, reserve, most);
    hide *;
    CapIsProduct(p, most);
    SpentWithinCap(p, Exec(calls), Today(calls), day, reserve, most);
  }

  function WithSlack(slack: real): real -> real { x => x + slack }

  lemma FrugalIsCovered(p: Principal, calls: seq<Call>, slack: real)
    requires Run(calls) && Frugal(p, calls, slack) && slack >= 0.0
    ensures Covered(p, calls, WithSlack(slack), p.dailyBudgetUsd + slack)
  {
    hide Exec, Spent;
    forall i | 0 <= i < |calls|
      ensures CoveredCall(p, Exec(calls[..i]), calls[i], WithSlack(slack), p.dailyBudgetUsd + slack)
    {
      RunIsGood(calls, i);
      assert FrugalCall(p, Exec(calls[..i]), calls[i], slack);
    }
  }

  lemma {:induction false} RunIsGood(calls: seq<Call>, i: nat)
    requires Run(calls) && i < |calls|
    ensures Run(calls[..i]) && GoodCall(Exec(calls[..i]), calls[i])
  {
    hide Exec, GoodCall;
    var front := calls[..|calls| - 1];
    if i < |front| {
      RunIsGood(front, i);
      assert front[..i] == calls[..i];
    }
  }

  /** On no day can an agent whose reports stay within their limits, up to `slack` each, spend more than its
      concurrency limit times its daily budget plus `slack`. */
  lemma DailySpendBound(p: Principal, calls: seq<Call>, day: int, slack: real)
    requires Run(calls) && OneCredential(p, calls) && Frugal(p, calls, slack) && p.Valid() && slack >= 0.0
    ensures SpentOn(p, Exec(calls), day) <= p.concurrentLimit as real * (p.dailyBudgetUsd + slack)
  {
    hide *;
    BudgetNonNegative(p);
    FrugalIsCovered(p, calls, slack);
    CoveredSpendBound(p, calls, WithSlack(slack), p.dailyBudgetUsd + slack, day);
  }

  lemma SpentWithinCap(p: Principal, s: State, today: int, day: int, reserve: real -> real, most: real)
    requires p.Valid() && Ledger(p, s, today, reserve, most)
    ensures SpentOn(p, s, day) <= Cap(p, most)
  {
    hide SpentOn, Cap;
  }

  lemma CapIsProduct(p: Principal, most: real)
    requires p.Valid()
    ensures Cap(p, most) == p.concurrentLimit as real * most
  {
    TimesIsProduct(p.concurrentLimit, most);
  }
}
