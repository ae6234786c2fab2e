/**
 The daily spend bounds cannot be improved: for every credential some run on one clock reaches them exactly. The run
 follows a plan: it opens a decision a minute, on days on which nothing is charged, and settles all of them on one
 later day, as many a minute as the rate limit allows.
 */
module SpendWitness {
  import opened Wrappers
  import opened Schemas
  import opened Protocol
  import opened Sums
  import opened AtomicRuns
  import opened QuotaTheorems
  import opened DaySpend

  function IdOf(k: nat): Id { seq(k, _ => 'a') }

  lemma IdsDiffer(j: nat, k: nat)
    requires IdOf(j) == IdOf(k)
    ensures j == k
  {
    assert |IdOf(j)| == j && |IdOf(k)| == k;
  }

  // ----- the plan

  /** One request for a full budget, the decision it gets, and the report that settles it. */
  datatype Plan = Plan(
    p: Principal,
    request: DecisionRequest,
    policyId: string,
    decision: Decision,
    attempt: Attempt,
    model: Option<string>,
    cost: real)
  {
    predicate Valid() {
      && p.Valid() && request.Valid() && request.agentId == p.agentId && request.budgetLimitUsd == p.dailyBudgetUsd
      && attempt.latencyMs >= 0 && cost >= 0.0
    }

    function ResponseFor(id: Id): Response { Response(id, policyId, decision) }

    function OutcomeFor(id: Id): Outcome {
      Outcome(id, p.agentId, request.requestId, Success, [attempt], model, 0, attempt.latencyMs, cost)
    }

    function Routing(): Routing { Routed(policyId, Result.Ok(decision)) }

    /** Decision number `k` is asked for in minute `k`. */
    function OpenCall(k: nat): Call { Create(p, request, None, IdOf(k), Routing(), AtMinute(k)) }

    /** The day after all `made` decisions were opened. */
    static function SettleDay(made: nat): nat { made / MINUTES_A_DAY + 1 }

    function SettleMinute(made: nat, k: nat): nat
      requires p.rateLimitRpm >= 1
    {
      MINUTES_A_DAY * SettleDay(made) + k / p.rateLimitRpm
    }

    /** Report number `k` comes in the minute that the rate limit leaves to it. */
    function CloseCall(made: nat, k: nat): Call
      requires p.rateLimitRpm >= 1
    {
      Report(p, OutcomeFor(IdOf(k)), None, AtMinute(SettleMinute(made, k)))
    }
  }

  /** A call of the plan: its request routed to its decision, or its report on a decision made so. */
  ghost predicate Planned(plan: Plan, s: State, c: Call) {
    && c.p == plan.p
    && match c
       case Create(_, request, key, _, routing, _) =>
         request == plan.request && key == None && routing == plan.Routing()
       case Report(_, o, _, _) =>
         && o.decisionId in s.decisions && s.decisions[o.decisionId].agentId == plan.p.agentId
         && s.decisions[o.decisionId].request == plan.request
         && s.decisions[o.decisionId].response == plan.ResponseFor(o.decisionId)
         && o == plan.OutcomeFor(o.decisionId)
  }

  ghost predicate PlannedRun(plan: Plan, calls: seq<Call>) {
    forall i :: 0 <= i < |calls| ==> Planned(plan, Exec(calls[..i]), calls[i])
  }

  // ----- how far a run of the plan has come

  /** The decisions of the run: `made` of them were opened, the first `settled` of them closed. */
  ghost predicate Shape(plan: Plan, s: State, made: nat, settled: nat) {
    && settled <= made
    && (forall i: nat :: IdOf(i) in s.decisions <==> i < made)
    && (forall i: nat :: i < made ==>
          && s.decisions[IdOf(i)].agentId == plan.p.agentId && s.decisions[IdOf(i)].request == plan.request
          && s.decisions[IdOf(i)].response == plan.ResponseFor(IdOf(i))
          && (s.decisions[IdOf(i)].outcome.None? <==> settled <= i))
  }

  /** What is spent on each day, and how many slots are in use. */
  ghost predicate Usage(plan: Plan, s: State, made: nat, settled: nat, today: int) {
    && (forall day :: SpentOn(plan.p, s, day) == if day == today then Times(settled, plan.cost) else 0.0)
    && Held(s.slots, plan.p.Key()) == OpenIds(s, plan.p.agentId)
    && settled <= made && |OpenIds(s, plan.p.agentId)| == made - settled
  }

  /** The minute has seen so many calls, and the later ones none. */
  ghost predicate MinuteCount(p: Principal, s: State, minute: int, hits: nat) {
    && Hits(s.rpm, MinuteKey(p.Key(), minute)) == hits
    && forall later: int :: later > minute ==> Hits(s.rpm, MinuteKey(p.Key(), later)) == 0
  }

  ghost predicate Progress(plan: Plan, calls: seq<Call>, made: nat, settled: nat, today: int, minute: int, hits: nat) {
    && Run(calls) && PlannedRun(plan, calls) && Clocked(calls)
    && (calls != [] ==> calls[|calls| - 1].clock.seconds <= 60.0 * minute as real)
    && Shape(plan, Exec(calls), made, settled) && Usage(plan, Exec(calls), made, settled, today)
    && MinuteCount(plan.p, Exec(calls), minute, hits)
  }

  lemma {:induction false} LastIsLatest(calls: seq<Call>)
    requires Run(calls) && Clocked(calls) && calls != []
    ensures forall c :: c in calls ==> c.clock.seconds <= calls[|calls| - 1].clock.seconds
  {
    forall c | c in calls
      ensures c.clock.seconds <= calls[|calls| - 1].clock.seconds
    {
      var i :| 0 <= i < |calls| && calls[i] == c;
    }
  }

  lemma DaysFollowSeconds(c: Clock, d: Clock)
    requires c.Consistent() && d.Consistent() && c.seconds <= d.seconds
    ensures c.day <= d.day
  {
    assert c.seconds / 86400.0 <= d.seconds / 86400.0;
  }

  lemma ClockedOn(calls: seq<Call>, c: Call)
    requires Clocked(calls) && c.clock.Consistent()
    requires calls != [] ==> calls[|calls| - 1].clock.seconds <= c.clock.seconds
    ensures Clocked(calls + [c]) && (calls != [] ==> calls[|calls| - 1].clock.day <= c.clock.day)
  {
    hide Clock.Consistent;
    if calls != [] {
      assert calls[|calls| - 1] in calls;
      DaysFollowSeconds(calls[|calls| - 1].clock, c.clock);
    }
    var longer := calls + [c];
    forall i, j | 0 <= i < j < |longer|
      ensures longer[i].clock.seconds <= longer[j].clock.seconds
    {
      if j == |calls| && i < |calls| - 1 {
        assert calls[i].clock.seconds <= calls[|calls| - 1].clock.seconds;
      }
    }
  }

  lemma PlannedOn(plan: Plan, calls: seq<Call>, c: Call)
    requires PlannedRun(plan, calls) && Planned(plan, Exec(calls), c)
    ensures PlannedRun(plan, calls + [c])
  {
    hide Exec, Planned;
    var longer := calls + [c];
    assert longer[..|calls|] == calls;
    forall i | 0 <= i < |longer|
      ensures Planned(plan, Exec(longer[..i]), longer[i])
    {
      if i < |calls| {
        assert longer[..i] == calls[..i];
      }
    }
  }

  lemma RunOn(calls: seq<Call>, c: Call)
    requires Run(calls) && GoodCall(Exec(calls), c) && (calls != [] ==> calls[|calls| - 1].clock.day <= c.clock.day)
    ensures Run(calls + [c])
  {
    hide Exec, GoodCall;
    var longer := calls + [c];
    assert longer[..|longer| - 1] == calls && longer[|longer| - 1] == c;
  }

  lemma ExecOn(calls: seq<Call>, c: Call)
    ensures Exec(calls + [c]) == Apply(Exec(calls), c).0
  {
    hide Apply;
    var longer := calls + [c];
    assert longer[..|longer| - 1] == calls && longer[|longer| - 1] == c;
  }

  lemma OneCallMore(plan: Plan, calls: seq<Call>, c: Call, minute: int)
    requires Run(calls) && PlannedRun(plan, calls) && Clocked(calls)
    requires GoodCall(Exec(calls), c) && Planned(plan, Exec(calls), c) && c.clock == AtMinute(minute)
    requires calls != [] ==> calls[|calls| - 1].clock.seconds <= 60.0 * minute as real
    ensures Run(calls + [c]) && PlannedRun(plan, calls + [c]) && Clocked(calls + [c])
    ensures Exec(calls + [c]) == Apply(Exec(calls), c).0
  {
    hide Apply, GoodCall, Planned, Clock.Consistent, Clocked, Run, PlannedRun, Exec;
    AtMinuteReads(minute);
    ClockedOn(calls, c);
    RunOn(calls, c);
    ExecOn(calls, c);
    PlannedOn(plan, calls, c);
  }

  // ----- one decision more

  lemma OpenAccepted(plan: Plan, s: State, k: nat, today: int)
    requires plan.Valid() && k < plan.p.concurrentLimit
    requires Shape(plan, s, k, 0) && Usage(plan, s, k, 0, today) && MinuteCount(plan.p, s, k, 0)
    ensures var c := plan.OpenCall(k);
            GoodCall(s, c) && Planned(plan, s, c) && Creates(s, c, Apply(s, c).0, Apply(s, c).1)
  {
    var c, p := plan.OpenCall(k), plan.p;
    assert c.id !in s.decisions;
    AtMinuteReads(k);
    assert RpmAllows(s, p, c.clock);
    assert SpentOn(p, s, c.clock.day) == 0.0;
    assert WithinDailyBudget(s, p, plan.request, c.clock.day);
    assert |Held(s.slots, p.Key()) + {c.id}| <= p.concurrentLimit;
    HeldAfterAdd(s.slots, p.Key(), c.id);
    hide Shape, Usage, MinuteCount, RpmAllows, WithinDailyBudget, AddSlot, DropSlot, IdOf, OpenIds, AtMinute;
  }

  lemma OpenShape(plan: Plan, s: State, t: State, a: Answer, k: nat)
    requires Shape(plan, s, k, 0) && Creates(s, plan.OpenCall(k), t, a)
    ensures Shape(plan, t, k + 1, 0)
  {
    hide WithinDailyBudget, CountHit, AddSlot, Lookup, Held, Indexed, AtMinute;
    forall i: nat
      ensures IdOf(i) in t.decisions <==> i < k + 1
    {
      if IdOf(i) == IdOf(k) { IdsDiffer(i, k); }
    }
  }

  lemma OpenUsage(plan: Plan, s: State, c: Call, t: State, a: Answer, k: nat, today: int)
    requires Usage(plan, s, k, 0, today) && Creates(s, c, t, a) && c.p == plan.p
    ensures Usage(plan, t, k + 1, 0, today)
  {
    hide OpenIds, Held, IsOpen, Spent, AddSlot, Indexed, NewRecord, Insertable, Lookup, WithinDailyBudget, SpentOn,
      Creates;
    var p := plan.p;
    CreateOpens(p, s, c, t, a);
    CreateHolds(s, c, t, a, p.Key());
    CountersAlone(p, s, c, t, a);
  }

  lemma HitCounted(p: Principal, s: State, c: Call, t: State, a: Answer, minute: int, hits: nat)
    requires MinuteCount(p, s, minute, hits) && (Creates(s, c, t, a) || Settles(s, c, t, a)) && c.p == p
             && c.clock == AtMinute(minute)
    ensures MinuteCount(p, t, minute, hits + 1)
  {
    AtMinuteReads(minute);
    hide Held, Spent, AddSlot, Indexed, NewRecord, Insertable, Lookup, WithinDailyBudget, AtMinute, DropSlot, AddSpend,
      CompletedRecord, EventOf;
    assert t.rpm == CountHit(s.rpm, MinuteKey(p.Key(), minute));
  }

  lemma Opens(plan: Plan, calls: seq<Call>, k: nat, today: int)
    requires plan.Valid() && k < plan.p.concurrentLimit && Progress(plan, calls, k, 0, today, k, 0)
    ensures Progress(plan, calls + [plan.OpenCall(k)], k + 1, 0, today, k + 1, 0)
  {
    hide Apply, Creates, Shape, Usage, GoodCall, Planned, Run, PlannedRun, Clocked, Plan.Valid, MinuteCount;
    var s, c := Exec(calls), plan.OpenCall(k);
    var (t, a) := Apply(s, c);
    OpenAccepted(plan, s, k, today);
    OneCallMore(plan, calls, c, k);
    OpenShape(plan, s, t, a, k);
    OpenUsage(plan, s, c, t, a, k, today);
    HitCounted(plan.p, s, c, t, a, k, 0);
    LaterMinute(plan.p, t, k, 1, k + 1);
  }

  lemma LaterMinute(p: Principal, s: State, minute: int, hits: nat, later: int)
    requires MinuteCount(p, s, minute, hits) && minute < later
    ensures MinuteCount(p, s, later, 0)
  {
  }

  // ----- one decision settled

  lemma CloseAccepted(plan: Plan, s: State, made: nat, k: nat)
    requires plan.Valid() && k < made && Shape(plan, s, made, k)
    requires MinuteCount(plan.p, s, plan.SettleMinute(made, k), k % plan.p.rateLimitRpm)
    ensures var c := plan.CloseCall(made, k);
            GoodCall(s, c) && Planned(plan, s, c) && Settles(s, c, Apply(s, c).0, Apply(s, c).1)
  {
    var c := plan.CloseCall(made, k);
    AtMinuteReads(plan.SettleMinute(made, k));
    assert RpmAllows(s, plan.p, c.clock);
    assert IdOf(k) in s.decisions && s.decisions[IdOf(k)].outcome.None?;
    hide Shape, MinuteCount, RpmAllows, IdOf, SettledBy, AtMinute, Plan.SettleMinute;
  }

  lemma CloseShape(plan: Plan, s: State, c: Call, t: State, a: Answer, made: nat, k: nat)
    requires k < made && Shape(plan, s, made, k) && Settles(s, c, t, a) && c.outcome.decisionId == IdOf(k)
    ensures Shape(plan, t, made, k + 1)
  {
    hide CountHit, DropSlot, AddSpend, EventOf;
    forall i: nat | i < made
      ensures t.decisions[IdOf(i)].outcome.None? <==> k + 1 <= i
    {
      if IdOf(i) == IdOf(k) { IdsDiffer(i, k); }
    }
  }

  lemma CloseUsage(plan: Plan, s: State, c: Call, t: State, a: Answer, made: nat, k: nat, today: int)
    requires k < made && Usage(plan, s, made, k, today) && RecordsConsistent(s) && Settles(s, c, t, a)
    requires c.p == plan.p && c.outcome.finalCostUsd == plan.cost && c.clock.day == today
    ensures Usage(plan, t, made, k + 1, today)
  {
    hide OpenIds, Held, IsOpen, Spent, AddSpend, DropSlot, CompletedRecord, EventOf, RecordsConsistent, SpentOn;
    var p := plan.p;
    SettleCloses(p, s, c, t, a);
    SettleReleases(s, c, t, a, p.Key());
    CounterCharged(p, s, c, t, a);
  }

  /** While fewer than a day's reports have been made, the next one still falls on that day. */
  lemma SettlesInDay(plan: Plan, made: nat, k: nat)
    requires plan.p.rateLimitRpm >= 1 && k < MINUTES_A_DAY * plan.p.rateLimitRpm
    ensures AtMinute(plan.SettleMinute(made, k)).day == Plan.SettleDay(made)
  {
    DivisionBelow(k, plan.p.rateLimitRpm);
  }

  lemma DivisionBelow(k: nat, rpm: int)
    requires rpm >= 1 && k < MINUTES_A_DAY * rpm
    ensures k / rpm < MINUTES_A_DAY
  {
    assert (k / rpm) * rpm <= k;
    FactorBelow(k / rpm, MINUTES_A_DAY, rpm);
  }

  lemma FactorBelow(q: int, n: int, d: int)
    requires q * d < n * d && d >= 1
    ensures q < n
  {
  }

  lemma NextReport(k: nat, rpm: int)
    requires rpm >= 1
    ensures || ((k + 1) / rpm == k / rpm && (k + 1) % rpm == k % rpm + 1)
            || ((k + 1) / rpm == k / rpm + 1 && (k + 1) % rpm == 0)
  {
    var q, r := k / rpm, k % rpm;
    assert k == q * rpm + r;
    if r + 1 < rpm {
      Quotient(k + 1, q, r + 1, rpm);
    } else {
      assert (q + 1) * rpm == q * rpm + rpm;
      Quotient(k + 1, q + 1, 0, rpm);
    }
  }

  lemma Quotient(n: int, q: int, r: int, d: int)
    requires d >= 1 && n == q * d + r && 0 <= r < d
    ensures n / d == q && n % d == r
  {
    var q', r' := n / d, n % d;
    assert n == q' * d + r';
    assert (q - q') * d == q * d - q' * d;
    SmallMultiple(q - q', d);
  }

  lemma SmallMultiple(x: int, d: int)
    requires d >= 1 && -d < x * d < d
    ensures x == 0
  {
    if x >= 1 {
      AtLeastOnce(x, d);
    } else if x <= -1 {
      AtLeastOnce(-x, d);
    }
  }

  lemma AtLeastOnce(x: int, d: int)
    requires x >= 1 && d >= 1
    ensures x * d >= d && -x * d <= -d
  {
  }

  lemma Closes(plan: Plan, calls: seq<Call>, made: nat, k: nat)
    requires plan.Valid() && k < made <= MostSettled(plan.p)
    requires Progress(plan, calls, made, k, Plan.SettleDay(made), plan.SettleMinute(made, k), k % plan.p.rateLimitRpm)
    ensures Progress(plan, calls + [plan.CloseCall(made, k)], made, k + 1, Plan.SettleDay(made),
                     plan.SettleMinute(made, k + 1), (k + 1) % plan.p.rateLimitRpm)
  {
    hide Apply, Settles, Shape, Usage, GoodCall, Planned, Run, PlannedRun, Clocked, MinuteCount;
    var s, c, minute := Exec(calls), plan.CloseCall(made, k), plan.SettleMinute(made, k);
    var (t, a) := Apply(s, c);
    CloseAccepted(plan, s, made, k);
    ReachableConsistent(calls);
    OneCallMore(plan, calls, c, minute);
    CloseShape(plan, s, c, t, a, made, k);
    SettlesInDay(plan, made, k);
    CloseUsage(plan, s, c, t, a, made, k, Plan.SettleDay(made));
    HitCounted(plan.p, s, c, t, a, minute, k % plan.p.rateLimitRpm);
    NextReport(k, plan.p.rateLimitRpm);
    if (k + 1) / plan.p.rateLimitRpm != k / plan.p.rateLimitRpm {
      LaterMinute(plan.p, t, minute, k % plan.p.rateLimitRpm + 1, minute + 1);
    }
  }

  // ----- the whole run

  lemma NothingYet(plan: Plan, today: int)
    ensures Progress(plan, [], 0, 0, today, 0, 0)
  {
    assert OpenIds(EMPTY, plan.p.agentId) == {};
  }

  lemma {:induction false} OpenAll(plan: Plan, k: nat, today: int) returns (calls: seq<Call>)
    requires plan.Valid() && k <= plan.p.concurrentLimit
    ensures Progress(plan, calls, k, 0, today, k, 0)
  {
    hide *;
    if k == 0 {
      calls := [];
      NothingYet(plan, today);
    } else {
      calls := OpenAll(plan, k - 1, today);
      Opens(plan, calls, k - 1, today);
      calls := calls + [plan.OpenCall(k - 1)];
    }
  }

  /** The run waits until the day it settles on. */
  lemma Waits(plan: Plan, calls: seq<Call>, made: nat)
    requires plan.p.rateLimitRpm >= 1 && Progress(plan, calls, made, 0, Plan.SettleDay(made), made, 0)
    ensures Progress(plan, calls, made, 0, Plan.SettleDay(made), plan.SettleMinute(made, 0), 0)
  {
    hide Run, PlannedRun, Clocked, Shape, Usage, MinuteCount, Exec;
    assert plan.SettleMinute(made, 0) > made;
    LaterMinute(plan.p, Exec(calls), made, 0, plan.SettleMinute(made, 0));
  }

  lemma {:induction false} CloseAll(plan: Plan, made: nat, k: nat) returns (calls: seq<Call>)
    requires plan.Valid() && k <= made <= MostSettled(plan.p)
    ensures Progress(plan, calls, made, k, Plan.SettleDay(made), plan.SettleMinute(made, k), k % plan.p.rateLimitRpm)
  {
    hide Progress, Plan.SettleDay, Plan.SettleMinute;
    if k == 0 {
      calls := OpenAll(plan, made, Plan.SettleDay(made));
      Waits(plan, calls, made);
    } else {
      calls := CloseAll(plan, made, k - 1);
      Closes(plan, calls, made, k - 1);
      calls := calls + [plan.CloseCall(made, k - 1)];
    }
  }

  /** Every plan has a run on one clock that spends its cost, in one day, once for each decision that can be settled in
      a day. */
  lemma PlanSpends(plan: Plan) returns (calls: seq<Call>, day: int)
    requires plan.Valid()
    ensures Run(calls) && Clocked(calls) && PlannedRun(plan, calls) && OneCredential(plan.p, calls)
    ensures SpentOn(plan.p, Exec(calls), day) == MostSettled(plan.p) as real * plan.cost
  {
    hide Run, Clocked, Shape, Times, Exec, Held, OpenIds, SpentOn, MinuteCount;
    var n := MostSettled(plan.p);
    calls := CloseAll(plan, n, n);
    day := Plan.SettleDay(n);
    TimesIsProduct(n, plan.cost);
    forall c | c in calls
      ensures c.p == plan.p
    {
      var i :| 0 <= i < |calls| && calls[i] == c;
      assert Planned(plan, Exec(calls[..i]), calls[i]);
    }
  }

  lemma PlannedIsFrugal(plan: Plan, calls: seq<Call>)
    requires plan.Valid() && PlannedRun(plan, calls) && plan.cost <= plan.p.dailyBudgetUsd
    ensures Frugal(plan.p, calls, 0.0)
  {
    hide Exec;
    forall i | 0 <= i < |calls|
      ensures FrugalCall(plan.p, Exec(calls[..i]), calls[i], 0.0)
    {
      assert Planned(plan, Exec(calls[..i]), calls[i]);
    }
  }

  /** Every credential has a run of frugal reports on one clock that spends exactly its bound in one day. */
  lemma SpendBoundReached(p: Principal, request: DecisionRequest, d: Decision) returns (calls: seq<Call>, day: int)
    requires p.Valid() && request.Valid() && request.agentId == p.agentId && request.budgetLimitUsd == p.dailyBudgetUsd
    ensures Run(calls) && Clocked(calls) && OneCredential(p, calls) && Frugal(p, calls, 0.0)
    ensures SpentOn(p, Exec(calls), day) == MostSettled(p) as real * p.dailyBudgetUsd
  {
    hide Run, Clocked, OneCredential, Frugal, PlannedRun, SpentOn, Exec, MostSettled;
    var plan := Plan(p, request, "", d, Attempt("", "", 1, Succeeded, None, 0, 0, 0, 0.0), None, p.dailyBudgetUsd);
    calls, day := PlanSpends(plan);
    PlannedIsFrugal(plan, calls);
  }
}
