/**
 The spend of one day on one clock. A day has 1440 minutes and each lets `rate_limit_rpm` reports
 through, so however many slots an agent has, no more decisions than that are charged to one day.
 */
module DaySpend {
  import opened Wrappers
  import opened Schemas
  import opened Protocol
  import opened Sums
  import opened AtomicRuns
  import opened QuotaTheorems
  import opened RateWindow

  /** The most decisions that can be settled in one day. */
  function MostSettled(p: Principal): nat
    requires p.Valid()
  {
    if p.concurrentLimit <= MINUTES_A_DAY * p.rateLimitRpm then p.concurrentLimit else MINUTES_A_DAY * p.rateLimitRpm
  }

  // ----- the calls that pass the rate check on a day

  ghost function PassedOn(p: Principal, calls: seq<Call>, day: int): nat {
    if calls == [] then 0
    else
      var n := |calls| - 1;
      PassedOn(p, calls[..n], day)
      + (if PassesRpm(Exec(calls[..n]), calls[n]) && calls[n].p.Key() == p.Key() && calls[n].clock.day == day then
           1
         else 0)
  }

  /** The calls that pass in the `n` minutes from `from` on. */
  ghost function PassedIn(p: Principal, calls: seq<Call>, from: int, n: nat): nat {
    if n == 0 then 0 else PassedIn(p, calls, from, n - 1) + Passed(calls, MinuteKey(p.Key(), from + n - 1))
  }

  lemma {:induction false} NobodyPassedIn(p: Principal, from: int, n: nat)
    ensures PassedIn(p, [], from, n) == 0
  {
    if n > 0 {
      NobodyPassedIn(p, from, n - 1);
    }
  }

  lemma {:induction false} OneMorePassed(p: Principal, calls: seq<Call>, from: int, n: nat)
    requires calls != []
    ensures var front, c := calls[..|calls| - 1], calls[|calls| - 1];
            PassedIn(p, calls, from, n) == PassedIn(p, front, from, n)
            + (if PassesRpm(Exec(front), c) && c.p.Key() == p.Key() && from <= c.clock.Minute() < from + n then
                 1
               else 0)
  {
    hide PassesRpm, Exec, Clock.Minute;
    if n > 0 {
      OneMorePassed(p, calls, from, n - 1);
    }
  }

  /** The minutes of a day are the ones whose calls carry its date. */
  lemma {:induction false} DayIsItsMinutes(p: Principal, calls: seq<Call>, day: int)
    requires forall c :: c in calls ==> c.clock.Consistent()
    ensures PassedOn(p, calls, day) == PassedIn(p, calls, MINUTES_A_DAY * day, MINUTES_A_DAY)
  {
    hide PassesRpm, Exec, Clock.Minute, Clock.Consistent;
    if calls == [] {
      NobodyPassedIn(p, MINUTES_A_DAY * day, MINUTES_A_DAY);
    } else {
      var n := |calls| - 1;
      DayIsItsMinutes(p, calls[..n], day);
      OneMorePassed(p, calls, MINUTES_A_DAY * day, MINUTES_A_DAY);
      assert calls[n] in calls;
      MinuteOfDay(calls[n].clock);
      InDay(calls[n].clock.Minute(), day);
    }
  }

  lemma InDay(minute: int, day: int)
    ensures minute / MINUTES_A_DAY == day <==> MINUTES_A_DAY * day <= minute < MINUTES_A_DAY * day + MINUTES_A_DAY
  {
  }

  lemma {:induction false} MinutesPass(p: Principal, calls: seq<Call>, from: int, n: nat)
    requires OneCredential(p, calls) && p.Valid()
    ensures PassedIn(p, calls, from, n) <= n * p.rateLimitRpm
  {
    hide OneCredential, Principal.Valid, Exec;
    if n > 0 {
      MinutesPass(p, calls, from, n - 1);
      RateExact(p, calls, from + n - 1);
      OneMoreTimes(n, p.rateLimitRpm);
    }
  }

  lemma OneMoreTimes(n: nat, limit: int)
    requires n > 0
    ensures n * limit == (n - 1) * limit + limit
  {
  }

  /** On no day do more than 1440 times the rate limit of the agent's calls pass. */
  lemma DayPasses(p: Principal, calls: seq<Call>, day: int)
    requires OneCredential(p, calls) && p.Valid() && forall c :: c in calls ==> c.clock.Consistent()
    ensures PassedOn(p, calls, day) <= MINUTES_A_DAY * p.rateLimitRpm
  {
    hide Exec, OneCredential, PassedOn, PassedIn, Clock.Consistent, Principal.Valid;
    DayIsItsMinutes(p, calls, day);
    MinutesPass(p, calls, MINUTES_A_DAY * day, MINUTES_A_DAY);
  }

  // ----- what they can charge

  lemma SettlePasses(s: State, c: Call, t: State, a: Answer)
    requires Apply(s, c) == (t, a) && Settles(s, c, t, a)
    ensures c.Report? && PassesRpm(s, c)
  {
    hide RpmAllows, Counted, SettledBy;
  }

  /** A report is charged at most what its decision's reserve may be. */
  lemma ChargeBounded(p: Principal, s: State, c: Call, t: State, a: Answer, today: int, reserve: real -> real,
                      most: real)
    requires p.Valid() && Ledger(p, s, today, reserve, most) && RecordsConsistent(s)
    requires Settles(s, c, t, a) && c.p == p && CoveredCall(p, s, c, reserve, most)
    ensures c.Report? && c.outcome.finalCostUsd <= most
  {
    hide Settles, RecordsConsistent, CoveredCall, OpenLimits, SpendRange, Sum, Cap;
    SettlesReports(s, c, t, a);
    LimitClosed(p, s, c, t, a, reserve, most);
  }

  lemma {:induction false} SpentByPassed(p: Principal, calls: seq<Call>, reserve: real -> real, most: real, day: int)
    requires Run(calls) && OneCredential(p, calls) && Covered(p, calls, reserve, most) && p.Valid() && most >= 0.0
    ensures SpentOn(p, Exec(calls), day) <= Times(PassedOn(p, calls, day), most)
  {
    hide Apply, Ledger, CoveredCall, Creates, Settles, Leaves, RecordsConsistent, IndexConsistent, EventsConsistent,
      PassesRpm, Times, GoodCall, SpentOn, FreshId, SameSlots;
    if calls == [] {
      NothingSpent(p, day, most);
    } else {
      var front, c := calls[..|calls| - 1], calls[|calls| - 1];
      CoveredFront(p, calls, reserve, most);
      SpentByPassed(p, front, reserve, most, day);
      LedgerKept(p, front, reserve, most);
      ReachableConsistent(front);
      var s := Exec(front);
      var (t, a) := Apply(s, c);
      hide Exec;
      CallEffect(s, c, t, a);
      assert c in calls;
      TimesMonotone(PassedOn(p, front, day), PassedOn(p, calls, day), most);
      if Settles(s, c, t, a) && c.p == p {
        SettlePasses(s, c, t, a);
        ChargeBounded(p, s, c, t, a, Today(front), reserve, most);
        CounterCharged(p, s, c, t, a);
        OnceMore(PassedOn(p, front, day), most);
      } else {
        CountersAlone(p, s, c, t, a);
      }
    }
  }

  lemma NothingSpent(p: Principal, day: int, most: real)
    ensures SpentOn(p, Exec([]), day) <= Times(PassedOn(p, [], day), most)
  {
  }

  lemma OnceMore(n: nat, most: real)
    ensures Times(n + 1, most) == Times(n, most) + most
  {
  }

  /** On one clock, no day sees more than `most` for each decision that can be settled in a day. */
  lemma ClockedSpendBound(p: Principal, calls: seq<Call>, reserve: real -> real, most: real, day: int)
    requires Run(calls) && Clocked(calls) && OneCredential(p, calls) && Covered(p, calls, reserve, most) && p.Valid()
             && most >= 0.0
    ensures SpentOn(p, Exec(calls), day) <= MostSettled(p) as real * most
  {
    hide Run, OneCredential, Covered, Exec, SpentOn, Principal.Valid, Clock.Consistent, PassedOn, Times;
    if MostSettled(p) == p.concurrentLimit {
      CoveredSpendBound(p, calls, reserve, most, day);
    } else {
      SpentByPassed(p, calls, reserve, most, day);
      DayPasses(p, calls, day);
      TimesMonotone(PassedOn(p, calls, day), MostSettled(p), most);
      TimesIsProduct(MostSettled(p), most);
    }
  }

  /** So an agent whose reports stay within their limits, up to `slack` each, spends at most a daily budget plus
      `slack` for each decision that can be settled in a day. */
  lemma ClockedDailyBound(p: Principal, calls: seq<Call>, day: int, slack: real)
    requires Run(calls) && Clocked(calls) && OneCredential(p, calls) && Frugal(p, calls, slack) && p.Valid()
             && slack >= 0.0
    ensures SpentOn(p, Exec(calls), day) <= MostSettled(p) as real * (p.dailyBudgetUsd + slack)
  {
    hide *;
    BudgetNonNegative(p);
    FrugalIsCovered(p, calls, slack);
    ClockedSpendBound(p, calls, WithSlack(slack), p.dailyBudgetUsd + slack, day);
  }
}
