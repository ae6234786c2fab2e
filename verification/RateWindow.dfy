/** The per-minute rate limit over whole runs, whatever the mix of calls. */
module RateWindow {
  import opened Wrappers
  import opened Schemas
  import opened Protocol
  import opened AtomicRuns
  import opened QuotaTheorems

  /** The call gets as far as `enforce_rpm`: idempotent replays and foreign agents do not. */
  predicate ReachesRpm(s: State, c: Call) {
    match c
    case Create(p, request, key, _, _, _) =>
      p.agentId == request.agentId && Lookup(s.decisions, s.index, p.agentId, key).None?
    case Report(p, outcome, _, _) => p.agentId == outcome.agentId
  }

  predicate PassesRpm(s: State, c: Call) { ReachesRpm(s, c) && RpmAllows(s, c.p, c.clock) }

  function MinuteOf(c: Call): MinuteKey { MinuteKey(c.p.Key(), c.clock.Minute()) }

  /** A call that does not pass is refused for the rate, and only such a call is. */
  lemma RefusedForRate(s: State, c: Call)
    ensures Apply(s, c).1 == Refused(RpmExceeded) <==> ReachesRpm(s, c) && !PassesRpm(s, c)
  {
    hide RpmAllows, Counted, Lookup, Insertable, Stored, AddSlot, DropSlot, Held, SettledBy, WithinDailyBudget;
  }

  ghost function Attempts(calls: seq<Call>, k: MinuteKey): nat {
    if calls == [] then 0
    else
      var n := |calls| - 1;
      Attempts(calls[..n], k) + (if ReachesRpm(Exec(calls[..n]), calls[n]) && MinuteOf(calls[n]) == k then 1 else 0)
  }

  ghost function Passed(calls: seq<Call>, k: MinuteKey): nat {
    if calls == [] then 0
    else
      var n := |calls| - 1;
      Passed(calls[..n], k) + (if PassesRpm(Exec(calls[..n]), calls[n]) && MinuteOf(calls[n]) == k then 1 else 0)
  }

  lemma RpmStep(s: State, c: Call)
    ensures Apply(s, c).0.rpm == if ReachesRpm(s, c) then CountHit(s.rpm, MinuteOf(c)) else s.rpm
  {
    hide RpmAllows, CountHit, Lookup, Insertable, AddSlot, DropSlot, Held, WithinDailyBudget, AddSpend, CompletedRecord;
  }

  /** In each minute exactly min(attempts, limit) of the agent's calls pass. */
  lemma {:induction false} RateExact(p: Principal, calls: seq<Call>, minute: int)
    requires OneCredential(p, calls) && p.Valid()
    ensures var k := MinuteKey(p.Key(), minute);
            && Hits(Exec(calls).rpm, k) == Attempts(calls, k)
            && Passed(calls, k) == if Attempts(calls, k) <= p.rateLimitRpm then Attempts(calls, k) else p.rateLimitRpm
  {
    if calls != [] {
      var n := |calls| - 1;
      RateExact(p, calls[..n], minute);
      RpmStep(Exec(calls[..n]), calls[n]);
      assert calls[n] in calls;
      hide Apply, ReachesRpm;
    }
  }

  /** The agent's calls that pass within the sixty seconds from `from`. */
  ghost function PassedFrom(calls: seq<Call>, p: Principal, from: real): nat {
    if calls == [] then 0
    else
      var n := |calls| - 1;
      PassedFrom(calls[..n], p, from)
      + (if PassesRpm(Exec(calls[..n]), calls[n]) && calls[n].p == p
            && from <= calls[n].clock.seconds < from + 60.0 then 1 else 0)
  }

  lemma {:induction false} WindowTouchesTwoMinutes(calls: seq<Call>, p: Principal, from: real)
    ensures var m := (from / 60.0).Floor;
            PassedFrom(calls, p, from)
              <= Passed(calls, MinuteKey(p.Key(), m)) + Passed(calls, MinuteKey(p.Key(), m + 1))
  {
    if calls != [] {
      WindowTouchesTwoMinutes(calls[..|calls| - 1], p, from);
      hide PassesRpm;
    }
  }

  /** No sixty seconds ever see more than twice the per-minute limit pass. */
  lemma RateWindowBound(p: Principal, calls: seq<Call>, from: real)
    requires OneCredential(p, calls) && p.Valid()
    ensures PassedFrom(calls, p, from) <= 2 * p.rateLimitRpm
  {
    var m := (from / 60.0).Floor;
    WindowTouchesTwoMinutes(calls, p, from);
    RateExact(p, calls, m);
    RateExact(p, calls, m + 1);
  }
}
