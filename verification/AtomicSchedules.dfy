/**
 The two models agree: a call of the atomic model is one schedule of the interleaved machine, so every
 state that runs of atomic calls reach is a state the machine reaches with one request running at a time.
 */
module AtomicSchedules {
  import opened Wrappers
  import opened Schemas
  import PricingEngine
  import opened Protocol
  import opened AtomicRuns
  import opened Interleaving

  function CreateSchedule(c: Call): seq<Step>
    requires c.Create?
  {
    GuardSchedule(c) + ReserveSchedule(c)
  }

  function GuardSchedule(c: Call): seq<Step>
    requires c.Create?
  {
    var (t, id) := (c.clock, c.id);
    [Step(Begin(id, c.p, c.request, c.key), t), Step(Incr(id), t), Step(ReadBudget(id, c.routing.Routed?), t)]
  }

  function ReserveSchedule(c: Call): seq<Step>
    requires c.Create?
  {
    var (t, id) := (c.clock, c.id);
    [Step(Sadd(id), t), Step(Scard(id), t), Step(Srem(id), t), Step(InsertOf(c), t), Step(Srem(id), t)]
  }

  function InsertOf(c: Call): Act
    requires c.Create?
  {
    if c.routing.Routed? then Insert(c.id, c.routing.policyId, c.routing.result)
    else Insert(c.id, "", Err(PricingEngine.NoSurvivors))
  }

  function ReportSchedule(s: State, c: Call): seq<Step>
    requires c.Report?
  {
    var count := Step(ReportIncr(c.p, c.outcome.decisionId), c.clock);
    if c.p.agentId != c.outcome.agentId then []
    else if !RpmAllows(s, c.p, c.clock) then [count]
    else [count] + SettleSchedule(c)
  }

  function SettleSchedule(c: Call): seq<Step>
    requires c.Report?
  {
    var (t, id) := (c.clock, c.outcome.decisionId);
    [Step(Commit(c.p, c.outcome, c.key), t), Step(Srem(id), t), Step(IncrSpend(id), t), Step(Xadd(id), t)]
  }

  function Schedule(s: State, c: Call): seq<Step> {
    if c.Create? then CreateSchedule(c) else ReportSchedule(s, c)
  }

  // ----- running a schedule

  lemma Runs1(m: Machine, a: Step, rest: seq<Step>)
    ensures Continue(m, [a] + rest) == Continue(Next(m, a), rest)
  {
    hide Next;
    assert ([a] + rest)[1..] == rest;
  }

  lemma Runs2(m: Machine, a: Step, b: Step, rest: seq<Step>)
    ensures Continue(m, [a, b] + rest) == Continue(Next(Next(m, a), b), rest)
  {
    hide Next, Continue;
    Runs1(m, a, [b] + rest);
    Runs1(Next(m, a), b, rest);
    assert [a, b] + rest == [a] + ([b] + rest);
  }

  lemma RunsOut(m: Machine)
    ensures Continue(m, []) == m
  {
  }

  lemma Runs3(m: Machine, a: Step, b: Step, c: Step)
    ensures Continue(m, [a, b, c]) == Next(Next(Next(m, a), b), c)
  {
    hide Next, Continue;
    var m2 := Next(Next(m, a), b);
    Runs2(m, a, b, [c]);
    Runs1(m2, c, []);
    RunsOut(Next(m2, c));
    assert [a, b, c] == [a, b] + [c] && [c] == [c] + [];
  }

  lemma Runs4(m: Machine, a: Step, b: Step, c: Step, d: Step)
    ensures Continue(m, [a, b, c, d]) == Next(Next(Next(Next(m, a), b), c), d)
  {
    hide Next, Continue;
    var m2 := Next(Next(m, a), b);
    Runs2(m, a, b, [c, d]);
    Runs2(m2, c, d, []);
    RunsOut(Next(Next(m2, c), d));
    assert [a, b, c, d] == [a, b] + [c, d] && [c, d] == [c, d] + [];
  }

  lemma Runs5(m: Machine, a: Step, b: Step, c: Step, d: Step, e: Step)
    ensures Continue(m, [a, b, c, d, e]) == Next(Next(Next(Next(Next(m, a), b), c), d), e)
  {
    hide Next, Continue;
    Runs2(m, a, b, [c, d, e]);
    Runs3(Next(Next(m, a), b), c, d, e);
    assert [a, b, c, d, e] == [a, b] + [c, d, e];
  }

  lemma {:induction false} RunsOn(m: Machine, a: seq<Step>, b: seq<Step>)
    ensures Continue(m, a + b) == Continue(Continue(m, a), b)
    decreases |a|
  {
    hide Next;
    if a == [] {
      assert a + b == b;
    } else {
      assert (a + b)[1..] == a[1..] + b;
      RunsOn(Next(m, a[0]), a[1..], b);
    }
  }

  // ----- a create

  /** The machine with the shared state `s` and the call's flight at `stage`. */
  function With(m: Machine, c: Call, s: State, stage: Stage): Machine
    requires c.Create?
  {
    m.(shared := s, flights := m.flights[c.id := Flight(c.p, c.request, c.key, stage)])
  }

  lemma Moved(m: Machine, c: Call, s: State, s': State, a: Stage, b: Stage)
    requires c.Create?
    ensures Move(With(m, c, s, a).(shared := s'), c.id, b) == With(m, c, s', b)
  {
    assert m.flights[c.id := Flight(c.p, c.request, c.key, a)][c.id := Flight(c.p, c.request, c.key, b)]
           == m.flights[c.id := Flight(c.p, c.request, c.key, b)];
  }

  /** Begin, rate check and budget check. */
  lemma GuardsRun(m: Machine, c: Call)
    requires c.Create? && c.id !in m.flights
    ensures var s, t := m.shared, Continue(m, GuardSchedule(c));
            if c.p.agentId != c.request.agentId || Lookup(s.decisions, s.index, c.p.agentId, c.key).Some? then t == m
            else if !RpmAllows(s, c.p, c.clock) || !WithinDailyBudget(s, c.p, c.request, c.clock.day)
                    || !c.routing.Routed? then
              t == With(m, c, Counted(s, c.p, c.clock), Dropped)
            else t == With(m, c, Counted(s, c.p, c.clock), Checked)
  {
    hide Continue, Lookup, RpmAllows, Spent, CountHit;
    var s, q := m.shared, GuardSchedule(c);
    Runs3(m, q[0], q[1], q[2]);
    if Begins(m, c.id, c.p, c.request, c.key) {
      var s1 := Counted(s, c.p, c.clock);
      assert WithinDailyBudget(s1, c.p, c.request, c.clock.day) == WithinDailyBudget(s, c.p, c.request, c.clock.day);
      var admitted := if RpmAllows(s, c.p, c.clock) then Admitted else Dropped;
      Moved(m, c, s, s1, Looked, admitted);
      assert Next(Next(m, q[0]), q[1]) == With(m, c, s1, admitted);
      Moved(m, c, s1, s1, admitted, Checked);
      Moved(m, c, s1, s1, admitted, Dropped);
    }
  }

  /** A flight that is not on its way to a slot is left alone by the reservation steps. */
  lemma ReserveIdles(m: Machine, c: Call)
    requires c.Create? && (c.id in m.flights ==> m.flights[c.id].stage == Dropped)
    ensures Continue(m, ReserveSchedule(c)) == m
  {
    hide Continue;
    var q := ReserveSchedule(c);
    Runs5(m, q[0], q[1], q[2], q[3], q[4]);
  }

  /** SADD, SCARD and the SREM of a reservation over the limit. */
  lemma CountRuns(m: Machine, c: Call, s: State)
    requires c.Create?
    ensures var q, held := ReserveSchedule(c), AddSlot(s.slots, c.p.Key(), c.id);
            var t := Next(Next(Next(With(m, c, s, Checked), q[0]), q[1]), q[2]);
            if |Held(held, c.p.Key())| > c.p.concurrentLimit
            then t == With(m, c, s.(slots := DropSlot(held, c.p.Key(), c.id)), Dropped)
            else t == With(m, c, s.(slots := held), Holding)
  {
    hide Held, AddSlot, DropSlot;
    var held := AddSlot(s.slots, c.p.Key(), c.id);
    var s1 := s.(slots := held);
    Moved(m, c, s, s1, Checked, Added);
    Moved(m, c, s1, s1, Added, Rejecting);
    Moved(m, c, s1, s1, Added, Holding);
    Moved(m, c, s1, s1.(slots := DropSlot(held, c.p.Key(), c.id)), Rejecting, Dropped);
  }

  /** The engine and the insert, with the SREM when either fails. */
  lemma InsertRuns(m: Machine, c: Call, s: State, stage: Stage)
    requires c.Create? && c.routing.Routed? && (stage == Holding || stage == Dropped)
    ensures var q := ReserveSchedule(c);
            var t := Next(Next(With(m, c, s, stage), q[3]), q[4]);
            if stage == Dropped then t == With(m, c, s, Dropped)
            else if c.routing.result.Ok? && Insertable(s.decisions, s.index, c.p.agentId, c.id, c.key) then
              t == With(m, c, Stored(s, c.p, c.request, c.key,
                                     Response(c.id, c.routing.policyId, c.routing.result.value)), InTable)
            else t == With(m, c, s.(slots := DropSlot(s.slots, c.p.Key(), c.id)), Dropped)
  {
    hide DropSlot, Insertable, Stored;
    if stage == Holding {
      if c.routing.result.Ok? {
        Moved(m, c, s, Stored(s, c.p, c.request, c.key, Response(c.id, c.routing.policyId, c.routing.result.value)),
              Holding, InTable);
      }
      Moved(m, c, s, s, Holding, Aborting);
      Moved(m, c, s, s.(slots := DropSlot(s.slots, c.p.Key(), c.id)), Aborting, Dropped);
    }
  }

  lemma ReserveRuns(m: Machine, c: Call, s: State)
    requires c.Create? && c.routing.Routed?
    ensures var (t, a) := Reserved(s, c.p, c.request, c.key, c.id, c.routing);
            Continue(With(m, c, s, Checked), ReserveSchedule(c))
              == With(m, c, t, if a.Decided? then InTable else Dropped)
  {
    hide Continue, Next, Held, AddSlot, DropSlot, Insertable, Stored, With;
    var q, held := ReserveSchedule(c), AddSlot(s.slots, c.p.Key(), c.id);
    Runs5(With(m, c, s, Checked), q[0], q[1], q[2], q[3], q[4]);
    CountRuns(m, c, s);
    InsertRuns(m, c, s.(slots := held), Holding);
    InsertRuns(m, c, s.(slots := DropSlot(held, c.p.Key(), c.id)), Dropped);
  }

  /** The steps of a create, taken without interruption, do what the atomic call does. */
  lemma CreateIsSchedule(m: Machine, c: Call)
    requires c.Create? && c.id !in m.flights
    ensures var t := Continue(m, CreateSchedule(c));
            && t.shared == Apply(m.shared, c).0
            && (t == m || t == With(m, c, t.shared, Dropped) || t == With(m, c, t.shared, InTable))
  {
    hide Continue, Next, Lookup, RpmAllows, WithinDailyBudget, CountHit, Reserved;
    var s1 := Counted(m.shared, c.p, c.clock);
    RunsOn(m, GuardSchedule(c), ReserveSchedule(c));
    GuardsRun(m, c);
    ReserveIdles(m, c);
    ReserveIdles(With(m, c, s1, Dropped), c);
    if c.routing.Routed? {
      ReserveRuns(m, c, s1);
    }
  }

  // ----- a report

  /** No request is under way. */
  ghost predicate AtRest(m: Machine) {
    forall id :: id in m.flights ==>
      m.flights[id].stage.Dropped? || m.flights[id].stage.InTable? || m.flights[id].stage.Published?
  }

  lemma CommitRuns(m: Machine, c: Call)
    requires c.Report? && Commits(m, c.p, c.outcome)
    ensures var (id, day) := (c.outcome.decisionId, c.clock.day);
            var f, s := m.flights[id], m.shared;
            Next(Next(m, Step(Commit(c.p, c.outcome, c.key), c.clock)), Step(Srem(id), c.clock)) ==
            Machine(s.(decisions := s.decisions[id := CompletedRecord(s.decisions[id], c.outcome, c.key)],
                       attemptRows := s.attemptRows[id := c.outcome.attempts],
                       slots := DropSlot(s.slots, c.p.Key(), id)),
                    m.flights[id := f.(stage := Released(c.p, c.outcome))], m.cleared)
  {
    hide DropSlot, CompletedRecord;
    var id, f := c.outcome.decisionId, m.flights[c.outcome.decisionId];
    assert m.flights[id := f.(stage := Committed(c.p, c.outcome))][id := f.(stage := Released(c.p, c.outcome))]
           == m.flights[id := f.(stage := Released(c.p, c.outcome))];
  }

  lemma PayRuns(m: Machine, c: Call)
    requires c.Report? && At(m, c.outcome.decisionId, Released(c.p, c.outcome))
    ensures var (id, day) := (c.outcome.decisionId, c.clock.day);
            var f, s := m.flights[id], m.shared;
            Next(Next(m, Step(IncrSpend(id), c.clock)), Step(Xadd(id), c.clock)) ==
            Machine(s.(spend := AddSpend(s.spend, DayKey(c.p.Key(), day), c.outcome.finalCostUsd),
                       events := s.events + [EventOf(c.p, c.outcome)]),
                    m.flights[id := f.(stage := Published(c.p, c.outcome))], m.cleared)
  {
    hide AddSpend, EventOf;
    var id, f := c.outcome.decisionId, m.flights[c.outcome.decisionId];
    assert m.flights[id := f.(stage := Charged(c.p, c.outcome))][id := f.(stage := Published(c.p, c.outcome))]
           == m.flights[id := f.(stage := Published(c.p, c.outcome))];
  }

  lemma SettleRuns(m: Machine, c: Call)
    requires c.Report? && Commits(m, c.p, c.outcome)
    ensures var id := c.outcome.decisionId;
            Continue(m, SettleSchedule(c)) ==
            Machine(SettledBy(m.shared, c.p, c.outcome, c.key, c.clock.day),
                    m.flights[id := m.flights[id].(stage := Published(c.p, c.outcome))], m.cleared)
  {
    hide Continue, Next, AddSpend, EventOf, DropSlot, CompletedRecord;
    var id, q := c.outcome.decisionId, SettleSchedule(c);
    Runs4(m, q[0], q[1], q[2], q[3]);
    CommitRuns(m, c);
    var t := Next(Next(m, q[0]), q[1]);
    PayRuns(t, c);
    assert t.flights[id := t.flights[id].(stage := Published(c.p, c.outcome))]
           == m.flights[id := m.flights[id].(stage := Published(c.p, c.outcome))];
  }

  lemma SettleIdles(m: Machine, c: Call)
    requires c.Report? && !Commits(m, c.p, c.outcome) && AtRest(m)
    ensures Continue(m, SettleSchedule(c)) == m
  {
    hide Continue, Commits, DropSlot, AddSpend, EventOf;
    var q := SettleSchedule(c);
    Runs4(m, q[0], q[1], q[2], q[3]);
  }

  /** In a coherent machine, a report that has passed its rate check commits exactly when the atomic call settles. */
  lemma CommitsWhenSettled(m: Machine, t: Machine, c: Call)
    requires c.Report? && Coherent(m) && RpmAllows(m.shared, c.p, c.clock) && c.p.agentId == c.outcome.agentId
    requires t.shared == Counted(m.shared, c.p, c.clock) && t.flights == m.flights
    requires Clearance(c.p, c.outcome.decisionId) in t.cleared
    ensures Apply(m.shared, c).0
            == if Commits(t, c.p, c.outcome) then SettledBy(t.shared, c.p, c.outcome, c.key, c.clock.day) else t.shared
  {
    hide IndexConsistent, SettledBy, CountHit, RpmAllows;
    if c.outcome.decisionId in m.shared.decisions {
      assert FlightCoherent(m, c.outcome.decisionId);
    }
    hide Coherent;
  }

  lemma ReportRefused(s: State, c: Call)
    requires c.Report? && (c.p.agentId != c.outcome.agentId || !RpmAllows(s, c.p, c.clock))
    ensures Apply(s, c).0 == if c.p.agentId != c.outcome.agentId then s else Counted(s, c.p, c.clock)
  {
    hide RpmAllows, Counted;
  }

  lemma Counting(m: Machine, c: Call)
    requires c.Report?
    ensures var t := Next(m, Step(ReportIncr(c.p, c.outcome.decisionId), c.clock));
            && t.shared == Counted(m.shared, c.p, c.clock) && t.flights == m.flights
            && (RpmAllows(m.shared, c.p, c.clock) ==> Clearance(c.p, c.outcome.decisionId) in t.cleared)
            && (AtRest(m) ==> AtRest(t))
  {
    hide CountHit, RpmAllows;
  }

  /** The steps of a report, taken without interruption from a machine at rest, do what the atomic call does. */
  lemma ReportIsSchedule(m: Machine, c: Call)
    requires c.Report? && Coherent(m) && AtRest(m)
    ensures var t, id := Continue(m, ReportSchedule(m.shared, c)), c.outcome.decisionId;
            && t.shared == Apply(m.shared, c).0
            && (t.flights == m.flights
                || (id in m.flights
                    && t.flights == m.flights[id := m.flights[id].(stage := Published(c.p, c.outcome))]))
  {
    hide Next, Apply, Coherent, Commits, RpmAllows, Counted, SettledBy, AtRest, SettleSchedule, Continue;
    var count := Step(ReportIncr(c.p, c.outcome.decisionId), c.clock);
    var m1 := Next(m, count);
    Counting(m, c);
    RunsOut(m);
    RunsOut(m1);
    Runs1(m, count, []);
    assert [count] + [] == [count];
    if c.p.agentId != c.outcome.agentId || !RpmAllows(m.shared, c.p, c.clock) {
      ReportRefused(m.shared, c);
    } else {
      CommitsWhenSettled(m, m1, c);
      Runs1(m, count, SettleSchedule(c));
      if Commits(m1, c.p, c.outcome) {
        SettleRuns(m1, c);
        CommitsFlight(m1, c);
      } else {
        SettleIdles(m1, c);
      }
    }
  }

  lemma CommitsFlight(m: Machine, c: Call)
    requires c.Report? && Commits(m, c.p, c.outcome)
    ensures c.outcome.decisionId in m.flights
  {
  }

  // ----- whole runs

  /** `uuid4` never repeats an id. */
  ghost predicate DistinctIds(calls: seq<Call>) {
    forall i, j :: 0 <= i < j < |calls| && calls[i].Create? && calls[j].Create? ==> calls[i].id != calls[j].id
  }

  /** Flights belong to creates of the run. */
  ghost predicate Known(m: Machine, calls: seq<Call>) {
    forall id :: id in m.flights ==> exists i :: 0 <= i < |calls| && calls[i].Create? && calls[i].id == id
  }

  lemma NewId(m: Machine, calls: seq<Call>)
    requires calls != [] && DistinctIds(calls) && Known(m, calls[..|calls| - 1])
    ensures calls[|calls| - 1].Create? ==> calls[|calls| - 1].id !in m.flights
  {
  }

  lemma RestStep(m: Machine, c: Call)
    requires Coherent(m) && AtRest(m) && (c.Create? ==> c.id !in m.flights)
    ensures var t := Continue(m, Schedule(m.shared, c));
            && t.shared == Apply(m.shared, c).0 && AtRest(t)
            && forall id :: id in t.flights && id !in m.flights ==> c.Create? && id == c.id
  {
    hide Coherent, Apply, Continue, CreateSchedule, ReportSchedule;
    if c.Create? {
      CreateIsSchedule(m, c);
    } else {
      ReportIsSchedule(m, c);
    }
  }

  lemma StaysKnown(m: Machine, t: Machine, calls: seq<Call>)
    requires calls != [] && Known(m, calls[..|calls| - 1])
    requires forall id :: id in t.flights && id !in m.flights ==>
             calls[|calls| - 1].Create? && id == calls[|calls| - 1].id
    ensures Known(t, calls)
  {
    var n := |calls| - 1;
    forall id | id in t.flights
      ensures exists i :: 0 <= i < |calls| && calls[i].Create? && calls[i].id == id
    {
      if id in m.flights {
        var i :| 0 <= i < n && calls[..n][i].Create? && calls[..n][i].id == id;
        assert calls[i].Create? && calls[i].id == id;
      } else {
        assert calls[n].Create? && calls[n].id == id;
      }
    }
  }

  /** The interleaved machine covers the atomic model: whatever state a run of atomic calls reaches, some sequence of
      single steps reaches it too and leaves no request under way. */
  lemma {:induction false} AtomicRunsAreSchedules(calls: seq<Call>) returns (steps: seq<Step>)
    requires DistinctIds(calls)
    ensures RunSteps(steps).shared == Exec(calls)
    ensures AtRest(RunSteps(steps)) && Known(RunSteps(steps), calls)
  {
    hide Apply, Next, Coherent, Schedule, Continue, AtRest, Known;
    if calls == [] {
      steps := [];
      NothingKnown(calls);
    } else {
      var front, c := calls[..|calls| - 1], calls[|calls| - 1];
      steps := AtomicRunsAreSchedules(front);
      var m := RunSteps(steps);
      ReachableCoherent(steps);
      NewId(m, calls);
      RestStep(m, c);
      ContinueRuns(steps, Schedule(m.shared, c));
      steps := steps + Schedule(m.shared, c);
      StaysKnown(m, RunSteps(steps), calls);
    }
  }

  lemma NothingKnown(calls: seq<Call>)
    ensures AtRest(START) && Known(START, calls)
  {
  }
}
