/**
 The interleaved spend bounds cannot be improved. The runs that reach them follow a plan and keep its decisions in one
 queue: the first are paid, then come those released, those in the table, and those past the budget check. Every budget
 check falls on a day on which nothing is charged yet, and all charges fall on one later day.
 */
module CrowdedWitness {
  import opened Wrappers
  import opened Schemas
  import opened Protocol
  import opened Sums
  import opened AtomicRuns
  import opened Interleaving
  import opened InterleavedSafety
  import opened InterleavedSpend
  import SpendWitness

  type Plan = SpendWitness.Plan

  function IdOf(i: nat): Id { SpendWitness.IdOf(i) }

  lemma IdsDiffer(i: nat, j: nat)
    ensures IdOf(i) == IdOf(j) <==> i == j
  {
    if IdOf(i) == IdOf(j) { SpendWitness.IdsDiffer(i, j); }
  }

  // ----- steps of the plan

  /** The plan's request, its decision, and its report on a decision made so. */
  ghost predicate PlannedStep(plan: Plan, m: Machine, step: Step) {
    match step.act
    case Begin(_, p, request, key) => p == plan.p && request == plan.request && key == None
    case Insert(id, policyId, result) =>
      policyId == plan.policyId && result == Result.Ok(plan.decision)
        && (id in m.flights ==> m.flights[id].p == plan.p && m.flights[id].request == plan.request)
    case Commit(p, o, _) =>
      && p == plan.p && o.decisionId in m.shared.decisions
      && m.shared.decisions[o.decisionId].request == plan.request
      && m.shared.decisions[o.decisionId].response == plan.ResponseFor(o.decisionId)
      && o == plan.OutcomeFor(o.decisionId)
    case _ => true
  }

  ghost predicate PlannedSteps(plan: Plan, steps: seq<Step>) {
    forall i :: 0 <= i < |steps| ==> PlannedStep(plan, RunSteps(steps[..i]), steps[i])
  }

  function FlightOf(plan: Plan, stage: Stage): Flight { Flight(plan.p, plan.request, None, stage) }

  /** The machine with the shared state `s` and the flight of `id` at `stage`. */
  function With(plan: Plan, m: Machine, id: Id, s: State, stage: Stage): Machine {
    m.(shared := s, flights := m.flights[id := FlightOf(plan, stage)])
  }

  lemma Moved(plan: Plan, m: Machine, id: Id, s: State, s': State, a: Stage, b: Stage)
    ensures Move(With(plan, m, id, s, a).(shared := s'), id, b) == With(plan, m, id, s', b)
  {
    assert m.flights[id := FlightOf(plan, a)][id := FlightOf(plan, b)] == m.flights[id := FlightOf(plan, b)];
  }

  // ----- the queue

  datatype Queue = Queue(paid: nat, released: nat, stored: nat, admitted: nat, minute: nat, today: int) {
    predicate Valid() { paid <= released <= stored <= admitted }

    /** Requests past the budget check without a checked slot: those released and those not yet reserving. */
    function Waiting(): int { released - paid + admitted - stored }

    function StageOf(plan: Plan, i: nat): Stage {
      var o := plan.OutcomeFor(IdOf(i));
      if i < paid then Published(plan.p, o)
      else if i < released then Released(plan.p, o)
      else if i < stored then InTable
      else Checked
    }
  }

  ghost predicate FlightsStand(plan: Plan, flights: map<Id, Flight>, q: Queue) {
    forall i: nat :: (IdOf(i) in flights <==> i < q.admitted)
      && (i < q.admitted ==> flights[IdOf(i)] == FlightOf(plan, q.StageOf(plan, i)))
  }

  ghost predicate RowsStand(plan: Plan, s: State, q: Queue) {
    forall i: nat :: i < q.stored ==>
      IdOf(i) in s.decisions && s.decisions[IdOf(i)].response == plan.ResponseFor(IdOf(i))
  }

  ghost predicate SlotsStand(plan: Plan, s: State, q: Queue) {
    var held := Held(s.slots, plan.p.Key());
    (forall i: nat :: IdOf(i) in held <==> q.released <= i < q.stored) && |held| == q.stored - q.released
  }

  ghost predicate CountersStand(plan: Plan, s: State, q: Queue) {
    && (forall day: int ::
          Spent(s.spend, DayKey(plan.p.Key(), day)) == if day == q.today then Times(q.paid, plan.cost) else 0.0)
    && (forall minute: int :: minute >= q.minute ==> Hits(s.rpm, MinuteKey(plan.p.Key(), minute)) == 0)
  }

  ghost predicate ClearedStand(plan: Plan, cleared: set<Clearance>, q: Queue) {
    forall i: nat :: i < q.stored ==> Clearance(plan.p, IdOf(i)) in cleared
  }

  ghost predicate Stands(plan: Plan, m: Machine, q: Queue) {
    && q.Valid() && FlightsStand(plan, m.flights, q) && ClearedStand(plan, m.cleared, q)
    && RowsStand(plan, m.shared, q) && SlotsStand(plan, m.shared, q) && CountersStand(plan, m.shared, q)
    && |WaitingIds(plan.p, m)| == q.Waiting()
  }

  /** The flight of entry `k` moves, or joins at the end; no other entry changes its stage. */
  lemma FlightsMove(plan: Plan, flights: map<Id, Flight>, q: Queue, q': Queue, k: nat)
    requires FlightsStand(plan, flights, q) && k < q'.admitted && q.admitted <= q'.admitted <= q.admitted + 1
    requires q'.admitted > q.admitted ==> k == q.admitted
    requires forall i: nat :: i < q.admitted && i != k ==> q'.StageOf(plan, i) == q.StageOf(plan, i)
    ensures FlightsStand(plan, flights[IdOf(k) := FlightOf(plan, q'.StageOf(plan, k))], q')
  {
    hide IdOf, Queue.StageOf;
    var t := flights[IdOf(k) := FlightOf(plan, q'.StageOf(plan, k))];
    forall i: nat
      ensures (IdOf(i) in t <==> i < q'.admitted)
              && (i < q'.admitted ==> t[IdOf(i)] == FlightOf(plan, q'.StageOf(plan, i)))
    {
      IdsDiffer(i, k);
    }
  }

  /** Moving a flight of the agent moves the number of its waiting requests. */
  lemma WaitingMoves(plan: Plan, m: Machine, id: Id, s: State, stage: Stage)
    requires id in m.flights ==> m.flights[id].p == plan.p
    ensures |WaitingIds(plan.p, With(plan, m, id, s, stage))| ==
            |WaitingIds(plan.p, m)| - (if id in m.flights && InClass(Waiting, m.flights[id].stage) then 1 else 0)
            + (if InClass(Waiting, stage) then 1 else 0)
  {
    hide InClass, Ids, Amounts;
    var t := With(plan, m, id, s, stage);
    ClassMoves(m, t, id, FlightOf(plan, stage), plan.p.Key(), Waiting, AtLimit);
    IdsHold(m, plan.p.Key(), Waiting, id);
  }

  lemma SameWaiting(plan: Plan, m: Machine, t: Machine)
    requires t.flights == m.flights
    ensures |WaitingIds(plan.p, t)| == |WaitingIds(plan.p, m)|
  {
    SameFlights(m, t, plan.p.Key(), Waiting, AtLimit);
  }

  // ----- runs

  /** A run of the plan in the crowd, on one clock, that has come to `m` by the start of `minute`. */
  ghost predicate Reaches(plan: Plan, steps: seq<Step>, w: nat, m: Machine, minute: int) {
    && Crowd(plan.p, steps, w) && PlannedSteps(plan, steps) && ClockedSteps(steps)
    && RunSteps(steps) == m && Coherent(m)
    && (steps != [] ==> steps[|steps| - 1].clock.seconds <= 60.0 * minute as real)
  }

  lemma PlannedOn(plan: Plan, steps: seq<Step>, step: Step)
    requires PlannedSteps(plan, steps) && PlannedStep(plan, RunSteps(steps), step)
    ensures PlannedSteps(plan, steps + [step])
  {
    hide RunSteps, PlannedStep;
    var longer := steps + [step];
    assert longer[..|steps|] == steps;
    forall i | 0 <= i < |longer|
      ensures PlannedStep(plan, RunSteps(longer[..i]), longer[i])
    {
      if i < |steps| {
        assert longer[..i] == steps[..i];
      }
    }
  }

  lemma ClockedOn(steps: seq<Step>, step: Step)
    requires ClockedSteps(steps) && step.clock.Consistent()
    requires steps != [] ==> steps[|steps| - 1].clock.seconds <= step.clock.seconds
    ensures ClockedSteps(steps + [step]) && (steps != [] ==> steps[|steps| - 1].clock.day <= step.clock.day)
  {
    hide Clock.Consistent;
    if steps != [] {
      assert steps[|steps| - 1] in steps;
      SpendWitness.DaysFollowSeconds(steps[|steps| - 1].clock, step.clock);
    }
    var longer := steps + [step];
    forall i, j | 0 <= i < j < |longer|
      ensures longer[i].clock.seconds <= longer[j].clock.seconds
    {
      if j == |steps| && i < |steps| - 1 {
        assert steps[i].clock.seconds <= steps[|steps| - 1].clock.seconds;
      }
    }
  }

  lemma CrowdOn(p: Principal, steps: seq<Step>, w: nat, step: Step)
    requires Crowd(p, steps, w) && ProperStep(p, step) && |WaitingIds(p, Next(RunSteps(steps), step))| <= w
    requires steps != [] ==> steps[|steps| - 1].clock.day <= step.clock.day
    ensures Crowd(p, steps + [step], w) && RunSteps(steps + [step]) == Next(RunSteps(steps), step)
  {
    hide Next, ProperStep, WaitingIds;
    var longer := steps + [step];
    assert longer[..|longer| - 1] == steps && longer[|longer| - 1] == step;
  }

  lemma StepOn(plan: Plan, steps: seq<Step>, w: nat, m: Machine, minute: int, act: Act, t: Machine)
    returns (longer: seq<Step>)
    requires Reaches(plan, steps, w, m, minute) && PlannedStep(plan, m, Step(act, AtMinute(minute)))
    requires ProperStep(plan.p, Step(act, AtMinute(minute)))
    requires Next(m, Step(act, AtMinute(minute))) == t && |WaitingIds(plan.p, t)| <= w
    ensures Reaches(plan, longer, w, t, minute)
  {
    hide Next, PlannedStep, PlannedSteps, ProperStep, WaitingIds, Coherent, Crowd, ClockedSteps, Clock.Consistent,
      RunSteps;
    var step := Step(act, AtMinute(minute));
    AtMinuteReads(minute);
    ClockedOn(steps, step);
    CrowdOn(plan.p, steps, w, step);
    PlannedOn(plan, steps, step);
    CoherentStep(m, step);
    longer := steps + [step];
  }

  lemma WaitUntil(plan: Plan, steps: seq<Step>, w: nat, m: Machine, minute: int, later: int)
    requires Reaches(plan, steps, w, m, minute) && minute <= later
    ensures Reaches(plan, steps, w, m, later)
  {
    hide Crowd, PlannedSteps, ClockedSteps, RunSteps, Coherent;
  }

  /** The steps of a create, and those a report takes once it has passed its rate check, are proper and planned. */
  lemma StepsFit(plan: Plan, m: Machine, id: Id, clock: Clock)
    requires plan.Valid()
    ensures ProperStep(plan.p, Step(Begin(id, plan.p, plan.request, None), clock))
            && ProperStep(plan.p, Step(Incr(id), clock))
    ensures ProperStep(plan.p, Step(ReadBudget(id, true), clock)) && ProperStep(plan.p, Step(Sadd(id), clock))
    ensures ProperStep(plan.p, Step(Scard(id), clock))
            && ProperStep(plan.p, Step(Insert(id, plan.policyId, Result.Ok(plan.decision)), clock))
    ensures ProperStep(plan.p, Step(ReportIncr(plan.p, id), clock))
            && ProperStep(plan.p, Step(Commit(plan.p, plan.OutcomeFor(id), None), clock))
    ensures ProperStep(plan.p, Step(Srem(id), clock)) && ProperStep(plan.p, Step(IncrSpend(id), clock))
    ensures ProperStep(plan.p, Step(Xadd(id), clock))
    ensures PlannedStep(plan, m, Step(Begin(id, plan.p, plan.request, None), clock))
            && PlannedStep(plan, m, Step(Incr(id), clock))
    ensures PlannedStep(plan, m, Step(ReadBudget(id, true), clock)) && PlannedStep(plan, m, Step(Sadd(id), clock))
    ensures PlannedStep(plan, m, Step(Scard(id), clock)) && PlannedStep(plan, m, Step(ReportIncr(plan.p, id), clock))
    ensures PlannedStep(plan, m, Step(Srem(id), clock)) && PlannedStep(plan, m, Step(IncrSpend(id), clock))
    ensures PlannedStep(plan, m, Step(Xadd(id), clock))
  {
  }

  // ----- one request more past the budget check

  lemma AdmitSteps(plan: Plan, m: Machine, q: Queue, id: Id)
    requires plan.Valid() && CountersStand(plan, m.shared, q) && q.paid == 0 && id !in m.flights
    ensures var clock, s := AtMinute(q.minute), Counted(m.shared, plan.p, AtMinute(q.minute));
            && Next(m, Step(Begin(id, plan.p, plan.request, None), clock)) == With(plan, m, id, m.shared, Looked)
            && Next(With(plan, m, id, m.shared, Looked), Step(Incr(id), clock)) == With(plan, m, id, s, Admitted)
            && Next(With(plan, m, id, s, Admitted), Step(ReadBudget(id, true), clock)) == With(plan, m, id, s, Checked)
  {
    hide Hits, CountHit, Spent, AtMinute;
    AtMinuteReads(q.minute);
    var s := Counted(m.shared, plan.p, AtMinute(q.minute));
    Moved(plan, m, id, m.shared, s, Looked, Admitted);
    Moved(plan, m, id, s, s, Admitted, Checked);
  }

  lemma CountedStands(plan: Plan, s: State, q: Queue)
    requires SlotsStand(plan, s, q) && CountersStand(plan, s, q) && RowsStand(plan, s, q)
    ensures var t, q' := Counted(s, plan.p, AtMinute(q.minute)), q.(minute := q.minute + 1);
            SlotsStand(plan, t, q') && CountersStand(plan, t, q') && RowsStand(plan, t, q')
  {
    hide Held, Spent, IdOf, AtMinute;
    AtMinuteReads(q.minute);
  }

  function AdmitTo(plan: Plan, m: Machine, q: Queue): Machine {
    With(plan, m, IdOf(q.admitted), Counted(m.shared, plan.p, AtMinute(q.minute)), Checked)
  }

  lemma AdmitRuns(plan: Plan, steps: seq<Step>, w: nat, m: Machine, q: Queue) returns (longer: seq<Step>)
    requires plan.Valid() && Reaches(plan, steps, w, m, q.minute) && |WaitingIds(plan.p, m)| < w
    requires q.paid == 0 && CountersStand(plan, m.shared, q) && IdOf(q.admitted) !in m.flights
    ensures Reaches(plan, longer, w, AdmitTo(plan, m, q), q.minute + 1)
  {
    hide Next, PlannedStep, ProperStep, Reaches, WaitingIds, Counted, CountersStand, With, AtMinute, Plan.Valid, IdOf;
    var id, clock, p := IdOf(q.admitted), AtMinute(q.minute), plan.p;
    var s := Counted(m.shared, p, clock);
    var m1, m2, t := With(plan, m, id, m.shared, Looked), With(plan, m, id, s, Admitted), With(plan, m, id, s, Checked);
    AdmitSteps(plan, m, q, id);
    WaitingMoves(plan, m, id, m.shared, Looked);
    WaitingMoves(plan, m, id, s, Admitted);
    WaitingMoves(plan, m, id, s, Checked);
    StepsFit(plan, m, id, clock);
    StepsFit(plan, m1, id, clock);
    StepsFit(plan, m2, id, clock);
    longer := StepOn(plan, steps, w, m, q.minute, Begin(id, p, plan.request, None), m1);
    longer := StepOn(plan, longer, w, m1, q.minute, Incr(id), m2);
    longer := StepOn(plan, longer, w, m2, q.minute, ReadBudget(id, true), t);
    WaitUntil(plan, longer, w, t, q.minute, q.minute + 1);
  }

  lemma AdmitStands(plan: Plan, m: Machine, q: Queue)
    requires Stands(plan, m, q)
    ensures Stands(plan, AdmitTo(plan, m, q), q.(admitted := q.admitted + 1, minute := q.minute + 1))
  {
    hide WaitingIds, Counted, RowsStand, SlotsStand, CountersStand, ClearedStand, With, AtMinute, IdOf;
    var id, s, q1 := IdOf(q.admitted), Counted(m.shared, plan.p, AtMinute(q.minute)), q.(minute := q.minute + 1);
    assert id !in m.flights;
    WaitingMoves(plan, m, id, s, Checked);
    FlightsMove(plan, m.flights, q, q1.(admitted := q.admitted + 1), q.admitted);
    CountedStands(plan, m.shared, q);
    LongerQueue(plan, s, q1);
    PartsOf(plan, m, id, s, Checked);
    ClearedAlone(plan, m.cleared, q, q1.(admitted := q.admitted + 1));
  }

  lemma ClearedAlone(plan: Plan, cleared: set<Clearance>, q: Queue, q': Queue)
    requires ClearedStand(plan, cleared, q) && q'.stored == q.stored
    ensures ClearedStand(plan, cleared, q')
  {
    hide IdOf;
  }

  lemma Admit(plan: Plan, steps: seq<Step>, w: nat, m: Machine, q: Queue) returns (longer: seq<Step>, t: Machine)
    requires plan.Valid() && Reaches(plan, steps, w, m, q.minute) && Stands(plan, m, q) && q.paid == 0
             && q.Waiting() < w
    ensures var q' := q.(admitted := q.admitted + 1, minute := q.minute + 1);
            Reaches(plan, longer, w, t, q'.minute) && Stands(plan, t, q')
  {
    AdmitStands(plan, m, q);
    hide Reaches, WaitingIds, RowsStand, SlotsStand, CountersStand, ClearedStand, AdmitTo, Plan.Valid, IdOf;
    t := AdmitTo(plan, m, q);
    longer := AdmitRuns(plan, steps, w, m, q);
  }

  /** What is stored and counted does not depend on who else is past the budget check. */
  lemma LongerQueue(plan: Plan, s: State, q: Queue)
    requires SlotsStand(plan, s, q) && CountersStand(plan, s, q) && RowsStand(plan, s, q)
    ensures var q' := q.(admitted := q.admitted + 1);
            SlotsStand(plan, s, q') && CountersStand(plan, s, q') && RowsStand(plan, s, q')
  {
    hide Held, Spent, Hits, IdOf;
  }

  lemma PartsOf(plan: Plan, m: Machine, id: Id, s: State, stage: Stage)
    ensures With(plan, m, id, s, stage).shared == s && With(plan, m, id, s, stage).cleared == m.cleared
    ensures With(plan, m, id, s, stage).flights == m.flights[id := FlightOf(plan, stage)]
  {
  }

  // ----- the next one takes a slot and is stored; its report passes the rate check

  lemma NoRowYet(m: Machine, id: Id)
    requires Coherent(m) && At(m, id, Checked)
    ensures id !in m.shared.decisions
  {
    assert FlightCoherent(m, id);
  }

  lemma ReserveSteps(plan: Plan, m: Machine, id: Id, clock: Clock)
    requires id in m.flights && m.flights[id] == FlightOf(plan, Checked)
    requires |Held(m.shared.slots, plan.p.Key()) + {id}| <= plan.p.concurrentLimit
    ensures var s := m.shared.(slots := AddSlot(m.shared.slots, plan.p.Key(), id));
            && Next(m, Step(Sadd(id), clock)) == With(plan, m, id, s, Added)
            && Next(With(plan, m, id, s, Added), Step(Scard(id), clock)) == With(plan, m, id, s, Holding)
  {
    hide Held, AddSlot;
    HeldAfterAdd(m.shared.slots, plan.p.Key(), id);
    var s := m.shared.(slots := AddSlot(m.shared.slots, plan.p.Key(), id));
    Moved(plan, m, id, s, s, Added, Holding);
  }

  lemma InsertStep(plan: Plan, m: Machine, id: Id, s: State, clock: Clock)
    requires id !in s.decisions
    ensures Next(With(plan, m, id, s, Holding), Step(Insert(id, plan.policyId, Result.Ok(plan.decision)), clock))
            == With(plan, m, id, Stored(s, plan.p, plan.request, None, plan.ResponseFor(id)), InTable)
    ensures PlannedStep(plan, With(plan, m, id, s, Holding),
                        Step(Insert(id, plan.policyId, Result.Ok(plan.decision)), clock))
  {
    hide Stored;
    Moved(plan, m, id, s, Stored(s, plan.p, plan.request, None, plan.ResponseFor(id)), Holding, InTable);
  }

  lemma ClearStep(plan: Plan, m: Machine, id: Id, q: Queue)
    requires plan.Valid() && CountersStand(plan, m.shared, q)
    ensures Next(m, Step(ReportIncr(plan.p, id), AtMinute(q.minute)))
            == m.(shared := Counted(m.shared, plan.p, AtMinute(q.minute)),
                  cleared := m.cleared + {Clearance(plan.p, id)})
  {
    hide CountHit, Hits, Spent, AtMinute;
    AtMinuteReads(q.minute);
  }

  lemma EnterStands(plan: Plan, s: State, q: Queue)
    requires SlotsStand(plan, s, q) && CountersStand(plan, s, q) && RowsStand(plan, s, q) && q.Valid()
    ensures var id := IdOf(q.stored);
            |Held(s.slots, plan.p.Key()) + {id}| == q.stored - q.released + 1
    ensures var id := IdOf(q.stored);
            var t := Stored(s.(slots := AddSlot(s.slots, plan.p.Key(), id)), plan.p, plan.request, None,
                            plan.ResponseFor(id));
            var q' := q.(stored := q.stored + 1);
            SlotsStand(plan, t, q') && CountersStand(plan, t, q') && RowsStand(plan, t, q')
  {
    hide Spent, Hits, IdOf;
    var id, held := IdOf(q.stored), Held(s.slots, plan.p.Key());
    HeldAfterAdd(s.slots, plan.p.Key(), id);
    assert id !in held;
    forall i: nat
      ensures IdOf(i) in held + {id} <==> q.released <= i < q.stored + 1
    {
      IdsDiffer(i, q.stored);
    }
  }

  lemma ClearedMore(plan: Plan, cleared: set<Clearance>, q: Queue)
    requires ClearedStand(plan, cleared, q)
    ensures ClearedStand(plan, cleared + {Clearance(plan.p, IdOf(q.stored))}, q.(stored := q.stored + 1))
  {
    hide IdOf;
  }

  function EnterTo(plan: Plan, m: Machine, q: Queue): Machine {
    var id := IdOf(q.stored);
    var s := Stored(m.shared.(slots := AddSlot(m.shared.slots, plan.p.Key(), id)), plan.p, plan.request, None,
                    plan.ResponseFor(id));
    With(plan, m, id, Counted(s, plan.p, AtMinute(q.minute)), InTable).(cleared := m.cleared + {Clearance(plan.p, id)})
  }

  lemma EnterRuns(plan: Plan, steps: seq<Step>, w: nat, m: Machine, q: Queue) returns (longer: seq<Step>)
    requires plan.Valid() && Reaches(plan, steps, w, m, q.minute) && |WaitingIds(plan.p, m)| <= w
    requires IdOf(q.stored) in m.flights && m.flights[IdOf(q.stored)] == FlightOf(plan, Checked)
    requires q.Valid() && SlotsStand(plan, m.shared, q) && CountersStand(plan, m.shared, q)
             && RowsStand(plan, m.shared, q)
    requires q.stored - q.released < plan.p.concurrentLimit
    ensures Reaches(plan, longer, w, EnterTo(plan, m, q), q.minute + 1)
  {
    hide Next, PlannedStep, ProperStep, Reaches, WaitingIds, Stored, AddSlot, Held, Counted, RowsStand, SlotsStand,
      CountersStand, With, AtMinute, Plan.Valid, Coherent, IdOf;
    var id, p, clock := IdOf(q.stored), plan.p, AtMinute(q.minute);
    var s1 := m.shared.(slots := AddSlot(m.shared.slots, p.Key(), id));
    var s2 := Stored(s1, p, plan.request, None, plan.ResponseFor(id));
    var m1, m2, m3 := With(plan, m, id, s1, Added), With(plan, m, id, s1, Holding), With(plan, m, id, s2, InTable);
    EnterStands(plan, m.shared, q);
    ReachesCoherent(plan, steps, w, m, q.minute);
    NoRowYet(m, id);
    ReserveSteps(plan, m, id, clock);
    InsertStep(plan, m, id, s1, clock);
    WaitingMoves(plan, m, id, s1, Added);
    WaitingMoves(plan, m, id, s1, Holding);
    WaitingMoves(plan, m, id, s2, InTable);
    StepsFit(plan, m, id, clock);
    StepsFit(plan, m1, id, clock);
    longer := StepOn(plan, steps, w, m, q.minute, Sadd(id), m1);
    longer := StepOn(plan, longer, w, m1, q.minute, Scard(id), m2);
    longer := StepOn(plan, longer, w, m2, q.minute, Insert(id, plan.policyId, Result.Ok(plan.decision)), m3);
    PartsOf(plan, m, id, s2, InTable);
    longer := Clears(plan, longer, w, m3, q.(stored := q.stored + 1), id);
    ClearedWith(plan, m, id, s2, Counted(s2, p, clock));
  }

  lemma ClearedWith(plan: Plan, m: Machine, id: Id, s: State, s': State)
    ensures With(plan, m, id, s, InTable).(shared := s', cleared := m.cleared + {Clearance(plan.p, id)})
            == With(plan, m, id, s', InTable).(cleared := m.cleared + {Clearance(plan.p, id)})
  {
  }

  lemma Clears(plan: Plan, steps: seq<Step>, w: nat, m: Machine, q: Queue, id: Id) returns (longer: seq<Step>)
    requires plan.Valid() && Reaches(plan, steps, w, m, q.minute) && |WaitingIds(plan.p, m)| <= w
             && CountersStand(plan, m.shared, q)
    ensures var t := m.(shared := Counted(m.shared, plan.p, AtMinute(q.minute)),
                        cleared := m.cleared + {Clearance(plan.p, id)});
            Reaches(plan, longer, w, t, q.minute + 1)
  {
    hide Next, PlannedStep, ProperStep, Reaches, WaitingIds, Counted, CountersStand, AtMinute, Plan.Valid;
    var t := m.(shared := Counted(m.shared, plan.p, AtMinute(q.minute)),
                cleared := m.cleared + {Clearance(plan.p, id)});
    ClearStep(plan, m, id, q);
    SameWaiting(plan, m, t);
    StepsFit(plan, m, id, AtMinute(q.minute));
    longer := StepOn(plan, steps, w, m, q.minute, ReportIncr(plan.p, id), t);
    WaitUntil(plan, longer, w, t, q.minute, q.minute + 1);
  }

  lemma EntersStanding(plan: Plan, m: Machine, q: Queue)
    requires Stands(plan, m, q) && q.stored < q.admitted
    ensures Stands(plan, EnterTo(plan, m, q), q.(stored := q.stored + 1, minute := q.minute + 1))
  {
    hide WaitingIds, Stored, AddSlot, Held, Counted, RowsStand, SlotsStand, CountersStand, ClearedStand, With, AtMinute,
      IdOf;
    var id, q1 := IdOf(q.stored), q.(stored := q.stored + 1);
    var q' := q1.(minute := q.minute + 1);
    var s := Stored(m.shared.(slots := AddSlot(m.shared.slots, plan.p.Key(), id)), plan.p, plan.request, None,
                    plan.ResponseFor(id));
    var s' := Counted(s, plan.p, AtMinute(q.minute));
    EnterStands(plan, m.shared, q);
    CountedStands(plan, s, q1);
    WaitingMoves(plan, m, id, s', InTable);
    PartsOf(plan, m, id, s', InTable);
    SameWaiting(plan, With(plan, m, id, s', InTable), EnterTo(plan, m, q));
    FlightsMove(plan, m.flights, q, q', q.stored);
    ClearedMore(plan, m.cleared, q);
    ClearedAlone(plan, m.cleared + {Clearance(plan.p, id)}, q1, q');
  }

  lemma Enter(plan: Plan, steps: seq<Step>, w: nat, m: Machine, q: Queue) returns (longer: seq<Step>, t: Machine)
    requires plan.Valid() && Reaches(plan, steps, w, m, q.minute) && Stands(plan, m, q) && q.Waiting() <= w
    requires q.stored < q.admitted && q.stored - q.released < plan.p.concurrentLimit
    ensures var q' := q.(stored := q.stored + 1, minute := q.minute + 1);
            Reaches(plan, longer, w, t, q'.minute) && Stands(plan, t, q')
  {
    EntersStanding(plan, m, q);
    hide Reaches, WaitingIds, RowsStand, SlotsStand, CountersStand, ClearedStand, EnterTo, Plan.Valid, IdOf;
    t := EnterTo(plan, m, q);
    longer := EnterRuns(plan, steps, w, m, q);
  }

  lemma ReachesCoherent(plan: Plan, steps: seq<Step>, w: nat, m: Machine, minute: int)
    requires Reaches(plan, steps, w, m, minute)
    ensures Coherent(m)
  {
    hide Coherent, Crowd, PlannedSteps, ClockedSteps, RunSteps;
  }

  // ----- the next decision is settled and gives its slot back

  lemma RowIsOpen(plan: Plan, m: Machine, id: Id)
    requires plan.Valid() && Coherent(m) && id in m.flights && m.flights[id] == FlightOf(plan, InTable)
    requires Clearance(plan.p, id) in m.cleared
    ensures id in m.shared.decisions && m.shared.decisions[id].request == plan.request
            && Commits(m, plan.p, plan.OutcomeFor(id))
  {
    assert FlightCoherent(m, id);
    hide Coherent;
  }

  function CommittedState(plan: Plan, s: State, id: Id): State
    requires id in s.decisions
  {
    s.(decisions := s.decisions[id := CompletedRecord(s.decisions[id], plan.OutcomeFor(id), None)],
       attemptRows := s.attemptRows[id := plan.OutcomeFor(id).attempts])
  }

  lemma ReleaseSteps(plan: Plan, m: Machine, id: Id, clock: Clock)
    requires id in m.flights && m.flights[id] == FlightOf(plan, InTable)
    requires id in m.shared.decisions && Commits(m, plan.p, plan.OutcomeFor(id))
    ensures var o, s := plan.OutcomeFor(id), CommittedState(plan, m.shared, id);
            && Next(m, Step(Commit(plan.p, o, None), clock)) == With(plan, m, id, s, Committed(plan.p, o))
            && Next(With(plan, m, id, s, Committed(plan.p, o)), Step(Srem(id), clock))
               == With(plan, m, id, s.(slots := DropSlot(s.slots, plan.p.Key(), id)), Released(plan.p, o))
  {
    hide Commits, CompletedRecord, DropSlot;
    var o, s := plan.OutcomeFor(id), CommittedState(plan, m.shared, id);
    Moved(plan, m, id, s, s.(slots := DropSlot(s.slots, plan.p.Key(), id)), Committed(plan.p, o), Released(plan.p, o));
  }

  lemma ReleaseStands(plan: Plan, s: State, q: Queue)
    requires SlotsStand(plan, s, q) && CountersStand(plan, s, q) && RowsStand(plan, s, q) && q.Valid()
             && q.released < q.stored
    ensures var id := IdOf(q.released);
            && id in s.decisions && s.decisions[id].response == plan.ResponseFor(id)
            && var t, q' := CommittedState(plan, s, id).(slots := DropSlot(s.slots, plan.p.Key(), id)),
               q.(released := q.released + 1);
            SlotsStand(plan, t, q') && CountersStand(plan, t, q') && RowsStand(plan, t, q')
  {
    hide Spent, Hits, IdOf;
    var id, held := IdOf(q.released), Held(s.slots, plan.p.Key());
    HeldAfterDrop(s.slots, plan.p.Key(), id, plan.p.Key());
    assert id in held;
    forall i: nat
      ensures IdOf(i) in held - {id} <==> q.released + 1 <= i < q.stored
    {
      IdsDiffer(i, q.released);
    }
  }

  lemma CommitPlanned(plan: Plan, m: Machine, id: Id, clock: Clock)
    requires id in m.shared.decisions && m.shared.decisions[id].request == plan.request
    requires m.shared.decisions[id].response == plan.ResponseFor(id)
    ensures PlannedStep(plan, m, Step(Commit(plan.p, plan.OutcomeFor(id), None), clock))
  {
  }

  function ReleaseTo(plan: Plan, m: Machine, q: Queue): Machine
    requires IdOf(q.released) in m.shared.decisions
  {
    var id := IdOf(q.released);
    var s := CommittedState(plan, m.shared, id).(slots := DropSlot(m.shared.slots, plan.p.Key(), id));
    With(plan, m, id, s, Released(plan.p, plan.OutcomeFor(id)))
  }

  lemma ReleaseRuns(plan: Plan, steps: seq<Step>, w: nat, m: Machine, q: Queue) returns (longer: seq<Step>)
    requires plan.Valid() && Reaches(plan, steps, w, m, q.minute) && |WaitingIds(plan.p, m)| < w
    requires var id := IdOf(q.released);
             && id in m.flights && m.flights[id] == FlightOf(plan, InTable) && Clearance(plan.p, id) in m.cleared
             && id in m.shared.decisions && m.shared.decisions[id].response == plan.ResponseFor(id)
    ensures Reaches(plan, longer, w, ReleaseTo(plan, m, q), q.minute)
  {
    hide Next, PlannedStep, ProperStep, Reaches, WaitingIds, CommittedState, DropSlot, Commits, With, AtMinute,
      Plan.Valid, Coherent, IdOf;
    var id, p, clock := IdOf(q.released), plan.p, AtMinute(q.minute);
    var o := plan.OutcomeFor(id);
    ReachesCoherent(plan, steps, w, m, q.minute);
    RowIsOpen(plan, m, id);
    CommitPlanned(plan, m, id, clock);
    ReleaseSteps(plan, m, id, clock);
    var s := CommittedState(plan, m.shared, id);
    SlotsOf(plan, m.shared, id);
    var s2 := s.(slots := DropSlot(m.shared.slots, p.Key(), id));
    var m1, t := With(plan, m, id, s, Committed(p, o)), With(plan, m, id, s2, Released(p, o));
    WaitingMoves(plan, m, id, s, Committed(p, o));
    WaitingMoves(plan, m, id, s2, Released(p, o));
    StepsFit(plan, m, id, clock);
    StepsFit(plan, m1, id, clock);
    longer := StepOn(plan, steps, w, m, q.minute, Commit(p, o, None), m1);
    longer := StepOn(plan, longer, w, m1, q.minute, Srem(id), t);
  }

  lemma ReleasesStanding(plan: Plan, m: Machine, q: Queue)
    requires Stands(plan, m, q) && q.released < q.stored
    ensures var id := IdOf(q.released);
            && id in m.flights && m.flights[id] == FlightOf(plan, InTable) && Clearance(plan.p, id) in m.cleared
            && id in m.shared.decisions && m.shared.decisions[id].response == plan.ResponseFor(id)
    ensures Stands(plan, ReleaseTo(plan, m, q), q.(released := q.released + 1))
  {
    hide WaitingIds, CommittedState, DropSlot, RowsStand, SlotsStand, CountersStand, With, IdOf;
    var id, o, q' := IdOf(q.released), plan.OutcomeFor(IdOf(q.released)), q.(released := q.released + 1);
    ReleaseStands(plan, m.shared, q);
    var s := CommittedState(plan, m.shared, id).(slots := DropSlot(m.shared.slots, plan.p.Key(), id));
    WaitingMoves(plan, m, id, s, Released(plan.p, o));
    PartsOf(plan, m, id, s, Released(plan.p, o));
    FlightsMove(plan, m.flights, q, q', q.released);
  }

  lemma Release(plan: Plan, steps: seq<Step>, w: nat, m: Machine, q: Queue) returns (longer: seq<Step>, t: Machine)
    requires plan.Valid() && Reaches(plan, steps, w, m, q.minute) && Stands(plan, m, q) && q.released < q.stored
             && q.Waiting() < w
    ensures Reaches(plan, longer, w, t, q.minute) && Stands(plan, t, q.(released := q.released + 1))
  {
    ReleasesStanding(plan, m, q);
    hide Reaches, WaitingIds, RowsStand, SlotsStand, CountersStand, ClearedStand, FlightsStand, ReleaseTo, Plan.Valid,
      IdOf;
    t := ReleaseTo(plan, m, q);
    longer := ReleaseRuns(plan, steps, w, m, q);
  }

  lemma SlotsOf(plan: Plan, s: State, id: Id)
    requires id in s.decisions
    ensures CommittedState(plan, s, id).slots == s.slots
  {
  }

  // ----- the next released one is charged and announced

  lemma PaySteps(plan: Plan, m: Machine, id: Id, clock: Clock)
    requires id in m.flights && m.flights[id] == FlightOf(plan, Released(plan.p, plan.OutcomeFor(id)))
    ensures var o := plan.OutcomeFor(id);
            var s := m.shared.(spend := AddSpend(m.shared.spend, DayKey(plan.p.Key(), clock.day), plan.cost));
            && Next(m, Step(IncrSpend(id), clock)) == With(plan, m, id, s, Charged(plan.p, o))
            && Next(With(plan, m, id, s, Charged(plan.p, o)), Step(Xadd(id), clock))
               == With(plan, m, id, s.(events := s.events + [EventOf(plan.p, o)]), Published(plan.p, o))
  {
    hide AddSpend, EventOf;
    var o := plan.OutcomeFor(id);
    var s := m.shared.(spend := AddSpend(m.shared.spend, DayKey(plan.p.Key(), clock.day), plan.cost));
    Moved(plan, m, id, s, s.(events := s.events + [EventOf(plan.p, o)]), Charged(plan.p, o), Published(plan.p, o));
  }

  lemma PayStands(plan: Plan, s: State, events: seq<OutcomeEvent>, q: Queue)
    requires SlotsStand(plan, s, q) && CountersStand(plan, s, q) && RowsStand(plan, s, q)
    ensures var t, q' := s.(spend := AddSpend(s.spend, DayKey(plan.p.Key(), q.today), plan.cost), events := events),
            q.(paid := q.paid + 1);
            SlotsStand(plan, t, q') && CountersStand(plan, t, q') && RowsStand(plan, t, q')
  {
    hide Held, IdOf, Hits;
  }

  function PayTo(plan: Plan, m: Machine, q: Queue): Machine {
    var id := IdOf(q.paid);
    var s := m.shared.(spend := AddSpend(m.shared.spend, DayKey(plan.p.Key(), q.today), plan.cost),
                       events := m.shared.events + [EventOf(plan.p, plan.OutcomeFor(id))]);
    With(plan, m, id, s, Published(plan.p, plan.OutcomeFor(id)))
  }

  lemma PayRuns(plan: Plan, steps: seq<Step>, w: nat, m: Machine, q: Queue) returns (longer: seq<Step>)
    requires plan.Valid() && Reaches(plan, steps, w, m, q.minute) && |WaitingIds(plan.p, m)| <= w
    requires IdOf(q.paid) in m.flights
             && m.flights[IdOf(q.paid)] == FlightOf(plan, Released(plan.p, plan.OutcomeFor(IdOf(q.paid))))
    requires q.minute / MINUTES_A_DAY == q.today
    ensures Reaches(plan, longer, w, PayTo(plan, m, q), q.minute)
  {
    hide Next, PlannedStep, ProperStep, Reaches, WaitingIds, AddSpend, EventOf, With, Plan.Valid, IdOf;
    var id, p, clock := IdOf(q.paid), plan.p, AtMinute(q.minute);
    var o := plan.OutcomeFor(id);
    var s1 := m.shared.(spend := AddSpend(m.shared.spend, DayKey(p.Key(), q.today), plan.cost));
    var s2 := s1.(events := s1.events + [EventOf(p, o)]);
    var m1, t := With(plan, m, id, s1, Charged(p, o)), With(plan, m, id, s2, Published(p, o));
    PaySteps(plan, m, id, clock);
    WaitingMoves(plan, m, id, s1, Charged(p, o));
    WaitingMoves(plan, m, id, s2, Published(p, o));
    StepsFit(plan, m, id, clock);
    StepsFit(plan, m1, id, clock);
    longer := StepOn(plan, steps, w, m, q.minute, IncrSpend(id), m1);
    longer := StepOn(plan, longer, w, m1, q.minute, Xadd(id), t);
  }

  lemma PaysStanding(plan: Plan, m: Machine, q: Queue)
    requires Stands(plan, m, q) && q.paid < q.released
    ensures IdOf(q.paid) in m.flights
            && m.flights[IdOf(q.paid)] == FlightOf(plan, Released(plan.p, plan.OutcomeFor(IdOf(q.paid))))
    ensures Stands(plan, PayTo(plan, m, q), q.(paid := q.paid + 1))
  {
    hide WaitingIds, AddSpend, EventOf, RowsStand, SlotsStand, CountersStand, ClearedStand, With, IdOf;
    var id, o, q' := IdOf(q.paid), plan.OutcomeFor(IdOf(q.paid)), q.(paid := q.paid + 1);
    var s := m.shared.(spend := AddSpend(m.shared.spend, DayKey(plan.p.Key(), q.today), plan.cost),
                       events := m.shared.events + [EventOf(plan.p, o)]);
    WaitingMoves(plan, m, id, s, Published(plan.p, o));
    PayStands(plan, m.shared, s.events, q);
    PartsOf(plan, m, id, s, Published(plan.p, o));
    FlightsMove(plan, m.flights, q, q', q.paid);
    ClearedAlone(plan, m.cleared, q, q');
  }

  lemma Pay(plan: Plan, steps: seq<Step>, w: nat, m: Machine, q: Queue) returns (longer: seq<Step>, t: Machine)
    requires plan.Valid() && Reaches(plan, steps, w, m, q.minute) && Stands(plan, m, q) && q.paid < q.released
             && q.Waiting() <= w
    requires q.minute / MINUTES_A_DAY == q.today
    ensures Reaches(plan, longer, w, t, q.minute) && Stands(plan, t, q.(paid := q.paid + 1))
  {
    PaysStanding(plan, m, q);
    hide Reaches, WaitingIds, RowsStand, SlotsStand, CountersStand, ClearedStand, FlightsStand, PayTo, Plan.Valid, IdOf;
    t := PayTo(plan, m, q);
    longer := PayRuns(plan, steps, w, m, q);
  }

  // ----- whole runs

  lemma EmptyStands(plan: Plan, w: nat)
    ensures Reaches(plan, [], w, START, 0) && Stands(plan, START, Queue(0, 0, 0, 0, 0, 0))
  {
    assert Ids(START, plan.p.Key(), Waiting) == {};
    ReachableCoherent([]);
    assert RunSteps([]) == START;
  }

  lemma AtLeastOneSlot(plan: Plan)
    requires plan.Valid()
    ensures plan.p.concurrentLimit >= 1
  {
  }

  /** With one request waiting at a time, `n` decisions are opened before any is settled. */
  lemma {:induction false} OpenSome(plan: Plan, w: nat, n: nat) returns (steps: seq<Step>, m: Machine, q: Queue)
    requires plan.Valid() && w >= 1 && n <= plan.p.concurrentLimit
    ensures Reaches(plan, steps, w, m, q.minute) && Stands(plan, m, q)
    ensures q.paid == q.released == 0 && q.stored == q.admitted == n
  {
    hide Reaches, Stands, Plan.Valid;
    if n == 0 {
      EmptyStands(plan, w);
      steps, m, q := [], START, Queue(0, 0, 0, 0, 0, 0);
    } else {
      steps, m, q := OpenSome(plan, w, n - 1);
      steps, m := Admit(plan, steps, w, m, q);
      q := q.(admitted := q.admitted + 1, minute := q.minute + 1);
      steps, m := Enter(plan, steps, w, m, q);
      q := q.(stored := q.stored + 1, minute := q.minute + 1);
    }
  }

  /** Decision after decision gives its slot back, waits for its charge, and lets another take the slot. */
  lemma {:induction false} Churn(plan: Plan, w: nat, r: nat) returns (steps: seq<Step>, m: Machine, q: Queue)
    requires plan.Valid() && r < w
    ensures Reaches(plan, steps, w, m, q.minute) && Stands(plan, m, q)
    ensures q.paid == 0 && q.released == r && q.stored == q.admitted == plan.p.concurrentLimit + r
  {
    hide Reaches, Stands, Plan.Valid;
    AtLeastOneSlot(plan);
    if r == 0 {
      steps, m, q := OpenSome(plan, w, plan.p.concurrentLimit);
    } else {
      steps, m, q := Churn(plan, w, r - 1);
      steps, m := Release(plan, steps, w, m, q);
      q := q.(released := q.released + 1);
      steps, m := Admit(plan, steps, w, m, q);
      q := q.(admitted := q.admitted + 1, minute := q.minute + 1);
      steps, m := Enter(plan, steps, w, m, q);
      q := q.(stored := q.stored + 1, minute := q.minute + 1);
    }
  }

  /** The run waits for the next day, on which it will be charged. */
  lemma NextDay(plan: Plan, steps: seq<Step>, w: nat, m: Machine, q: Queue) returns (q': Queue)
    requires Reaches(plan, steps, w, m, q.minute) && Stands(plan, m, q) && q.paid == 0
    ensures Reaches(plan, steps, w, m, q'.minute) && Stands(plan, m, q')
    ensures q' == q.(minute := q'.minute, today := q'.today) && q'.minute == MINUTES_A_DAY * q'.today
  {
    hide Reaches, WaitingIds, Held, Spent, Hits, IdOf, Queue.StageOf;
    var day := q.minute / MINUTES_A_DAY + 1;
    assert MINUTES_A_DAY * day > q.minute;
    q' := q.(minute := MINUTES_A_DAY * day, today := day);
    WaitUntil(plan, steps, w, m, q.minute, q'.minute);
    SameStages(plan, q, q');
  }

  lemma SameStages(plan: Plan, q: Queue, q': Queue)
    requires q' == q.(minute := q'.minute, today := q'.today)
    ensures forall i: nat :: q'.StageOf(plan, i) == q.StageOf(plan, i)
  {
    hide IdOf;
  }

  /** Everything released is charged. */
  lemma {:induction false} PaySome(plan: Plan, steps0: seq<Step>, w: nat, m0: Machine, q0: Queue)
    returns (steps: seq<Step>, m: Machine, q: Queue)
    requires plan.Valid() && Reaches(plan, steps0, w, m0, q0.minute) && Stands(plan, m0, q0)
    requires q0.Valid() && q0.Waiting() <= w && q0.minute / MINUTES_A_DAY == q0.today
    ensures Reaches(plan, steps, w, m, q.minute) && Stands(plan, m, q) && q == q0.(paid := q0.released)
    decreases q0.released - q0.paid
  {
    hide Reaches, Stands, Plan.Valid;
    steps, m, q := steps0, m0, q0;
    if q.paid < q.released {
      steps, m := Pay(plan, steps, w, m, q);
      q := q.(paid := q.paid + 1);
      steps, m, q := PaySome(plan, steps, w, m, q);
    }
  }

  /** Everything admitted is stored, released and charged, one after the other, all on one day. */
  lemma {:induction false} Drain(plan: Plan, steps0: seq<Step>, w: nat, m0: Machine, q0: Queue)
    returns (steps: seq<Step>, m: Machine, q: Queue)
    requires plan.Valid() && Reaches(plan, steps0, w, m0, q0.minute) && Stands(plan, m0, q0)
    requires q0.Valid() && q0.paid == q0.released && q0.Waiting() < w
    requires MINUTES_A_DAY * q0.today <= q0.minute
             && q0.minute + q0.admitted - q0.stored < MINUTES_A_DAY * (q0.today + 1)
    ensures Reaches(plan, steps, w, m, q.minute) && Stands(plan, m, q) && q.paid == q0.admitted && q.today == q0.today
    decreases q0.admitted - q0.paid
  {
    hide Reaches, Stands, Plan.Valid;
    AtLeastOneSlot(plan);
    steps, m, q := steps0, m0, q0;
    if q.paid < q.admitted {
      if q.stored == q.released {
        steps, m := Enter(plan, steps, w, m, q);
        q := q.(stored := q.stored + 1, minute := q.minute + 1);
      }
      steps, m := Release(plan, steps, w, m, q);
      q := q.(released := q.released + 1);
      steps, m := Pay(plan, steps, w, m, q);
      q := q.(paid := q.paid + 1);
      steps, m, q := Drain(plan, steps, w, m, q);
    }
  }

  lemma PaidIsSpent(plan: Plan, steps: seq<Step>, w: nat, m: Machine, q: Queue)
    requires Reaches(plan, steps, w, m, q.minute) && Stands(plan, m, q)
    ensures Crowd(plan.p, steps, w) && PlannedSteps(plan, steps) && ClockedSteps(steps)
    ensures SpentOn(plan.p, RunSteps(steps), q.today) == q.paid as real * plan.cost
  {
    hide Crowd, PlannedSteps, ClockedSteps, RunSteps, FlightsStand, SlotsStand, RowsStand, ClearedStand, Coherent,
      WaitingIds, Times;
    TimesIsProduct(q.paid, plan.cost);
  }

  /** What a plan can spend in a day: nothing if no request may wait, its cost per slot if one may, and its cost per
      slot and waiting request from two on. */
  function MostPlanned(p: Principal, w: nat): int {
    if w == 0 then 0 else if w == 1 then p.concurrentLimit else p.concurrentLimit + w
  }

  /** With two or more waiting, the slots and the waiting requests can all pass the budget check before anything is
      charged. */
  lemma CrowdSpends(plan: Plan, w: nat) returns (steps: seq<Step>, day: int)
    requires plan.Valid() && w >= 1
    ensures Crowd(plan.p, steps, w) && PlannedSteps(plan, steps) && ClockedSteps(steps)
    ensures SpentOn(plan.p, RunSteps(steps), day) == MostPlanned(plan.p, w) as real * plan.cost
  {
    hide Reaches, Stands, Crowd, PlannedSteps, ClockedSteps, RunSteps, SpentOn, Plan.Valid;
    AtLeastOneSlot(plan);
    var m, q;
    if w == 1 {
      steps, m, q := OpenSome(plan, w, plan.p.concurrentLimit);
      q := NextDay(plan, steps, w, m, q);
    } else {
      steps, m, q := Churn(plan, w, w - 1);
      steps, m := Admit(plan, steps, w, m, q);
      q := q.(admitted := q.admitted + 1, minute := q.minute + 1);
      q := NextDay(plan, steps, w, m, q);
      steps, m, q := PaySome(plan, steps, w, m, q);
    }
    steps, m, q := Drain(plan, steps, w, m, q);
    PaidIsSpent(plan, steps, w, m, q);
    day := q.today;
  }
}
