/** While never more than one request waits, the interleaved protocol obeys the spend bound of the atomic calls. */
module SerialSpend {
  import opened Wrappers
  import opened Schemas
  import PricingEngine
  import opened Protocol
  import opened Sums
  import opened AtomicRuns
  import opened Interleaving
  import opened InterleavedSafety
  import opened InterleavedSpend

  ghost function KeptSum(p: Principal, m: Machine, reserve: real -> real): real {
    Sum(Amounts(m, p.Key(), Kept, reserve))
  }

  predicate Pending(s: Stage) { s.Checked? || s.Added? }

  /** A request between the two checks would still fit into one daily budget on its own. */
  ghost predicate PendingFits(p: Principal, m: Machine, today: int, reserve: real -> real, most: real) {
    forall id :: id in m.flights && m.flights[id].p.Key() == p.Key() && Pending(m.flights[id].stage) ==>
      SpentOn(p, m, today) + Amount(m.flights[id], reserve) <= most
  }

  ghost predicate SerialLedger(p: Principal, m: Machine, today: int, reserve: real -> real, most: real)
    requires p.Valid()
  {
    && InRange(p, m, reserve, most)
    && SpendRange(p, m, today, Cap(p, 0, most))
    && KeptWithin(p, m, today, reserve, most)
    && PendingFits(p, m, today, reserve, most)
  }

  /** The flights past SCARD are no more than the slots, and with today's spend they stay within the cap. */
  ghost predicate KeptWithin(p: Principal, m: Machine, today: int, reserve: real -> real, most: real)
    requires p.Valid()
  {
    |Ids(m, p.Key(), Kept)| <= p.concurrentLimit && SpentOn(p, m, today) + KeptSum(p, m, reserve) <= Cap(p, 0, most)
  }

  lemma KeptBounded(p: Principal, m: Machine, reserve: real -> real, most: real)
    requires InRange(p, m, reserve, most)
    ensures 0.0 <= KeptSum(p, m, reserve) <= Times(|Ids(m, p.Key(), Kept)|, most)
  {
    var amounts := Amounts(m, p.Key(), Kept, reserve);
    assert amounts.Keys == Ids(m, p.Key(), Kept);
    forall id | id in amounts
      ensures 0.0 <= amounts[id] <= most
    {
      assert id in Ids(m, p.Key(), Exposed);
    }
    SumNonNegative(amounts);
    SumAtMost(amounts, most);
  }

  lemma AtMostOne<T>(s: set<T>, a: T, b: T)
    requires |s| <= 1 && a in s && b in s
    ensures a == b
  {
    if a != b {
      SubsetSmaller({a, b}, s);
    }
  }

  lemma EntersFromAdded(p: Principal, m: Machine, t: Machine, id: Id, reserve: real -> real)
    requires Moves(m, t, id)
    requires id in Ids(t, p.Key(), Kept) && id !in Ids(m, p.Key(), Kept)
    ensures id in m.flights && m.flights[id].stage == Added && t.flights[id].stage == Holding
    ensures t.flights == m.flights[id := t.flights[id]]
    ensures Amount(t.flights[id], reserve) == Amount(m.flights[id], reserve)
    ensures id in WaitingIds(p, m)
  {
  }

  /** With one request waiting, the one that passes SCARD joins flights that all still hold their slots. */
  lemma EnteringKeeps(p: Principal, m: Machine, t: Machine, id: Id)
    requires Moves(m, t, id) && SlotSafe(p, t) && |WaitingIds(p, m)| <= 1
    requires id in Ids(t, p.Key(), Kept) && id !in Ids(m, p.Key(), Kept)
    ensures |Ids(t, p.Key(), Kept)| <= p.concurrentLimit && |Ids(m, p.Key(), Kept)| + 1 == |Ids(t, p.Key(), Kept)|
  {
    EntersFromAdded(p, m, t, id, AtLimit);
    hide Moves, Follows, Amount;
    forall other | other in Ids(t, p.Key(), Kept)
      ensures other in Ids(t, p.Key(), Passed)
    {
      if other != id && t.flights[other].stage.Released? {
        assert other in WaitingIds(p, m);
        AtMostOne(WaitingIds(p, m), id, other);
      }
    }
    SubsetSmaller(Ids(t, p.Key(), Kept), Ids(t, p.Key(), Passed));
    ClassMoves(m, t, id, t.flights[id], p.Key(), Kept, AtLimit);
    hide Ids, Amounts;
  }

  /** A step by which nothing enters the kept flights does not raise their number or their sum. */
  lemma NotEntering(p: Principal, m: Machine, step: Step, reserve: real -> real, most: real)
    requires Mine(p, m) && Coherent(m) && ProperStep(p, step) && CoveredStep(p, m, step, reserve, most)
             && InRange(p, m, reserve, most)
    requires var id := Subject(step.act).GetOr("");
             !(id in Ids(Next(m, step), p.Key(), Kept) && id !in Ids(m, p.Key(), Kept))
    ensures KeptSum(p, Next(m, step), reserve) <= KeptSum(p, m, reserve)
    ensures Ids(Next(m, step), p.Key(), Kept) <= Ids(m, p.Key(), Kept)
  {
    hide Next, Mine, Coherent, CoveredStep, Amounts, Sum, Follows, Ids, InClass, InRange, Amount;
    var t, id := Next(m, step), Subject(step.act).GetOr("");
    StepMoves(m, step);
    if t.flights == m.flights {
      SameFlights(m, t, p.Key(), Kept, reserve);
    } else {
      SumMoves(m, t, id, t.flights[id], p.Key(), Kept, reserve);
      ClassMoves(m, t, id, t.flights[id], p.Key(), Kept, reserve);
      KeptContributes(p, m, step, reserve, most);
    }
  }

  lemma KeptContributes(p: Principal, m: Machine, step: Step, reserve: real -> real, most: real)
    requires Mine(p, m) && Coherent(m) && ProperStep(p, step) && CoveredStep(p, m, step, reserve, most)
             && InRange(p, m, reserve, most)
    requires var id := Subject(step.act).GetOr("");
             id in Next(m, step).flights && !(id in Ids(Next(m, step), p.Key(), Kept) && id !in Ids(m, p.Key(), Kept))
    ensures var id := Subject(step.act).GetOr("");
            && Contribution(Next(m, step), id, p.Key(), Kept, reserve) <= Contribution(m, id, p.Key(), Kept, reserve)
            && (id !in Ids(m, p.Key(), Kept) ==> id !in Ids(Next(m, step), p.Key(), Kept))
  {
    hide Next, Mine, Coherent, CoveredStep, InRange, Ids, Amount;
    var t, id := Next(m, step), Subject(step.act).GetOr("");
    IdsHold(m, p.Key(), Kept, id);
    IdsHold(t, p.Key(), Kept, id);
    IdsHold(m, p.Key(), Exposed, id);
    if id in Ids(m, p.Key(), Kept) {
      StaysExposed(p, m, step, id, reserve, most);
      KeptNonNegative(p, m, id, reserve, most);
    }
  }

  lemma KeptNonNegative(p: Principal, m: Machine, id: Id, reserve: real -> real, most: real)
    requires InRange(p, m, reserve, most) && id in Ids(m, p.Key(), Kept)
    ensures Amount(m.flights[id], reserve) >= 0.0
  {
    assert id in Ids(m, p.Key(), Exposed);
  }

  lemma PendingStep(p: Principal, m: Machine, step: Step, reserve: real -> real, most: real)
    requires Mine(p, m) && CoveredStep(p, m, step, reserve, most)
    requires PendingFits(p, m, step.clock.day, reserve, most) && !step.act.IncrSpend?
    ensures PendingFits(p, Next(m, step), step.clock.day, reserve, most)
  {
    hide Next, Mine, SpentOn, Amounts, Amount, Follows, CoveredStep;
    var t, id := Next(m, step), Subject(step.act).GetOr("");
    StepMoves(m, step);
    StepTouches(m, step);
    SameSpend(p, m, t, step.clock.day);
    if id in t.flights && t.flights[id].p.Key() == p.Key() && Pending(t.flights[id].stage) {
      PendingSubject(p, m, step, reserve, most);
    }
  }

  /** A request that is between the checks after a step has just passed the first one or was between them before. */
  lemma PendingSubject(p: Principal, m: Machine, step: Step, reserve: real -> real, most: real)
    requires Mine(p, m) && CoveredStep(p, m, step, reserve, most) && PendingFits(p, m, step.clock.day, reserve, most)
    requires var (t, id) := (Next(m, step), Subject(step.act).GetOr(""));
             id in t.flights && t.flights[id].p.Key() == p.Key() && Pending(t.flights[id].stage)
    ensures SpentOn(p, m, step.clock.day) + Amount(Next(m, step).flights[Subject(step.act).GetOr("")], reserve) <= most
  {
    hide Next, Mine, SpentOn, CoveredStep;
    var t, id := Next(m, step), Subject(step.act).GetOr("");
    StepMoves(m, step);
    IdsHold(m, p.Key(), Exposed, id);
    IdsHold(t, p.Key(), Exposed, id);
    hide Ids;
    if id !in Ids(m, p.Key(), Exposed) {
      BecomesExposed(p, m, step, id, reserve, most);
    }
  }

  lemma KeptEnters(p: Principal, m: Machine, t: Machine, id: Id, day: int, reserve: real -> real, most: real)
    requires p.Valid() && InRange(p, m, reserve, most) && PendingFits(p, m, day, reserve, most)
             && t.shared.spend == m.shared.spend
    requires Moves(m, t, id) && SlotSafe(p, t) && |WaitingIds(p, m)| <= 1 && most >= 0.0
    requires id in Ids(t, p.Key(), Kept) && id !in Ids(m, p.Key(), Kept)
    ensures KeptWithin(p, t, day, reserve, most)
  {
    hide Moves, Sum, Amounts, Ids, InRange, SpentOn, PendingFits, KeptSum, Amount, WaitingIds, SlotSafe;
    EnteringKeeps(p, m, t, id);
    EnteringAdds(p, m, t, id, reserve);
    PendingOne(p, m, id, day, reserve, most);
    KeptBounded(p, m, reserve, most);
    SameSpend(p, m, t, day);
    TimesMonotone(|Ids(m, p.Key(), Kept)|, p.concurrentLimit - 1, most);
  }

  /** A flight that passes SCARD adds its own amount to the sum. */
  lemma EnteringAdds(p: Principal, m: Machine, t: Machine, id: Id, reserve: real -> real)
    requires Moves(m, t, id)
    requires id in Ids(t, p.Key(), Kept) && id !in Ids(m, p.Key(), Kept)
    ensures id in m.flights && m.flights[id].p.Key() == p.Key() && Pending(m.flights[id].stage)
    ensures KeptSum(p, t, reserve) == KeptSum(p, m, reserve) + Amount(m.flights[id], reserve)
  {
    EntersFromAdded(p, m, t, id, reserve);
    assert t.flights[id].p.Key() == p.Key() && m.flights[id].p.Key() == p.Key();
    hide Moves, Sum, Amounts, Amount, Ids, WaitingIds;
    SumMoves(m, t, id, t.flights[id], p.Key(), Kept, reserve);
  }

  lemma PendingOne(p: Principal, m: Machine, id: Id, day: int, reserve: real -> real, most: real)
    requires PendingFits(p, m, day, reserve, most)
    requires id in m.flights && m.flights[id].p.Key() == p.Key() && Pending(m.flights[id].stage)
    ensures SpentOn(p, m, day) + Amount(m.flights[id], reserve) <= most
  {
  }

  lemma SerialStep(p: Principal, m: Machine, step: Step, reserve: real -> real, most: real)
    requires p.Valid() && Mine(p, m) && Coherent(m) && ProperStep(p, step) && CoveredStep(p, m, step, reserve, most)
             && most >= 0.0
    requires SerialLedger(p, m, step.clock.day, reserve, most) && SlotSafe(p, Next(m, step)) && |WaitingIds(p, m)| <= 1
    requires !step.act.IncrSpend?
    ensures SerialLedger(p, Next(m, step), step.clock.day, reserve, most)
  {
    var t, id := Next(m, step), Subject(step.act).GetOr("");
    RangeStep(p, m, step, reserve, most);
    StepMoves(m, step);
    StepTouches(m, step);
    PendingStep(p, m, step, reserve, most);
    SameSpend(p, m, t, step.clock.day);
    SameSpendRange(p, m, t, step.clock.day, Cap(p, 0, most));
    hide Next, Mine, CoveredStep, Follows, KeptSum, InRange, SpentOn, PendingFits, SpendRange, Moves, Cap, Coherent,
      SlotSafe, WaitingIds, Ids;
    if id in Ids(t, p.Key(), Kept) && id !in Ids(m, p.Key(), Kept) {
      KeptEnters(p, m, t, id, step.clock.day, reserve, most);
    } else {
      NotEntering(p, m, step, reserve, most);
      SubsetSmaller(Ids(t, p.Key(), Kept), Ids(m, p.Key(), Kept));
    }
  }

  lemma PendingAfterCharge(p: Principal, m: Machine, id: Id, day: int, cost: real, reserve: real -> real, most: real)
    requires PendingFits(p, m, day, reserve, most) && |WaitingIds(p, m)| <= 1
    requires SpentOn(p, DoIncrSpend(m, id, day), day) == SpentOn(p, m, day) + cost
    requires cost >= 0.0 && (cost > 0.0 ==> id in WaitingIds(p, m) && id in m.flights && !Pending(m.flights[id].stage))
    ensures PendingFits(p, DoIncrSpend(m, id, day), day, reserve, most)
  {
    var t := DoIncrSpend(m, id, day);
    ChargeShrinks(p, m, id, day);
    hide DoIncrSpend, SpentOn, Amount;
    forall other | other in t.flights && t.flights[other].p.Key() == p.Key() && Pending(t.flights[other].stage)
      ensures SpentOn(p, t, day) + Amount(t.flights[other], reserve) <= most
    {
      assert other in WaitingIds(p, m);
      if cost > 0.0 {
        AtMostOne(WaitingIds(p, m), id, other);
      }
    }
  }

  lemma ChargeKeepsKept(p: Principal, m: Machine, t: Machine, day: int, cost: real, reserve: real -> real, most: real)
    requires p.Valid() && SpendRange(p, m, day, Cap(p, 0, most)) && KeptWithin(p, m, day, reserve, most)
    requires Ids(t, p.Key(), Kept) <= Ids(m, p.Key(), Kept) && cost >= 0.0 && KeptSum(p, t, reserve) >= 0.0
    requires forall d :: SpentOn(p, t, d) == SpentOn(p, m, d) + (if d == day then cost else 0.0)
    requires KeptSum(p, t, reserve) == KeptSum(p, m, reserve) - cost
    ensures SpendRange(p, t, day, Cap(p, 0, most)) && KeptWithin(p, t, day, reserve, most)
  {
    SubsetSmaller(Ids(t, p.Key(), Kept), Ids(m, p.Key(), Kept));
    hide Ids, KeptSum, SpentOn, Cap;
  }

  lemma SerialCharge(p: Principal, m: Machine, id: Id, day: int, reserve: real -> real, most: real)
    requires p.Valid() && Mine(p, m) && Coherent(m) && SerialLedger(p, m, day, reserve, most) && |WaitingIds(p, m)| <= 1
    requires InRange(p, DoIncrSpend(m, id, day), reserve, most)
    ensures SerialLedger(p, DoIncrSpend(m, id, day), day, reserve, most)
  {
    var t := DoIncrSpend(m, id, day);
    hide DoIncrSpend, Coherent, Mine, InRange, SpentOn, Cap, PendingFits, WaitingIds, SpendRange, KeptWithin, Amounts,
      Sum;
    var cost := ChargeMoves(p, m, id, day, reserve, most);
    KeptBounded(p, t, reserve, most);
    ChargeShrinks(p, m, id, day);
    ChargeKeepsKept(p, m, t, day, cost, reserve, most);
    hide Ids;
    PendingAfterCharge(p, m, id, day, cost, reserve, most);
  }

  lemma ChargeShrinks(p: Principal, m: Machine, id: Id, day: int)
    ensures Ids(DoIncrSpend(m, id, day), p.Key(), Kept) <= Ids(m, p.Key(), Kept)
    ensures forall other ::
              other in DoIncrSpend(m, id, day).flights && Pending(DoIncrSpend(m, id, day).flights[other].stage) ==>
              other in m.flights && m.flights[other] == DoIncrSpend(m, id, day).flights[other]
  {
  }

  lemma LaterSerial(p: Principal, m: Machine, today: int, later: int, reserve: real -> real, most: real)
    requires p.Valid() && SerialLedger(p, m, today, reserve, most) && today <= later && most >= 0.0
    ensures SerialLedger(p, m, later, reserve, most)
  {
    KeptBounded(p, m, reserve, most);
    TimesMonotone(|Ids(m, p.Key(), Kept)|, p.concurrentLimit, most);
    if today < later {
      assert SpentOn(p, m, later) == 0.0;
      forall id | id in m.flights && m.flights[id].p.Key() == p.Key() && Pending(m.flights[id].stage)
        ensures Amount(m.flights[id], reserve) <= most
      {
        assert id in Ids(m, p.Key(), Exposed);
      }
    }
  }

  lemma StartSerial(p: Principal, today: int, reserve: real -> real, most: real)
    requires p.Valid() && most >= 0.0
    ensures SerialLedger(p, START, today, reserve, most)
  {
    assert Amounts(START, p.Key(), Kept, reserve) == map[] && Ids(START, p.Key(), Kept) == {};
    TimesMonotone(0, p.concurrentLimit, most);
  }

  lemma {:induction false} SerialKept(p: Principal, steps: seq<Step>, reserve: real -> real, most: real)
    requires p.Valid() && CoveredCrowd(p, steps, 1, reserve, most) && most >= 0.0
    ensures SerialLedger(p, RunSteps(steps), Today(steps), reserve, most)
  {
    hide Crowd, CoveredCrowd, SerialLedger, Mine, Coherent, ProperStep, CoveredStep, SlotsAre, SlotSafe, DoIncrSpend,
      WaitingIds, LoyalStep;
    if steps == [] {
      StartSerial(p, 0, reserve, most);
    } else {
      var front, step := steps[..|steps| - 1], steps[|steps| - 1];
      var m := RunSteps(front);
      CoveredFront(p, steps, 1, reserve, most);
      CoveredIsCrowd(p, steps, 1, reserve, most);
      SerialKept(p, front, reserve, most);
      CrowdIsLoyal(p, steps, 1);
      CrowdFront(p, steps, 1);
      CrowdIsLoyal(p, front, 1);
      SlotsKept(p, steps);
      SlotsKept(p, front);
      ReachableCoherent(front);
      if front == [] {
        StartSerial(p, step.clock.day, reserve, most);
      } else {
        LaterSerial(p, m, Today(front), step.clock.day, reserve, most);
      }
      if step.act.IncrSpend? {
        SerialRange(p, m, step.clock.day, reserve, most);
        RangeStep(p, m, step, reserve, most);
        SerialCharge(p, m, step.act.id, step.clock.day, reserve, most);
      } else {
        SerialStep(p, m, step, reserve, most);
      }
    }
  }

  lemma CoveredIsCrowd(p: Principal, steps: seq<Step>, w: nat, reserve: real -> real, most: real)
    requires CoveredCrowd(p, steps, w, reserve, most)
    ensures Crowd(p, steps, w)
  {
  }

  lemma SerialRange(p: Principal, m: Machine, today: int, reserve: real -> real, most: real)
    requires p.Valid() && SerialLedger(p, m, today, reserve, most)
    ensures InRange(p, m, reserve, most) && forall day :: 0.0 <= SpentOn(p, m, day) <= Cap(p, 0, most)
  {
  }

  /** While never more than one request waits, everything else may interleave and `most` per slot bounds the spend. */
  lemma CoveredSerialBound(p: Principal, steps: seq<Step>, reserve: real -> real, most: real, day: int)
    requires p.Valid() && CoveredCrowd(p, steps, 1, reserve, most) && most >= 0.0
    ensures SpentOn(p, RunSteps(steps), day) <= p.concurrentLimit as real * most
  {
    hide *;
    SerialKept(p, steps, reserve, most);
    SerialRange(p, RunSteps(steps), Today(steps), reserve, most);
    CapAlone(p, most);
  }

  /** For frugal agents, the bound of the atomic calls. */
  lemma SerialSpendBound(p: Principal, steps: seq<Step>, day: int)
    requires p.Valid() && CrowdedRun(p, steps, 1)
    ensures SpentOn(p, RunSteps(steps), day) <= p.concurrentLimit as real * p.dailyBudgetUsd
  {
    hide *;
    CrowdedIsCovered(p, steps, 1);
    BudgetNonNegative(p);
    CoveredSerialBound(p, steps, AtLimit, p.dailyBudgetUsd, day);
  }

  lemma CapAlone(p: Principal, most: real)
    requires p.Valid()
    ensures Cap(p, 0, most) == p.concurrentLimit as real * most
  {
    TimesIsProduct(p.concurrentLimit, most);
  }
}
