/** Probe smoothing: the recurrence, the store it updates, its range and its limits. */
module LatencyTracker {
  import opened Wrappers
  import opened Rounding
  import opened Schemas

  datatype ProbeResult = ProbeResult(
    modelId: string,
    ttfbP50Ms: int,
    ttfbP95Ms: int,
    throughputHintQps: real,
    successRate: real,
    lastProbeAt: real,
    degradedReason: Option<string>)
  {
    /** What `probe_model` can return. */
    predicate Valid() { ttfbP50Ms >= 0 && ttfbP95Ms >= 0 && throughputHintQps >= 0.0 && 0.0 <= successRate <= 1.0 }
  }

  function NextP50(previous: int, reading: int): int { Trunc(previous as real * 0.7 + reading as real * 0.3) }

  function NextP95(previous: int, reading: int): int { Trunc(Max(previous as real * 0.6, reading as real * 0.4)) }

  function NextQps(previous: real, reading: real): real { Round3(previous * 0.5 + reading * 0.5) }

  function NextRate(previous: real, reading: real): real { Round4(previous * 0.7 + reading * 0.3) }

  /** Where the previous signal lacks a value, the reading stands in for it. */
  function Smooth(previous: Signal, r: ProbeResult): Signal {
    Signal(Some(NextP50(previous.ttfbP50Ms.GetOr(r.ttfbP50Ms), r.ttfbP50Ms)),
           Some(NextP95(previous.ttfbP95Ms.GetOr(r.ttfbP95Ms), r.ttfbP95Ms)),
           Some(NextQps(previous.throughputHintQps.GetOr(r.throughputHintQps), r.throughputHintQps)),
           Some(NextRate(previous.successRate.GetOr(r.successRate), r.successRate)),
           Some(r.lastProbeAt),
           r.degradedReason)
  }

  function SignalIn(signals: map<string, Signal>, id: string): Signal {
    if id in signals then signals[id] else NO_SIGNAL
  }

  /** The signals after one round: every result is smoothed against the signals from before the round. */
  function AfterRound(before: map<string, Signal>, results: seq<ProbeResult>): map<string, Signal> {
    if results == [] then before
    else
      var r := results[|results| - 1];
      AfterRound(before, results[..|results| - 1])[r.modelId := Smooth(SignalIn(before, r.modelId), r)]
  }

  class InMemorySignalStore {
    var signals: map<string, Signal>

    constructor ()
      ensures signals == map[]
    {
      signals := map[];
    }

    method GetSignals(ids: seq<string>) returns (found: map<string, Signal>)
      ensures found == map id | id in ids :: SignalIn(signals, id)
    {
      found := map id | id in ids :: SignalIn(signals, id);
    }

    method SetSignal(id: string, signal: Signal)
      modifies this
      ensures signals == old(signals)[id := signal]
    {
      signals := signals[id := signal];
    }

    method SmoothAndStoreSignal(r: ProbeResult, previous: Signal) returns (signal: Signal)
      modifies this
      ensures signal == Smooth(previous, r)
      ensures signals == old(signals)[r.modelId := signal]
    {
      var prevP50 := previous.ttfbP50Ms.GetOr(r.ttfbP50Ms) as real;
      var prevP95 := previous.ttfbP95Ms.GetOr(r.ttfbP95Ms) as real;
      var prevSuccess := previous.successRate.GetOr(r.successRate);
      var prevQps := previous.throughputHintQps.GetOr(r.throughputHintQps);
      signal := Signal(
        Some(Trunc(prevP50 * 0.7 + r.ttfbP50Ms as real * 0.3)),
        Some(Trunc(Max(prevP95 * 0.6, r.ttfbP95Ms as real * 0.4))),
        Some(Round3(prevQps * 0.5 + r.throughputHintQps * 0.5)),
        Some(Round4(prevSuccess * 0.7 + r.successRate * 0.3)),
        Some(r.lastProbeAt),
        r.degradedReason);
      SetSignal(r.modelId, signal);
    }

    /** One round over the targets, given what probing each of them returned. */
    method ProbeLoopOnce(targetIds: seq<string>, results: seq<ProbeResult>)
      requires |results| == |targetIds| && forall i :: 0 <= i < |results| ==> results[i].modelId == targetIds[i]
      modifies this
      ensures signals == AfterRound(old(signals), results)
    {
      hide Smooth;
      var existing := GetSignals(targetIds);
      for i := 0 to |results|
        invariant signals == AfterRound(old(signals), results[..i])
      {
        var r := results[i];
        assert results[..i + 1][..i] == results[..i];
        assert r.modelId == targetIds[i] && r.modelId in targetIds;
        var signal := SmoothAndStoreSignal(r, existing[r.modelId]);
      }
      assert results[..|results|] == results;
    }
  }

  // ----- range

  lemma P50Between(previous: int, reading: int, lo: int, hi: int)
    requires 0 <= lo <= previous <= hi && lo <= reading <= hi
    ensures lo <= NextP50(previous, reading) <= hi
  {
  }

  lemma RateInUnit(previous: real, reading: real)
    requires 0.0 <= previous <= 1.0 && 0.0 <= reading <= 1.0
    ensures 0.0 <= NextRate(previous, reading) <= 1.0
  {
    Round4Unit(previous * 0.7 + reading * 0.3);
  }

  /** The signals after any number of rounds on an empty store. */
  function AfterRounds(rounds: seq<seq<ProbeResult>>): map<string, Signal> {
    if rounds == [] then map[] else AfterRound(AfterRounds(rounds[..|rounds| - 1]), rounds[|rounds| - 1])
  }

  ghost predicate ReadingsWithin(results: seq<ProbeResult>, id: string, lo: int, hi: int) {
    forall r :: r in results ==> r.Valid() && (r.modelId == id ==> lo <= r.ttfbP50Ms <= hi)
  }

  /** The signal of a model that has been probed: its median within the readings, its success rate a proportion. */
  ghost predicate SignalWithin(signals: map<string, Signal>, id: string, lo: int, hi: int) {
    id in signals ==>
      && signals[id].ttfbP50Ms.Some? && lo <= signals[id].ttfbP50Ms.value <= hi
      && signals[id].successRate.Some? && 0.0 <= signals[id].successRate.value <= 1.0
  }

  lemma SmoothWithin(previous: Signal, r: ProbeResult, lo: int, hi: int)
    requires 0 <= lo <= hi && r.Valid() && lo <= r.ttfbP50Ms <= hi
    requires previous.ttfbP50Ms.Some? ==> lo <= previous.ttfbP50Ms.value <= hi
    requires previous.successRate.Some? ==> 0.0 <= previous.successRate.value <= 1.0
    ensures Smooth(previous, r).ttfbP50Ms.Some? && lo <= Smooth(previous, r).ttfbP50Ms.value <= hi
    ensures Smooth(previous, r).successRate.Some? && 0.0 <= Smooth(previous, r).successRate.value <= 1.0
  {
    P50Between(previous.ttfbP50Ms.GetOr(r.ttfbP50Ms), r.ttfbP50Ms, lo, hi);
    RateInUnit(previous.successRate.GetOr(r.successRate), r.successRate);
    hide NextP50, NextRate, NextP95, NextQps;
  }

  lemma {:induction false} RoundWithin(before: map<string, Signal>, results: seq<ProbeResult>, id: string, lo: int,
                                       hi: int)
    requires 0 <= lo <= hi && ReadingsWithin(results, id, lo, hi) && SignalWithin(before, id, lo, hi)
    ensures SignalWithin(AfterRound(before, results), id, lo, hi)
  {
    hide Smooth;
    if results != [] {
      var front, r := results[..|results| - 1], results[|results| - 1];
      RoundWithin(before, front, id, lo, hi);
      if r.modelId == id {
        assert r in results;
        SmoothWithin(SignalIn(before, id), r, lo, hi);
      }
    }
  }

  /** Over any probe run a model's stored median stays within the readings taken of it, and its success rate in
      [0, 1]. */
  lemma {:induction false} SignalsStayWithin(rounds: seq<seq<ProbeResult>>, id: string, lo: int, hi: int)
    requires 0 <= lo <= hi && forall results :: results in rounds ==> ReadingsWithin(results, id, lo, hi)
    ensures SignalWithin(AfterRounds(rounds), id, lo, hi)
  {
    if rounds != [] {
      var front := rounds[..|rounds| - 1];
      SignalsStayWithin(front, id, lo, hi);
      assert rounds[|rounds| - 1] in rounds;
      RoundWithin(AfterRounds(front), rounds[|rounds| - 1], id, lo, hi);
    }
  }

  ghost predicate ValidRound(results: seq<ProbeResult>) { forall r :: r in results ==> r.Valid() }

  function Largest(results: seq<ProbeResult>): int {
    if results == [] then 0 else MaxInt(Largest(results[..|results| - 1]), results[|results| - 1].ttfbP50Ms)
  }

  function LargestOf(rounds: seq<seq<ProbeResult>>): int {
    if rounds == [] then 0 else MaxInt(LargestOf(rounds[..|rounds| - 1]), Largest(rounds[|rounds| - 1]))
  }

  lemma {:induction false} LargestBounds(results: seq<ProbeResult>)
    ensures Largest(results) >= 0 && forall r :: r in results ==> r.ttfbP50Ms <= Largest(results)
  {
    if results != [] {
      LargestBounds(results[..|results| - 1]);
      assert results == results[..|results| - 1] + [results[|results| - 1]];
    }
  }

  lemma {:induction false} LargestOfBounds(rounds: seq<seq<ProbeResult>>)
    ensures LargestOf(rounds) >= 0 && forall results :: results in rounds ==> Largest(results) <= LargestOf(rounds)
  {
    if rounds != [] {
      LargestOfBounds(rounds[..|rounds| - 1]);
      LargestBounds(rounds[|rounds| - 1]);
      assert rounds == rounds[..|rounds| - 1] + [rounds[|rounds| - 1]];
    }
  }

  /** Every signal a probe run leaves behind is one the engine can take. */
  lemma ProbeRunsGiveValidSignals(rounds: seq<seq<ProbeResult>>, id: string)
    requires forall results :: results in rounds ==> ValidRound(results)
    requires id in AfterRounds(rounds)
    ensures AfterRounds(rounds)[id].Valid()
    ensures AfterRounds(rounds)[id].ttfbP50Ms.Some? && AfterRounds(rounds)[id].successRate.Some?
  {
    var hi := LargestOf(rounds);
    LargestOfBounds(rounds);
    forall results | results in rounds
      ensures ReadingsWithin(results, id, 0, hi)
    {
      LargestBounds(results);
      assert ValidRound(results) && Largest(results) <= hi;
    }
    SignalsStayWithin(rounds, id, 0, hi);
  }

  // ----- limits under constant readings

  /** The median after `n` more probes that all read `r`. */
  function P50After(p: int, r: int, n: nat): int
    decreases n
  {
    if n == 0 then p else P50After(NextP50(p, r), r, n - 1)
  }

  lemma NextP50Exact(p: int, r: int)
    requires p >= 0 && r >= 0
    ensures NextP50(p, r) == (7 * p + 3 * r) / 10
  {
    var x := p as real * 0.7 + r as real * 0.3;
    var q := (7 * p + 3 * r) / 10;
    assert x == (7 * p + 3 * r) as real / 10.0;
    assert 10 * q <= 7 * p + 3 * r < 10 * q + 10;
    assert q as real <= x < q as real + 1.0;
  }

  /** Above the reading every probe lowers the median; four or more below, every probe raises it to at most three
      below; and up to three milliseconds short it no longer moves. */
  lemma P50Step(p: int, r: int)
    requires p >= 0 && r >= 0
    ensures p > r ==> r <= NextP50(p, r) < p
    ensures p + 4 <= r ==> p < NextP50(p, r) <= r - 3
    ensures p <= r <= p + 3 ==> NextP50(p, r) == p
  {
    NextP50Exact(p, r);
  }

  /** Where the median ends up: at the reading from above, where it is if at most three short, and else exactly three
      short. */
  function RestingP50(p: int, r: int): int {
    if p > r then r else if p >= r - 3 then p else r - 3
  }

  /** Under a constant reading the median comes to rest, so it reaches the reading iff it starts no lower. */
  lemma {:induction false} P50Settles(p: int, r: int, n: nat)
    requires p >= 0 && r >= 0 && n >= p - r && n >= r - p
    ensures P50After(p, r, n) == RestingP50(p, r) && NextP50(RestingP50(p, r), r) == RestingP50(p, r)
    ensures P50After(p, r, n) == r <==> p >= r
    decreases n
  {
    hide NextP50;
    P50Step(p, r);
    P50Step(RestingP50(p, r), r);
    if r - 3 <= p <= r {
      P50Rests(p, r, n);
    } else {
      P50Settles(NextP50(p, r), r, n - 1);
    }
  }

  lemma {:induction false} P50Rests(p: int, r: int, n: nat)
    requires 0 <= p <= r <= p + 3
    ensures P50After(p, r, n) == p
    decreases n
  {
    hide NextP50;
    P50Step(p, r);
    if n > 0 {
      P50Rests(p, r, n - 1);
    }
  }

  /** Success rates live on the 1e-4 grid; this is the recurrence in those units. */
  function NextRateUnits(s: int, reading: int): int { HalfEven((7 * s + 3 * reading) as real / 10.0) }

  lemma NextRateOnGrid(s: int, reading: int)
    ensures NextRate(s as real / 10000.0, reading as real / 10000.0) == NextRateUnits(s, reading) as real / 10000.0
  {
    var x := s as real / 10000.0 * 0.7 + reading as real / 10000.0 * 0.3;
    assert x * 10000.0 == (7 * s + 3 * reading) as real / 10.0;
  }

  function RateAfter(s: int, reading: int, n: nat): int
    decreases n
  {
    if n == 0 then s else RateAfter(NextRateUnits(s, reading), reading, n - 1)
  }

  lemma RateStep(s: int)
    requires 0 <= s <= 10000
    ensures s < 9999 ==> s < NextRateUnits(s, 10000) <= 9999
    ensures s >= 9999 ==> NextRateUnits(s, 10000) == s
    ensures s > 1 ==> 1 <= NextRateUnits(s, 0) < s
    ensures s <= 1 ==> NextRateUnits(s, 0) == s
  {
  }

  /** Under constant success the rate climbs from any lower value to 0.9999 and stays: it never returns to 1. */
  lemma {:induction false} RateClimbs(s: int, n: nat)
    requires 0 <= s <= 9999 && n >= 9999 - s
    ensures RateAfter(s, 10000, n) == 9999
    decreases n
  {
    hide NextRateUnits;
    if n > 0 {
      RateStep(s);
      RateClimbs(NextRateUnits(s, 10000), n - 1);
    }
  }

  /** Under constant failure it falls from any positive value to 0.0001 and stays: it never reaches 0. */
  lemma {:induction false} RateFalls(s: int, n: nat)
    requires 1 <= s <= 10000 && n >= s - 1
    ensures RateAfter(s, 0, n) == 1
    decreases n
  {
    hide NextRateUnits;
    if n > 0 {
      RateStep(s);
      RateFalls(NextRateUnits(s, 0), n - 1);
    }
  }

  // ----- the stored signal under constant probes

  predicate Probed(results: seq<ProbeResult>, id: string) {
    results != [] && (results[|results| - 1].modelId == id || Probed(results[..|results| - 1], id))
  }

  /** The round probes the model, and every probe of it reads the same. */
  ghost predicate Reads(results: seq<ProbeResult>, id: string, reading: int, rate: real) {
    Probed(results, id) && forall r :: r in results && r.modelId == id ==>
      r.ttfbP50Ms == reading && r.successRate == rate
  }

  /** The model is stored with this median and success rate. */
  predicate Holds(signals: map<string, Signal>, id: string, p50: int, rate: real) {
    id in signals && signals[id].ttfbP50Ms == Some(p50) && signals[id].successRate == Some(rate)
  }

  lemma {:induction false} RoundHolds(before: map<string, Signal>, results: seq<ProbeResult>, id: string, p: int,
                                      x: real, reading: int, rate: real)
    requires Holds(before, id, p, x)
    requires forall r :: r in results && r.modelId == id ==> r.ttfbP50Ms == reading && r.successRate == rate
    ensures Probed(results, id) ==> Holds(AfterRound(before, results), id, NextP50(p, reading), NextRate(x, rate))
  {
    hide NextP50, NextRate, NextP95, NextQps;
    if results != [] {
      var front, r := results[..|results| - 1], results[|results| - 1];
      RoundHolds(before, front, id, p, x, reading, rate);
      assert r in results;
    }
  }

  /** The success rate after `n` more probes at the same rate. */
  function RateStored(x: real, rate: real, n: nat): real
    decreases n
  {
    if n == 0 then x else RateStored(NextRate(x, rate), rate, n - 1)
  }

  lemma {:induction false} LastProbe(p: int, x: real, reading: int, rate: real, n: nat)
    ensures P50After(p, reading, n + 1) == NextP50(P50After(p, reading, n), reading)
    ensures RateStored(x, rate, n + 1) == NextRate(RateStored(x, rate, n), rate)
    decreases n
  {
    hide NextP50, NextRate;
    if n > 0 {
      LastProbe(NextP50(p, reading), NextRate(x, rate), reading, rate, n - 1);
    }
  }

  /** After any run, more rounds of constant probes take the stored signal along the two recurrences. */
  lemma {:induction false} ConstantRounds(rounds: seq<seq<ProbeResult>>, more: seq<seq<ProbeResult>>, id: string,
                                          p: int, x: real, reading: int, rate: real)
    requires Holds(AfterRounds(rounds), id, p, x) && forall results :: results in more ==>
             Reads(results, id, reading, rate)
    ensures Holds(AfterRounds(rounds + more), id, P50After(p, reading, |more|), RateStored(x, rate, |more|))
    decreases |more|
  {
    hide NextP50, NextRate, Holds, AfterRound, Probed;
    if more == [] {
      assert rounds + more == rounds;
    } else {
      var front, last := more[..|more| - 1], more[|more| - 1];
      ConstantRounds(rounds, front, id, p, x, reading, rate);
      assert (rounds + more)[..|rounds + more| - 1] == rounds + front;
      assert Reads(last, id, reading, rate);
      LastProbe(p, x, reading, rate, |front|);
      RoundHolds(AfterRounds(rounds + front), last, id, P50After(p, reading, |front|), RateStored(x, rate, |front|),
                 reading, rate);
    }
  }

  lemma {:induction false} RoundOnGrid(before: map<string, Signal>, results: seq<ProbeResult>, id: string)
    requires id in before ==>
             before[id].successRate.Some? && Round4(before[id].successRate.value) == before[id].successRate.value
    ensures var t := AfterRound(before, results);
            id in t ==> t[id].successRate.Some? && Round4(t[id].successRate.value) == t[id].successRate.value
  {
    hide Round4;
    if results != [] {
      var r := results[|results| - 1];
      RoundOnGrid(before, results[..|results| - 1], id);
      Round4Grid(SignalIn(before, id).successRate.GetOr(r.successRate) * 0.7 + r.successRate * 0.3);
    }
  }

  lemma {:induction false} StoredOnGrid(rounds: seq<seq<ProbeResult>>, id: string)
    requires id in AfterRounds(rounds)
    ensures var signal := AfterRounds(rounds)[id];
            signal.successRate.Some? && Round4(signal.successRate.value) == signal.successRate.value
  {
    hide Round4, AfterRound;
    var front := rounds[..|rounds| - 1];
    if id in AfterRounds(front) {
      StoredOnGrid(front, id);
    }
    RoundOnGrid(AfterRounds(front), rounds[|rounds| - 1], id);
  }

  /** In units of 1e-4 the stored rate follows the integer recurrence. */
  lemma {:induction false} StoredInUnits(s: int, reading: int, n: nat)
    ensures RateStored(s as real / 10000.0, reading as real / 10000.0, n) == RateAfter(s, reading, n) as real / 10000.0
    decreases n
  {
    hide NextRate, NextRateUnits;
    if n > 0 {
      NextRateOnGrid(s, reading);
      StoredInUnits(NextRateUnits(s, reading), reading, n - 1);
    }
  }

  lemma {:induction false} RateRests(s: int, reading: int, n: nat)
    requires NextRateUnits(s, reading) == s
    ensures RateAfter(s, reading, n) == s
    decreases n
  {
    hide NextRateUnits;
    if n > 0 {
      RateRests(s, reading, n - 1);
    }
  }

  /** Where the rate ends up when every probe succeeds, or every probe fails: only a perfect record stays one. */
  function RestingRate(x: real, success: bool): real {
    if success then (if x == 1.0 then 1.0 else 0.9999) else (if x == 0.0 then 0.0 else 0.0001)
  }

  lemma RateSettles(x: real, success: bool, n: nat)
    requires 0.0 <= x <= 1.0 && Round4(x) == x && n >= 9999
    ensures RateStored(x, if success then 1.0 else 0.0, n) == RestingRate(x, success)
  {
    hide NextRate, NextRateUnits;
    var s := HalfEven(x * 10000.0);
    var reading := if success then 10000 else 0;
    assert x == s as real / 10000.0;
    StoredInUnits(s, reading, n);
    RateStep(s);
    if success {
      if s == 10000 { RateRests(s, reading, n); } else { RateClimbs(s, n); }
    } else {
      if s == 0 { RateRests(s, reading, n); } else { RateFalls(s, n); }
    }
  }

  /** The signal stored for a model that probes keep finding the same, after any earlier run: its median rests at the
      reading if it was no lower and up to three milliseconds short otherwise, its success rate next to the extreme. */
  lemma StoredSignalSettles(rounds: seq<seq<ProbeResult>>, more: seq<seq<ProbeResult>>, id: string, reading: int,
                            success: bool)
    returns (p: int, x: real)
    requires (forall results :: results in rounds ==> ValidRound(results)) && id in AfterRounds(rounds) && reading >= 0
    requires forall results :: results in more ==> Reads(results, id, reading, if success then 1.0 else 0.0)
    ensures Holds(AfterRounds(rounds), id, p, x)
    ensures |more| >= 9999 && |more| >= p - reading && |more| >= reading - p ==>
              Holds(AfterRounds(rounds + more), id, RestingP50(p, reading), RestingRate(x, success))
  {
    hide AfterRounds, Reads, Round4, NextP50, NextRate, RestingP50, RestingRate, ValidRound;
    ProbeRunsGiveValidSignals(rounds, id);
    StoredOnGrid(rounds, id);
    var signal := AfterRounds(rounds)[id];
    p, x := signal.ttfbP50Ms.value, signal.successRate.value;
    var rate := if success then 1.0 else 0.0;
    ConstantRounds(rounds, more, id, p, x, reading, rate);
    if |more| >= 9999 && |more| >= p - reading && |more| >= reading - p {
      P50Settles(p, reading, |more|);
      RateSettles(x, success, |more|);
    }
  }

  // ----- the first probe, and what every probe stamps

  /** With nothing stored before, the readings are stored, rates and throughput rounded, but of the 95th percentile only
      six tenths. */
  lemma FirstProbe(r: ProbeResult)
    requires r.Valid()
    ensures Smooth(NO_SIGNAL, r)
            == Signal(Some(r.ttfbP50Ms), Some(6 * r.ttfbP95Ms / 10), Some(Round3(r.throughputHintQps)),
                                           Some(Round4(r.successRate)), Some(r.lastProbeAt), r.degradedReason)
  {
    NextP50Exact(r.ttfbP50Ms, r.ttfbP50Ms);
    NextP95Exact(r.ttfbP95Ms, r.ttfbP95Ms);
    assert r.throughputHintQps * 0.5 + r.throughputHintQps * 0.5 == r.throughputHintQps;
    assert r.successRate * 0.7 + r.successRate * 0.3 == r.successRate;
    hide NextP50, NextP95, Round3, Round4;
  }

  /** The stored signal carries the time and the degraded reason of the last probe of its model. */
  lemma {:induction false} LastProbeStamps(before: map<string, Signal>, results: seq<ProbeResult>, k: nat)
    requires k < |results| && forall j :: k < j < |results| ==> results[j].modelId != results[k].modelId
    ensures var id, t := results[k].modelId, AfterRound(before, results);
            id in t && t[id].lastProbeAt == Some(results[k].lastProbeAt)
              && t[id].degradedReason == results[k].degradedReason
  {
    hide NextP50, NextP95, NextQps, NextRate;
    if k < |results| - 1 {
      LastProbeStamps(before, results[..|results| - 1], k);
    }
  }

  // ----- the 95th percentile under constant readings

  lemma NextP95Exact(p: int, r: int)
    requires p >= 0 && r >= 0
    ensures NextP95(p, r) == MaxInt(6 * p / 10, 4 * r / 10)
  {
    TenthsCutOff(6, p);
    TenthsCutOff(4, r);
    var x, y := p as real * 0.6, r as real * 0.4;
    assert Trunc(x) == 6 * p / 10 && Trunc(y) == 4 * r / 10;
  }

  lemma TenthsCutOff(k: int, p: int)
    requires p >= 0 && k >= 0
    ensures Trunc((k * p) as real / 10.0) == k * p / 10
  {
    var q := k * p / 10;
    assert 10 * q <= k * p < 10 * q + 10;
    assert q as real <= (k * p) as real / 10.0 < q as real + 1.0;
  }

  function P95After(p: int, r: int, n: nat): int
    decreases n
  {
    if n == 0 then p else P95After(NextP95(p, r), r, n - 1)
  }

  /** Under a constant reading the 95th percentile comes to rest at four tenths of it, wherever it started. */
  lemma {:induction false} P95Settles(p: int, r: int, n: nat)
    requires p >= 0 && r >= 0 && n >= 1 && n >= p
    ensures P95After(p, r, n) == 4 * r / 10
    decreases n
  {
    hide NextP95;
    NextP95Exact(p, r);
    var next := NextP95(p, r);
    if next == 4 * r / 10 {
      P95Rests(r, n - 1);
    } else {
      P95Settles(next, r, n - 1);
    }
  }

  lemma {:induction false} P95Rests(r: int, n: nat)
    requires r >= 0
    ensures P95After(4 * r / 10, r, n) == 4 * r / 10
    decreases n
  {
    hide NextP95;
    NextP95Exact(4 * r / 10, r);
    if n > 0 {
      P95Rests(r, n - 1);
    }
  }

  // ----- the throughput under constant readings

  /** Throughputs live on the 1e-3 grid; this is the recurrence in those units. */
  function NextQpsUnits(s: int, reading: int): int { HalfEven((s + reading) as real / 2.0) }

  lemma NextQpsOnGrid(s: int, reading: int)
    ensures NextQps(s as real / 1000.0, reading as real / 1000.0) == NextQpsUnits(s, reading) as real / 1000.0
  {
    var x := s as real / 1000.0 * 0.5 + reading as real / 1000.0 * 0.5;
    assert x * 1000.0 == (s + reading) as real / 2.0;
  }

  function QpsAfter(s: int, reading: int, n: nat): int
    decreases n
  {
    if n == 0 then s else QpsAfter(NextQpsUnits(s, reading), reading, n - 1)
  }

  lemma QpsStep(s: int, t: int)
    ensures s > t + 1 ==> t < NextQpsUnits(s, t) < s
    ensures s < t - 1 ==> s < NextQpsUnits(s, t) < t
    ensures t - 1 <= s <= t + 1 ==> NextQpsUnits(s, t) == if t % 2 == 0 then t else s
  {
  }

  /** Where the throughput ends up: at an even reading, and next to an odd one, on the side it came from. */
  function RestingQps(s: int, t: int): int {
    if s == t || t % 2 == 0 then t else if s > t then t + 1 else t - 1
  }

  lemma {:induction false} QpsSettles(s: int, t: int, n: nat)
    requires n >= s - t && n >= t - s
    ensures QpsAfter(s, t, n) == RestingQps(s, t)
    decreases n
  {
    hide NextQpsUnits;
    QpsStep(s, t);
    if t - 1 <= s <= t + 1 && t % 2 != 0 {
      QpsRests(s, t, n);
    } else if s == t {
      QpsRests(s, t, n);
    } else {
      QpsSettles(NextQpsUnits(s, t), t, n - 1);
    }
  }

  lemma {:induction false} QpsRests(s: int, t: int, n: nat)
    requires t - 1 <= s <= t + 1 && (s == t || t % 2 != 0)
    ensures QpsAfter(s, t, n) == s
    decreases n
  {
    hide NextQpsUnits;
    QpsStep(s, t);
    if n > 0 {
      QpsRests(s, t, n - 1);
    }
  }

  // ----- both in the stored signal

  /** The model is stored with this 95th percentile and this throughput, in thousandths. */
  predicate Carries(signals: map<string, Signal>, id: string, p95: int, qps: int) {
    && id in signals && signals[id].ttfbP95Ms == Some(p95)
    && signals[id].throughputHintQps == Some(qps as real / 1000.0)
  }

  /** The round probes the model, and every probe of it reads this 95th percentile and this throughput. */
  ghost predicate ReadsLoad(results: seq<ProbeResult>, id: string, p95: int, qps: int) {
    Probed(results, id) && forall r :: r in results && r.modelId == id ==>
      r.ttfbP95Ms == p95 && r.throughputHintQps == qps as real / 1000.0
  }

  lemma {:induction false} RoundCarries(before: map<string, Signal>, results: seq<ProbeResult>, id: string, p: int,
                                        s: int, p95: int, qps: int)
    requires Carries(before, id, p, s)
    requires forall r :: r in results && r.modelId == id ==>
               r.ttfbP95Ms == p95 && r.throughputHintQps == qps as real / 1000.0
    ensures Probed(results, id) ==>
              Carries(AfterRound(before, results), id, NextP95(p, p95), NextQpsUnits(s, qps))
  {
    hide NextP50, NextRate, NextP95, NextQps, NextQpsUnits;
    if results != [] {
      var front, r := results[..|results| - 1], results[|results| - 1];
      RoundCarries(before, front, id, p, s, p95, qps);
      assert r in results;
      NextQpsOnGrid(s, qps);
    }
  }

  lemma {:induction false} LastLoad(p: int, s: int, p95: int, qps: int, n: nat)
    ensures P95After(p, p95, n + 1) == NextP95(P95After(p, p95, n), p95)
    ensures QpsAfter(s, qps, n + 1) == NextQpsUnits(QpsAfter(s, qps, n), qps)
    decreases n
  {
    hide NextP95, NextQpsUnits;
    if n > 0 {
      LastLoad(NextP95(p, p95), NextQpsUnits(s, qps), p95, qps, n - 1);
    }
  }

  lemma {:induction false} RoundKeepsLoad(before: map<string, Signal>, results: seq<ProbeResult>, id: string)
    returns (p: int, s: int)
    requires ValidRound(results) && (id in before ==> exists p: int, s: int :: p >= 0 && Carries(before, id, p, s))
    requires id in AfterRound(before, results)
    ensures p >= 0 && Carries(AfterRound(before, results), id, p, s)
  {
    hide NextP95, NextQps, NextP50, NextRate;
    if results == [] || results[|results| - 1].modelId != id {
      if results == [] {
        p, s :| p >= 0 && Carries(before, id, p, s);
      } else {
        p, s := RoundKeepsLoad(before, results[..|results| - 1], id);
      }
    } else {
      var r := results[|results| - 1];
      assert r in results && r.Valid();
      var previous := SignalIn(before, id);
      var p0, q0 := previous.ttfbP95Ms.GetOr(r.ttfbP95Ms), previous.throughputHintQps.GetOr(r.throughputHintQps);
      if id in before {
        var p', s' :| p' >= 0 && Carries(before, id, p', s');
      }
      NextP95Exact(p0, r.ttfbP95Ms);
      p, s := NextP95(p0, r.ttfbP95Ms), HalfEven((q0 * 0.5 + r.throughputHintQps * 0.5) * 1000.0);
      QpsRounded(q0, r.throughputHintQps);
    }
  }

  lemma QpsRounded(previous: real, reading: real)
    ensures NextQps(previous, reading) == HalfEven((previous * 0.5 + reading * 0.5) * 1000.0) as real / 1000.0
  {
  }

  /** Whatever is stored after a run of valid rounds is a 95th percentile and a throughput in thousandths. */
  lemma {:induction false} StoredCarries(rounds: seq<seq<ProbeResult>>, id: string) returns (p: int, s: int)
    requires (forall results :: results in rounds ==> ValidRound(results)) && id in AfterRounds(rounds)
    ensures p >= 0 && Carries(AfterRounds(rounds), id, p, s)
  {
    hide Carries, AfterRound;
    var front := rounds[..|rounds| - 1];
    if id in AfterRounds(front) {
      var p', s' := StoredCarries(front, id);
    }
    p, s := RoundKeepsLoad(AfterRounds(front), rounds[|rounds| - 1], id);
  }

  /** The signal stored for a model that more rounds keep finding the same comes to rest at four tenths of the 95th
      percentile read, and at the throughput read or next to it. */
  lemma {:induction false} StoredLoadSettles(rounds: seq<seq<ProbeResult>>, more: seq<seq<ProbeResult>>, id: string,
                                             p: int, s: int, p95: int, qps: int)
    requires Carries(AfterRounds(rounds), id, p, s) && p >= 0 && p95 >= 0
    requires forall results :: results in more ==> ReadsLoad(results, id, p95, qps)
    ensures Carries(AfterRounds(rounds + more), id, P95After(p, p95, |more|), QpsAfter(s, qps, |more|))
    ensures |more| >= 1 && |more| >= p && |more| >= s - qps && |more| >= qps - s ==>
              Carries(AfterRounds(rounds + more), id, 4 * p95 / 10, RestingQps(s, qps))
    decreases |more|
  {
    hide NextP95, NextQpsUnits, Carries, AfterRound, Probed, RestingQps;
    if more == [] {
      assert rounds + more == rounds;
    } else {
      var front, last := more[..|more| - 1], more[|more| - 1];
      StoredLoadSettles(rounds, front, id, p, s, p95, qps);
      assert (rounds + more)[..|rounds + more| - 1] == rounds + front;
      assert ReadsLoad(last, id, p95, qps);
      LastLoad(p, s, p95, qps, |front|);
      RoundCarries(AfterRounds(rounds + front), last, id, P95After(p, p95, |front|), QpsAfter(s, qps, |front|), p95,
                   qps);
    }
    if |more| >= 1 && |more| >= p && |more| >= s - qps && |more| >= qps - s {
      P95Settles(p, p95, |more|);
      QpsSettles(s, qps, |more|);
    }
  }
}
