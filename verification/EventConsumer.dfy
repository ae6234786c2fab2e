/** The stream worker: offsets that move before an entry is processed, and batches cut short by failures. */
module EventConsumer {
  import opened Wrappers
  import opened Rounding

  datatype Stream = Outcomes | Probes

  // ----- payloads

  /** A JSON number under a key that may also be missing or null. */
  datatype Field = Absent | Null | Num(value: real)

  datatype Payload = Payload(
    status: Option<string>,
    degradedReason: Option<string>,
    ttfbMs: Field,
    ttfbP50Ms: Field,
    provider: Option<string>,
    modelId: Option<string>,
    throughputHintQps: Option<real>,
    successRate: Option<real>)

  /** An entry whose payload does not parse, or one that does. */
  datatype Entry = Malformed | Parsed(payload: Payload)

  /** `payload.get("ttfb_ms", payload.get("ttfb_p50_ms"))`: an explicit null is not replaced by the default. */
  function ReadingOf(p: Payload): Field { if p.ttfbMs.Absent? then p.ttfbP50Ms else p.ttfbMs }

  /** `normalize_probe_snapshot_payload`; it raises when no reading is left. */
  function Normalize(p: Payload): Option<Payload> {
    var status := if p.status.Some? then p.status.value
                  else if p.degradedReason.Some? && p.degradedReason.value != "" then "degraded"
                  else "success";
    if !ReadingOf(p).Num? then None
    else Some(p.(status := Some(status), ttfbMs := Num(Trunc(ReadingOf(p).value) as real)))
  }

  datatype Snapshot = Snapshot(
    provider: string,
    modelId: string,
    status: string,
    ttfbMs: int,
    throughputHintQps: real,
    successRate: real,
    degradedReason: Option<string>)

  /** The row a probe entry is stored as, unless it does not parse, has no reading, or lacks a required key. */
  function SnapshotOf(e: Entry): Option<Snapshot> {
    if e.Malformed? then None
    else
      var p := e.payload;
      var n := Normalize(p);
      if n.None? || p.provider.None? || p.modelId.None? || p.throughputHintQps.None? || p.successRate.None? then None
      else Some(Snapshot(p.provider.value, p.modelId.value, n.value.status.GetOr(""), Trunc(n.value.ttfbMs.value),
                         p.throughputHintQps.value, p.successRate.value, p.degradedReason))
  }

  /** Normalizing fails exactly when there is no reading. Otherwise it keeps a given status, derives a missing one from
      the degraded reason, cuts the fraction off the reading, keeps everything else, and has nothing left to do a second
      time. */
  lemma NormalizeSettles(p: Payload)
    ensures Normalize(p).None? <==> !ReadingOf(p).Num?
    ensures Normalize(p).Some? ==>
              var n := Normalize(p).value;
              && n.status.Some? && n.ttfbMs.Num?
              && n == p.(status := n.status, ttfbMs := n.ttfbMs)
              && (p.status.Some? ==> n.status == p.status)
              && (p.status.None? ==> n.status.value == "degraded" || n.status.value == "success")
              && (p.status.None? ==>
                  (n.status.value == "degraded" <==> p.degradedReason.Some? && p.degradedReason.value != ""))
              && CutsFraction(ReadingOf(p).value, n.ttfbMs.value)
              && Normalize(n) == Some(n)
  {
    if ReadingOf(p).Num? {
      var v := Trunc(ReadingOf(p).value);
      assert Trunc(v as real) == v;
    }
  }

  /** A probe entry is stored exactly if it parses, has a reading and none of its four other required keys is missing;
      the row then has their values, the derived status, the reading cut off, and the degraded reason if there is
      one. */
  lemma SnapshotLaw(e: Entry)
    ensures SnapshotOf(e).Some? <==>
            && e.Parsed? && ReadingOf(e.payload).Num?
            && e.payload.provider.Some? && e.payload.modelId.Some?
            && e.payload.throughputHintQps.Some? && e.payload.successRate.Some?
    ensures SnapshotOf(e).Some? ==>
              var row, p := SnapshotOf(e).value, e.payload;
              && Some(row.provider) == p.provider && Some(row.modelId) == p.modelId
              && Some(row.throughputHintQps) == p.throughputHintQps && Some(row.successRate) == p.successRate
              && row.degradedReason == p.degradedReason
              && CutsFraction(ReadingOf(p).value, row.ttfbMs as real)
              && (p.status.Some? ==> row.status == p.status.value)
              && (p.status.None? && p.degradedReason.GetOr("") != "" ==> row.status == "degraded")
              && (p.status.None? && p.degradedReason.GetOr("") == "" ==> row.status == "success")
  {
    if SnapshotOf(e).Some? {
      var v := Trunc(ReadingOf(e.payload).value);
      assert Trunc(v as real) == v;
    }
  }

  /** The reading is under its own key, or under the older one if that key is missing; a null does not count as
      missing. */
  lemma ReadingLaw(p: Payload, x: real)
    ensures ReadingOf(p) == Num(x) <==> p.ttfbMs == Num(x) || (p.ttfbMs.Absent? && p.ttfbP50Ms == Num(x))
  {
  }

  /** `n` is whole, on the same side of zero as `x`, and less than one away from it in that direction. */
  predicate CutsFraction(x: real, n: real) {
    n == n.Floor as real && if x >= 0.0 then x - 1.0 < n <= x && n >= 0.0 else x <= n < x + 1.0 && n <= 0.0
  }

  // ----- the machine

  /** What the worker has done: its offsets, the entries it has taken up, and the rows it has stored. */
  datatype Progress = Progress(offsets: map<Stream, nat>, attempted: map<Stream, seq<Entry>>, stored: seq<Snapshot>) {
    ghost predicate Wf() { forall s: Stream :: s in offsets && s in attempted }
  }

  const FRESH := Progress(map[Outcomes := 0, Probes := 0], map[Outcomes := [], Probes := []], [])

  /** Whether taking up an entry succeeds: the database answers for the entry or fails it. */
  predicate Succeeds(stream: Stream, id: nat, e: Entry, dbUp: (Stream, nat) -> bool) {
    if stream == Probes then SnapshotOf(e).Some? && dbUp(stream, id) else !e.Malformed?
  }

  /** An outcome entry fails exactly if it does not parse; a probe entry also if it lacks a reading or a required key,
      or if the database is down. */
  lemma FailureLaw(stream: Stream, id: nat, e: Entry, dbUp: (Stream, nat) -> bool)
    ensures Succeeds(stream, id, e, dbUp) <==>
            && e.Parsed?
            && (stream.Probes? ==>
                  && ReadingOf(e.payload).Num? && e.payload.provider.Some? && e.payload.modelId.Some?
                  && e.payload.throughputHintQps.Some? && e.payload.successRate.Some? && dbUp(stream, id))
  {
    SnapshotLaw(e);
    hide SnapshotOf;
  }

  /** Taking up one entry: the offset moves first, whatever happens next. */
  function TakeUp(g: Progress, stream: Stream, id: nat, e: Entry, dbUp: (Stream, nat) -> bool): Progress
    requires stream in g.attempted
  {
    Progress(g.offsets[stream := id], g.attempted[stream := g.attempted[stream] + [e]],
             if stream == Probes && Succeeds(stream, id, e, dbUp) then g.stored + [SnapshotOf(e).value] else g.stored)
  }

  datatype Delivery = Delivery(stream: Stream, id: nat, entry: Entry)

  /** A batch is worked off until the first failure, which abandons the rest of it. */
  function WorkOff(g: Progress, batch: seq<Delivery>, dbUp: (Stream, nat) -> bool): Progress
    requires g.Wf()
    decreases |batch|
  {
    if batch == [] then g
    else
      var d := batch[0];
      var g' := TakeUp(g, d.stream, d.id, d.entry, dbUp);
      if Succeeds(d.stream, d.id, d.entry, dbUp) then WorkOff(g', batch[1..], dbUp) else g'
  }

  /** Working off the batch from entry `i` on takes that entry up first. */
  lemma WorkOffFrom(g: Progress, batch: seq<Delivery>, i: nat, dbUp: (Stream, nat) -> bool)
    requires g.Wf() && i <= |batch|
    ensures i == |batch| ==> WorkOff(g, batch[i..], dbUp) == g
    ensures i < |batch| ==>
              var d := batch[i];
              var g' := TakeUp(g, d.stream, d.id, d.entry, dbUp);
              g'.Wf() && WorkOff(g, batch[i..], dbUp)
                == if Succeeds(d.stream, d.id, d.entry, dbUp) then WorkOff(g', batch[i + 1..], dbUp) else g'
  {
    hide Succeeds, SnapshotOf;
    if i < |batch| {
      TakeUpWf(g, batch[i], dbUp);
      assert batch[i..][0] == batch[i] && batch[i..][1..] == batch[i + 1..];
    }
  }

  class Worker {
    var offsets: map<Stream, nat>
    var snapshots: seq<Snapshot>
    ghost var attempted: map<Stream, seq<Entry>>

    ghost function Abs(): Progress
      reads this
    {
      Progress(offsets, attempted, snapshots)
    }

    constructor ()
      ensures Abs() == FRESH
    {
      offsets := map[Outcomes := 0, Probes := 0];
      attempted := map[Outcomes := [], Probes := []];
      snapshots := [];
    }

    /** `record_probe_snapshot`: false when it raises. */
    method RecordProbeSnapshot(e: Entry, up: bool) returns (ok: bool)
      modifies this`snapshots
      ensures ok <==> SnapshotOf(e).Some? && up
      ensures snapshots == if ok then old(snapshots) + [SnapshotOf(e).value] else old(snapshots)
    {
      var row := SnapshotOf(e);
      if row.None? || !up {
        return false;
      }
      snapshots := snapshots + [row.value];
      return true;
    }

    /** One iteration of the endless loop; the handler swallows the exception and the loop goes on. */
    method Iterate(batch: seq<Delivery>, dbUp: (Stream, nat) -> bool)
      requires Abs().Wf()
      modifies this
      ensures Abs() == WorkOff(old(Abs()), batch, dbUp)
    {
      hide WorkOff, SnapshotOf;
      var failed := false;
      var i := 0;
      assert batch[0..] == batch;
      while i < |batch| && !failed
        invariant 0 <= i <= |batch| && Abs().Wf()
        invariant WorkOff(old(Abs()), batch, dbUp) == if failed then Abs() else WorkOff(Abs(), batch[i..], dbUp)
      {
        var d := batch[i];
        WorkOffFrom(Abs(), batch, i, dbUp);
        offsets := offsets[d.stream := d.id];
        attempted := attempted[d.stream := attempted[d.stream] + [d.entry]];
        if d.stream == Probes {
          var ok := RecordProbeSnapshot(d.entry, dbUp(d.stream, d.id));
          failed := !ok;
        } else {
          failed := d.entry.Malformed?;
        }
        i := i + 1;
      }
      WorkOffFrom(Abs(), batch, |batch|, dbUp);
      assert batch[|batch|..] == [];
    }
  }

  // ----- runs

  /** The two streams as they stand when a read is made. */
  datatype Logs = Logs(outcomes: seq<Entry>, probes: seq<Entry>) {
    function Of(s: Stream): seq<Entry> { if s == Outcomes then outcomes else probes }
  }

  /** What XREAD can return: on each stream, the entries that follow its offset, in order. (It also groups them by
      stream and stops at fifty; neither is needed.) */
  ghost predicate IsRead(offsets: map<Stream, nat>, logs: Logs, batch: seq<Delivery>)
    decreases |batch|
  {
    batch == [] ||
    var d := batch[0];
    && d.stream in offsets && d.id == offsets[d.stream] + 1 <= |logs.Of(d.stream)|
    && d.entry == logs.Of(d.stream)[d.id - 1]
    && IsRead(offsets[d.stream := d.id], logs, batch[1..])
  }

  /** The rows of the successful probe entries, in order. */
  function Rows(probes: seq<Entry>, dbUp: (Stream, nat) -> bool): seq<Snapshot> {
    if probes == [] then []
    else
      var n := |probes|;
      Rows(probes[..n - 1], dbUp) + (if Succeeds(Probes, n, probes[n - 1], dbUp) then [SnapshotOf(probes[n - 1]).value]
                                     else [])
  }

  /** Each stream has been taken up exactly as far as its offset, every entry once and in order; the rows are the
      successes. */
  ghost predicate InStep(g: Progress, logs: Logs, dbUp: (Stream, nat) -> bool) {
    && g.Wf()
    && (forall s: Stream :: g.offsets[s] <= |logs.Of(s)| && g.attempted[s] == logs.Of(s)[..g.offsets[s]])
    && g.stored == Rows(g.attempted[Probes], dbUp)
  }

  lemma OneRowMore(attempted: seq<Entry>, e: Entry, dbUp: (Stream, nat) -> bool)
    ensures Rows(attempted + [e], dbUp) ==
            Rows(attempted, dbUp) + (if Succeeds(Probes, |attempted| + 1, e, dbUp) then [SnapshotOf(e).value] else [])
  {
    hide SnapshotOf, Succeeds;
    assert (attempted + [e])[..|attempted|] == attempted;
  }

  lemma OneEntryMore(log: seq<Entry>, n: nat)
    requires n < |log|
    ensures log[..n] + [log[n]] == log[..n + 1]
  {
  }

  /** The offset and the entries taken up move together. */
  lemma TakeUpPositions(g: Progress, logs: Logs, d: Delivery, dbUp: (Stream, nat) -> bool, s: Stream)
    requires g.Wf() && g.offsets[s] <= |logs.Of(s)| && g.attempted[s] == logs.Of(s)[..g.offsets[s]]
    requires d.id == g.offsets[d.stream] + 1 <= |logs.Of(d.stream)| && d.entry == logs.Of(d.stream)[d.id - 1]
    ensures var g' := TakeUp(g, d.stream, d.id, d.entry, dbUp);
            s in g'.offsets && s in g'.attempted && g'.offsets[s] <= |logs.Of(s)|
              && g'.attempted[s] == logs.Of(s)[..g'.offsets[s]]
  {
    hide SnapshotOf, Succeeds, Logs.Of;
    OneEntryMore(logs.Of(d.stream), g.offsets[d.stream]);
  }

  lemma TakeUpRows(g: Progress, d: Delivery, dbUp: (Stream, nat) -> bool)
    requires g.Wf() && g.stored == Rows(g.attempted[Probes], dbUp) && d.id == |g.attempted[d.stream]| + 1
    ensures var g' := TakeUp(g, d.stream, d.id, d.entry, dbUp);
            g'.Wf() && g'.stored == Rows(g'.attempted[Probes], dbUp)
  {
    hide SnapshotOf, Rows;
    TakeUpWf(g, d, dbUp);
    OneRowMore(g.attempted[Probes], d.entry, dbUp);
  }

  lemma TakeUpInStep(g: Progress, logs: Logs, d: Delivery, dbUp: (Stream, nat) -> bool)
    requires InStep(g, logs, dbUp)
    requires d.id == g.offsets[d.stream] + 1 <= |logs.Of(d.stream)| && d.entry == logs.Of(d.stream)[d.id - 1]
    ensures InStep(TakeUp(g, d.stream, d.id, d.entry, dbUp), logs, dbUp)
  {
    hide TakeUp, Rows, Logs.Of;
    forall s: Stream {
      TakeUpPositions(g, logs, d, dbUp, s);
    }
    TakeUpRows(g, d, dbUp);
  }

  /** One iteration, failures and all, keeps the worker in step and moves no offset back; if it read anything, the
      first entry it read is behind it. */
  lemma {:induction false} IterationInStep(g: Progress, logs: Logs, batch: seq<Delivery>, dbUp: (Stream, nat) -> bool)
    requires InStep(g, logs, dbUp) && IsRead(g.offsets, logs, batch)
    ensures InStep(WorkOff(g, batch, dbUp), logs, dbUp)
    ensures forall s: Stream :: WorkOff(g, batch, dbUp).offsets[s] >= g.offsets[s]
    ensures batch != [] ==> WorkOff(g, batch, dbUp).offsets[batch[0].stream] >= batch[0].id > g.offsets[batch[0].stream]
    decreases |batch|
  {
    hide SnapshotOf, Succeeds;
    if batch != [] {
      var d := batch[0];
      TakeUpInStep(g, logs, d, dbUp);
      var g' := TakeUp(g, d.stream, d.id, d.entry, dbUp);
      if Succeeds(d.stream, d.id, d.entry, dbUp) {
        IterationInStep(g', logs, batch[1..], dbUp);
      }
    }
  }

  /** The entries that a batch holds of one stream, in order. */
  function EntriesOf(batch: seq<Delivery>, s: Stream): seq<Entry>
    decreases |batch|
  {
    if batch == [] then []
    else (if batch[0].stream == s then [batch[0].entry] else []) + EntriesOf(batch[1..], s)
  }

  /** The part of a batch that is taken up if its entry number `k` is the first to fail, or none is. */
  function UpToFailure(batch: seq<Delivery>, k: nat): seq<Delivery>
    requires k <= |batch|
  {
    if k < |batch| then batch[..k + 1] else batch
  }

  lemma NoEntries(s: Stream)
    ensures EntriesOf([], s) == []
  {
  }

  lemma TakenFirst(g: Progress, d: Delivery, rest: seq<Delivery>, dbUp: (Stream, nat) -> bool, s: Stream)
    requires g.Wf()
    ensures var g' := TakeUp(g, d.stream, d.id, d.entry, dbUp);
            g'.Wf() && g'.attempted[s] + EntriesOf(rest, s) == g.attempted[s] + EntriesOf([d] + rest, s)
  {
    hide SnapshotOf, Succeeds;
    TakeUpWf(g, d, dbUp);
    assert ([d] + rest)[1..] == rest;
  }

  lemma {:induction false} TakenUpToFailure(g: Progress, batch: seq<Delivery>, k: nat, dbUp: (Stream, nat) -> bool,
                                            s: Stream)
    requires g.Wf() && k <= |batch|
    requires forall i :: 0 <= i < k ==> Succeeds(batch[i].stream, batch[i].id, batch[i].entry, dbUp)
    requires k < |batch| ==> !Succeeds(batch[k].stream, batch[k].id, batch[k].entry, dbUp)
    ensures s in WorkOff(g, batch, dbUp).attempted
    ensures WorkOff(g, batch, dbUp).attempted[s] == g.attempted[s] + EntriesOf(UpToFailure(batch, k), s)
    decreases |batch|
  {
    hide SnapshotOf, Succeeds, TakeUp, EntriesOf;
    if batch == [] {
      NoEntries(s);
    } else {
      var d := batch[0];
      if k == 0 {
        TakenFirst(g, d, [], dbUp, s);
        NoEntries(s);
        assert batch[..1] == [d] + [];
      } else {
        var rest := UpToFailure(batch[1..], k - 1);
        assert UpToFailure(batch, k) == [d] + rest;
        TakenFirst(g, d, rest, dbUp, s);
        TakenUpToFailure(TakeUp(g, d.stream, d.id, d.entry, dbUp), batch[1..], k - 1, dbUp, s);
      }
    }
  }

  /** A batch in which nothing fails is taken up whole, one whose entry number `k` is the first to fail up to and
      including it: of each stream exactly the entries of that part, in order. What follows has no effect. */
  lemma {:induction false} FirstFailureStops(g: Progress, batch: seq<Delivery>, k: nat, dbUp: (Stream, nat) -> bool)
    requires g.Wf() && k <= |batch|
    requires forall i :: 0 <= i < k ==> Succeeds(batch[i].stream, batch[i].id, batch[i].entry, dbUp)
    requires k < |batch| ==> !Succeeds(batch[k].stream, batch[k].id, batch[k].entry, dbUp)
    ensures WorkOff(g, batch, dbUp) == WorkOff(g, UpToFailure(batch, k), dbUp)
    ensures WorkOff(g, batch, dbUp).Wf()
    ensures forall s: Stream ::
              WorkOff(g, batch, dbUp).attempted[s] == g.attempted[s] + EntriesOf(UpToFailure(batch, k), s)
    decreases |batch|
  {
    hide SnapshotOf, Succeeds, TakeUp, EntriesOf;
    WorkOffWf(g, batch, dbUp);
    forall s: Stream
      ensures WorkOff(g, batch, dbUp).attempted[s] == g.attempted[s] + EntriesOf(UpToFailure(batch, k), s)
    {
      TakenUpToFailure(g, batch, k, dbUp, s);
    }
    if k < |batch| {
      var d := batch[0];
      var g' := TakeUp(g, d.stream, d.id, d.entry, dbUp);
      assert g'.Wf() by { TakeUpWf(g, d, dbUp); }
      if k > 0 {
        assert batch[1..][..k] == batch[..k + 1][1..];
        FirstFailureStops(g', batch[1..], k - 1, dbUp);
      }
    }
  }

  lemma TakeUpWf(g: Progress, d: Delivery, dbUp: (Stream, nat) -> bool)
    requires g.Wf()
    ensures TakeUp(g, d.stream, d.id, d.entry, dbUp).Wf()
  {
  }

  /** One turn of the endless loop: the streams as they stand, and what the read returned. */
  datatype Turn = Turn(logs: Logs, batch: seq<Delivery>)

  lemma FreshWf()
    ensures FRESH.Wf()
  {
    forall s: Stream
      ensures s in FRESH.offsets && s in FRESH.attempted
    {
      assert s == Outcomes || s == Probes;
    }
  }

  ghost function After(turns: seq<Turn>, dbUp: (Stream, nat) -> bool): (g: Progress)
    ensures g.Wf()
  {
    if turns == [] then FreshWf(); FRESH
    else
      var g := After(turns[..|turns| - 1], dbUp);
      WorkOffWf(g, turns[|turns| - 1].batch, dbUp);
      WorkOff(g, turns[|turns| - 1].batch, dbUp)
  }

  lemma {:induction false} WorkOffWf(g: Progress, batch: seq<Delivery>, dbUp: (Stream, nat) -> bool)
    requires g.Wf()
    ensures WorkOff(g, batch, dbUp).Wf()
    decreases |batch|
  {
    hide SnapshotOf, Succeeds;
    if batch != [] {
      WorkOffWf(TakeUp(g, batch[0].stream, batch[0].id, batch[0].entry, dbUp), batch[1..], dbUp);
    }
  }

  /** Streams only grow, and each turn reads from where the worker then stands. */
  ghost predicate WorkerRun(turns: seq<Turn>, dbUp: (Stream, nat) -> bool) {
    turns == [] ||
    var front, t := turns[..|turns| - 1], turns[|turns| - 1];
    && WorkerRun(front, dbUp)
    && (front != [] ==>
          front[|front| - 1].logs.outcomes <= t.logs.outcomes && front[|front| - 1].logs.probes <= t.logs.probes)
    && IsRead(After(front, dbUp).offsets, t.logs, t.batch)
  }

  /** Over any run of the worker, whatever arrives and whatever fails: the entries taken up on each stream are exactly
      its front up to the offset, and the stored rows exactly the successful probe entries among them; this holds
      before each turn as it does after it. */
  lemma {:induction false} WorkerStaysInStep(turns: seq<Turn>, dbUp: (Stream, nat) -> bool)
    requires WorkerRun(turns, dbUp) && turns != []
    ensures InStep(After(turns, dbUp), turns[|turns| - 1].logs, dbUp)
    ensures InStep(After(turns[..|turns| - 1], dbUp), turns[|turns| - 1].logs, dbUp)
  {
    hide InStep, IsRead, WorkOff, Rows;
    var front, t := turns[..|turns| - 1], turns[|turns| - 1];
    var g := After(front, dbUp);
    if front == [] {
      FreshInStep(t.logs, dbUp);
    } else {
      WorkerStaysInStep(front, dbUp);
      GrownInStep(g, front[|front| - 1].logs, t.logs, dbUp);
    }
    IterationInStep(g, t.logs, t.batch, dbUp);
  }

  lemma FreshInStep(logs: Logs, dbUp: (Stream, nat) -> bool)
    ensures InStep(FRESH, logs, dbUp)
  {
    FreshWf();
    forall s: Stream
      ensures FRESH.offsets[s] == 0 && FRESH.attempted[s] == []
    {
      assert s == Outcomes || s == Probes;
    }
  }

  function TakenUp(g: Progress): nat
    requires Outcomes in g.offsets && Probes in g.offsets
  {
    g.offsets[Outcomes] + g.offsets[Probes]
  }

  function NonEmptyReads(turns: seq<Turn>): nat {
    if turns == [] then 0
    else NonEmptyReads(turns[..|turns| - 1]) + (if turns[|turns| - 1].batch != [] then 1 else 0)
  }

  /** No entry blocks the worker: every read that returns anything takes at least one more entry up, even if each of
      them fails. */
  lemma {:induction false} EveryReadAdvances(turns: seq<Turn>, dbUp: (Stream, nat) -> bool)
    requires WorkerRun(turns, dbUp)
    ensures TakenUp(After(turns, dbUp)) >= NonEmptyReads(turns)
  {
    hide InStep, IsRead, WorkOff, Rows;
    if turns != [] {
      var front, t := turns[..|turns| - 1], turns[|turns| - 1];
      EveryReadAdvances(front, dbUp);
      WorkerStaysInStep(turns, dbUp);
      IterationInStep(After(front, dbUp), t.logs, t.batch, dbUp);
      if t.batch != [] {
        assert t.batch[0].stream == Outcomes || t.batch[0].stream == Probes;
      }
    }
  }

  lemma GrownInStep(g: Progress, before: Logs, after: Logs, dbUp: (Stream, nat) -> bool)
    requires InStep(g, before, dbUp) && before.outcomes <= after.outcomes && before.probes <= after.probes
    ensures InStep(g, after, dbUp)
  {
    forall s: Stream
      ensures g.offsets[s] <= |after.Of(s)| && g.attempted[s] == after.Of(s)[..g.offsets[s]]
    {
      assert before.Of(s) <= after.Of(s);
    }
  }
}
