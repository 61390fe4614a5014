/** Two buffered senders. The metering client serialises its flushes with a flag; the audit log does not.
    A flush is two steps, its start and the outcome of its request; all steps interleave. */
module Buffers {
  import opened Wrappers

  type Item = string

  // ---------------------------------------------------------------------------
  // Metering
  // ---------------------------------------------------------------------------

  /** inFlight is the batch of the flush under way; acknowledged and emitted are history. */
  datatype Metering = Metering(buffer: seq<Item>, flushing: bool, inFlight: seq<Item>, timer: bool,
                               acknowledged: seq<Item>, emitted: seq<Item>)

  datatype MeterStep = Emit(item: Item) | Tick | Succeed | Fail | Shutdown

  function FlushStarted(m: Metering): Metering {
    if m.flushing || m.buffer == [] then m
    else m.(flushing := true, inFlight := m.buffer, buffer := [])
  }

  function MeterNext(m: Metering, step: MeterStep, enabled: bool, max: nat): Metering {
    match step
    case Emit(item) =>
      if !enabled then m
      else
        var m' := m.(buffer := m.buffer + [item], emitted := m.emitted + [item]);
        if |m'.buffer| >= max then FlushStarted(m') else m'
    case Tick => if m.timer then FlushStarted(m) else m
    case Succeed => if m.flushing then m.(flushing := false, inFlight := [], acknowledged := m.acknowledged + m.inFlight) else m
    case Fail => if m.flushing then m.(flushing := false, inFlight := [], buffer := m.inFlight + m.buffer) else m
    case Shutdown => FlushStarted(m.(timer := false))
  }

  function MeterRun(m: Metering, steps: seq<MeterStep>, enabled: bool, max: nat): Metering
    decreases |steps|
  {
    if steps == [] then m else MeterRun(MeterNext(m, steps[0], enabled, max), steps[1..], enabled, max)
  }

  /** What each step sends, keeps and gives back. */
  predicate Sends(m: Metering, m': Metering) {
    && m'.flushing && m'.inFlight == m.buffer && m'.buffer == []
    && m'.timer == m.timer && m'.acknowledged == m.acknowledged && m'.emitted == m.emitted
  }

  /** An event goes to the back of the buffer; one that fills it sends it all, unless a flush is under way. */
  lemma EmitMeans(m: Metering, item: Item, enabled: bool, max: nat)
    ensures var m' := MeterNext(m, Emit(item), enabled, max);
            var appended := m.(buffer := m.buffer + [item], emitted := m.emitted + [item]);
            if !enabled then m' == m
            else if m.flushing || |m.buffer| + 1 < max then m' == appended
            else Sends(appended, m')
  {
  }

  /** A tick sends what waits only while the timer runs; a shutdown stops the timer and sends it in any case. */
  lemma TickAndShutdownMean(m: Metering, enabled: bool, max: nat)
    ensures var m' := MeterNext(m, Tick, enabled, max);
            if m.timer && !m.flushing && m.buffer != [] then Sends(m, m') else m' == m
    ensures var m', stopped := MeterNext(m, Shutdown, enabled, max), m.(timer := false);
            if !m.flushing && m.buffer != [] then Sends(stopped, m') else m' == stopped
  {
  }

  predicate Outcome(step: MeterStep) {
    step.Succeed? || step.Fail?
  }

  /** Idle, the client holds fewer events than the limit. */
  predicate BelowLimit(m: Metering, max: nat) {
    m.flushing || |m.buffer| < max
  }

  /** What the end of a flush leaves in the buffer is below the limit. */
  predicate LeavesRoom(m: Metering, step: MeterStep, max: nat) {
    m.flushing && Outcome(step) ==> |m.buffer| + (if step.Fail? then |m.inFlight| else 0) < max
  }

  lemma StepBelowLimit(m: Metering, step: MeterStep, enabled: bool, max: nat)
    requires BelowLimit(m, max) && max > 0
    ensures BelowLimit(MeterNext(m, step, enabled, max), max) <==> LeavesRoom(m, step, max)
  {
  }

  /** Every flush of the run that ends leaves the buffer below the limit. */
  predicate AlwaysRoom(m: Metering, steps: seq<MeterStep>, enabled: bool, max: nat)
    decreases |steps|
  {
    steps == [] || (LeavesRoom(m, steps[0], max) && AlwaysRoom(MeterNext(m, steps[0], enabled, max), steps[1..], enabled, max))
  }

  predicate AlwaysBelow(m: Metering, steps: seq<MeterStep>, enabled: bool, max: nat)
    decreases |steps|
  {
    BelowLimit(m, max) && (steps == [] || AlwaysBelow(MeterNext(m, steps[0], enabled, max), steps[1..], enabled, max))
  }

  /** The size limit bounds an idle client throughout a run exactly when no flush ends with the limit reached:
      events emitted during it, and those of a failed batch, go over it, and nothing is sent then. */
  lemma {:induction false} LimitHoldsIff(m: Metering, steps: seq<MeterStep>, enabled: bool, max: nat)
    requires BelowLimit(m, max) && max > 0
    ensures AlwaysBelow(m, steps, enabled, max) <==> AlwaysRoom(m, steps, enabled, max)
    decreases |steps|
  {
    if steps != [] {
      var m' := MeterNext(m, steps[0], enabled, max);
      StepBelowLimit(m, steps[0], enabled, max);
      if BelowLimit(m', max) { LimitHoldsIff(m', steps[1..], enabled, max); }
    }
  }

  /** Acknowledged, then in flight, then buffered: exactly what was emitted, in order. */
  predicate InSequence(m: Metering) {
    && m.acknowledged + m.inFlight + m.buffer == m.emitted
    && (m.flushing <==> m.inFlight != [])
  }

  lemma MeterStepInSequence(m: Metering, step: MeterStep, enabled: bool, max: nat)
    requires InSequence(m)
    ensures InSequence(MeterNext(m, step, enabled, max))
  {
    var m' := MeterNext(m, step, enabled, max);
    assert m.acknowledged + m.inFlight + m.buffer == m.acknowledged + (m.inFlight + m.buffer);
    if step.Emit? && enabled {
      assert (m.acknowledged + m.inFlight + m.buffer) + [step.item] == m.acknowledged + m.inFlight + (m.buffer + [step.item]);
    }
  }

  /** For every interleaving of emits, timer ticks, outcomes and shutdowns: nothing is lost, repeated or
      reordered, and at most one batch is in flight. */
  lemma {:induction false} MeterRunInSequence(m: Metering, steps: seq<MeterStep>, enabled: bool, max: nat)
    requires InSequence(m)
    ensures InSequence(MeterRun(m, steps, enabled, max))
    decreases |steps|
  {
    if steps != [] {
      MeterStepInSequence(m, steps[0], enabled, max);
      MeterRunInSequence(MeterNext(m, steps[0], enabled, max), steps[1..], enabled, max);
    }
  }

  predicate Delivered(m: Metering) {
    m.acknowledged == m.emitted
  }

  lemma DeliveredIff(m: Metering)
    requires InSequence(m)
    ensures Delivered(m) <==> m.inFlight == [] && m.buffer == []
  {
    assert m.acknowledged + m.inFlight + m.buffer == m.acknowledged + (m.inFlight + m.buffer);
    if Delivered(m) { assert |m.inFlight + m.buffer| == 0; }
  }

  /** What can still happen after a shutdown: late ticks, and outcomes of the flush under way. */
  predicate WindingDown(steps: seq<MeterStep>) {
    forall step | step in steps :: step.Tick? || step.Succeed? || step.Fail?
  }

  /** Whether the first outcome, if there is one, is a success. */
  function FirstOutcome(steps: seq<MeterStep>): Option<bool> {
    if steps == [] then None
    else if steps[0].Succeed? then Some(true)
    else if steps[0].Fail? then Some(false)
    else FirstOutcome(steps[1..])
  }

  lemma {:induction false} StoppedDelivers(m: Metering, steps: seq<MeterStep>, enabled: bool, max: nat)
    requires InSequence(m) && !m.timer && WindingDown(steps)
    ensures Delivered(MeterRun(m, steps, enabled, max)) <==>
              m.buffer == [] && (m.inFlight == [] || FirstOutcome(steps) == Some(true))
    decreases |steps|
  {
    if steps == [] {
      DeliveredIff(m);
    } else {
      assert steps[0] in steps;
      MeterStepInSequence(m, steps[0], enabled, max);
      StoppedDelivers(MeterNext(m, steps[0], enabled, max), steps[1..], enabled, max);
    }
  }

  /** A shutdown delivers every remaining event, whatever ticks and outcomes follow it, exactly when no event
      waits behind a flush already under way, and the request that is under way or that the shutdown starts,
      if any, succeeds. */
  lemma ShutdownDelivers(m: Metering, steps: seq<MeterStep>, enabled: bool, max: nat)
    requires InSequence(m) && WindingDown(steps)
    ensures Delivered(MeterRun(MeterNext(m, Shutdown, enabled, max), steps, enabled, max)) <==>
              && (!m.flushing || m.buffer == [])
              && ((m.inFlight == [] && m.buffer == []) || FirstOutcome(steps) == Some(true))
  {
    MeterStepInSequence(m, Shutdown, enabled, max);
    StoppedDelivers(MeterNext(m, Shutdown, enabled, max), steps, enabled, max);
  }

  class MeteringClient {
    const enabled: bool
    const max: nat
    var buffer: seq<Item>
    var flushing: bool
    var inFlight: seq<Item>
    var timer: bool
    ghost var acknowledged: seq<Item>
    ghost var emitted: seq<Item>

    ghost function Model(): Metering
      reads this
    {
      Metering(buffer, flushing, inFlight, timer, acknowledged, emitted)
    }

    /** maxBufferSize defaults to 100. */
    constructor (enabled: bool, max: nat := 100)
      ensures this.enabled == enabled && this.max == max
      ensures Model() == Metering([], false, [], enabled, [], []) && InSequence(Model())
    {
      this.enabled, this.max := enabled, max;
      buffer, flushing, inFlight, timer := [], false, [], enabled;
      acknowledged, emitted := [], [];
    }

    method EmitEvent(item: Item)
      modifies this
      ensures Model() == MeterNext(old(Model()), Emit(item), enabled, max)
    {
      if !enabled { return; }
      buffer := buffer + [item];
      emitted := emitted + [item];
      if |buffer| >= max { StartFlush(); }
    }

    /** flush up to its request. */
    method StartFlush()
      modifies this
      ensures Model() == FlushStarted(old(Model()))
    {
      if flushing || |buffer| == 0 { return; }
      flushing := true;
      inFlight, buffer := buffer, [];
    }

    /** The rest of flush: the number of events delivered. */
    method FinishFlush(ok: bool) returns (sent: nat)
      requires flushing
      modifies this
      ensures Model() == MeterNext(old(Model()), if ok then Succeed else Fail, enabled, max)
      ensures sent == if ok then |old(inFlight)| else 0
    {
      sent := 0;
      if ok {
        sent := |inFlight|;
        acknowledged := acknowledged + inFlight;
      } else {
        buffer := inFlight + buffer;
      }
      inFlight := [];
      flushing := false;
    }

    method Stop()
      modifies this
      ensures Model() == MeterNext(old(Model()), Shutdown, enabled, max)
    {
      timer := false;
      StartFlush();
    }
  }

  // ---------------------------------------------------------------------------
  // Audit log
  // ---------------------------------------------------------------------------

  datatype Entry = Entry(eventType: string, source: string, severity: string, message: string, details: string)

  function Fields(e: Entry): seq<string> { [e.eventType, e.source, e.severity, e.message, e.details] }

  /** Any number of batches may be in flight; finished ones leave an empty place. */
  datatype Audit = Audit(buffer: seq<Entry>, inFlight: seq<seq<Entry>>, stored: seq<Entry>, recorded: seq<Entry>)

  datatype AuditStep = Record(entry: Entry) | Flush | Store(k: nat) | Restore(k: nat)

  const AUDIT_LIMIT := 200

  function AuditFlushed(a: Audit): Audit {
    if a.buffer == [] then a else a.(inFlight := a.inFlight + [a.buffer], buffer := [])
  }

  function AuditNext(a: Audit, step: AuditStep): Audit {
    match step
    case Record(entry) =>
      var a' := a.(buffer := a.buffer + [entry], recorded := a.recorded + [entry]);
      if |a'.buffer| > AUDIT_LIMIT then AuditFlushed(a') else a'
    case Flush => AuditFlushed(a)
    case Store(k) =>
      if k < |a.inFlight| then a.(stored := a.stored + a.inFlight[k], inFlight := a.inFlight[k := []]) else a
    case Restore(k) =>
      if k < |a.inFlight| then a.(buffer := a.inFlight[k] + a.buffer, inFlight := a.inFlight[k := []]) else a
  }

  function AuditRun(a: Audit, steps: seq<AuditStep>): Audit
    decreases |steps|
  {
    if steps == [] then a else AuditRun(AuditNext(a, steps[0]), steps[1..])
  }

  /** A record goes to the back of the buffer; the 201st sends them all. Whatever is sent is a new batch. */
  lemma RecordMeans(a: Audit, entry: Entry)
    ensures var a' := AuditNext(a, Record(entry));
            && a'.stored == a.stored && a'.recorded == a.recorded + [entry]
            && if |a.buffer| < 200 then a'.buffer == a.buffer + [entry] && a'.inFlight == a.inFlight
               else a'.buffer == [] && a'.inFlight == a.inFlight + [a.buffer + [entry]]
    ensures var a' := AuditNext(a, Flush);
            && a'.stored == a.stored && a'.recorded == a.recorded && a'.buffer == []
            && a'.inFlight == if a.buffer == [] then a.inFlight else a.inFlight + [a.buffer]
  {
  }

  /** A batch that ends leaves its place, to the back of the table or to the front of the buffer. */
  lemma EndMeans(a: Audit, k: nat)
    requires k < |a.inFlight|
    ensures forall step | step == Store(k) || step == Restore(k) ::
              var a' := AuditNext(a, step);
              && a'.recorded == a.recorded && |a'.inFlight| == |a.inFlight| && a'.inFlight[k] == []
              && (forall i | 0 <= i < |a.inFlight| && i != k :: a'.inFlight[i] == a.inFlight[i])
              && a'.stored == (if step.Store? then a.stored + a.inFlight[k] else a.stored)
              && a'.buffer == if step.Store? then a.buffer else a.inFlight[k] + a.buffer
  {
  }

  /** As long as no batch is put back, the buffer never holds more than 200 entries. */
  lemma {:induction false} AuditLimit(a: Audit, steps: seq<AuditStep>)
    requires |a.buffer| <= 200 && forall step | step in steps :: !step.Restore?
    ensures |AuditRun(a, steps).buffer| <= 200
    decreases |steps|
  {
    if steps != [] {
      assert steps[0] in steps;
      AuditLimit(AuditNext(a, steps[0]), steps[1..]);
    }
  }

  function All(batches: seq<seq<Entry>>): seq<Entry> {
    if batches == [] then [] else batches[0] + All(batches[1..])
  }

  /** Stored, in flight and buffered entries together are the recorded ones, in some order. */
  ghost predicate Complete(a: Audit) {
    multiset(a.stored) + multiset(All(a.inFlight)) + multiset(a.buffer) == multiset(a.recorded)
  }

  lemma {:induction false} AllConcat(a: seq<seq<Entry>>, b: seq<seq<Entry>>)
    ensures All(a + b) == All(a) + All(b)
  {
    if a == [] {
      assert a + b == b;
    } else {
      AllConcat(a[1..], b);
      assert (a + b)[1..] == a[1..] + b;
      assert a[0] + (All(a[1..]) + All(b)) == (a[0] + All(a[1..])) + All(b);
    }
  }

  lemma AllAppend(batches: seq<seq<Entry>>, b: seq<Entry>)
    ensures All(batches + [b]) == All(batches) + b
  {
    AllConcat(batches, [b]);
    assert [b][1..] == [] && All([b]) == b + [] == b;
  }

  lemma AllAround(batches: seq<seq<Entry>>, k: nat)
    requires k < |batches|
    ensures All(batches) == All(batches[..k]) + batches[k] + All(batches[k + 1..])
    ensures All(batches[k := []]) == All(batches[..k]) + All(batches[k + 1..])
  {
    var before, after := batches[..k], batches[k + 1..];
    assert batches == before + ([batches[k]] + after);
    assert batches[k := []] == before + ([[]] + after);
    AllConcat(before, [batches[k]] + after);
    AllConcat(before, [[]] + after);
    assert ([batches[k]] + after)[1..] == after && ([[]] + after)[1..] == after;
    assert All(before) + (batches[k] + All(after)) == All(before) + batches[k] + All(after);
    assert All([[]] + after) == [] + All(after) == All(after);
  }

  lemma AllTake(batches: seq<seq<Entry>>, k: nat)
    requires k < |batches|
    ensures multiset(All(batches)) == multiset(All(batches[k := []])) + multiset(batches[k])
  {
    AllAround(batches, k);
  }

  lemma AuditFlushComplete(a: Audit)
    requires Complete(a)
    ensures Complete(AuditFlushed(a))
  {
    if a.buffer != [] {
      AllAppend(a.inFlight, a.buffer);
      assert multiset(All(a.inFlight) + a.buffer) == multiset(All(a.inFlight)) + multiset(a.buffer);
    }
  }

  lemma AuditStepComplete(a: Audit, step: AuditStep)
    requires Complete(a)
    ensures Complete(AuditNext(a, step))
  {
    match step
    case Record(entry) =>
      var a' := a.(buffer := a.buffer + [entry], recorded := a.recorded + [entry]);
      assert Complete(a');
      AuditFlushComplete(a');
    case Flush => AuditFlushComplete(a);
    case Store(k) => if k < |a.inFlight| { AllTake(a.inFlight, k); }
    case Restore(k) => if k < |a.inFlight| { AllTake(a.inFlight, k); }
  }

  /** However flushes overlap and fail, no entry is lost or stored twice. */
  lemma {:induction false} AuditRunComplete(a: Audit, steps: seq<AuditStep>)
    requires Complete(a)
    ensures Complete(AuditRun(a, steps))
    decreases |steps|
  {
    if steps != [] {
      AuditStepComplete(a, steps[0]);
      AuditRunComplete(AuditNext(a, steps[0]), steps[1..]);
    }
  }

  /** Stored, then in flight by start, then buffered: the recorded entries, in order. */
  predicate Ordered(a: Audit) {
    a.stored + All(a.inFlight) + a.buffer == a.recorded
  }

  predicate NoRepeats(entries: seq<Entry>) {
    forall i, j | 0 <= i < j < |entries| :: entries[i] != entries[j]
  }

  /** Every batch started before this one has ended; or every one started after it. */
  predicate EarlierEnded(a: Audit, k: nat) {
    k < |a.inFlight| ==> All(a.inFlight[..k]) == []
  }

  predicate LaterEnded(a: Audit, k: nat) {
    k < |a.inFlight| ==> All(a.inFlight[k + 1..]) == []
  }

  /** Moving y in front of x leaves a sequence without repeats as it was only if one of them is empty. */
  lemma SwapMatters(w: seq<Entry>, x: seq<Entry>, y: seq<Entry>, z: seq<Entry>)
    requires NoRepeats(w + x + y + z)
    ensures w + y + x + z == w + x + y + z <==> x == [] || y == []
  {
    if x == [] || y == [] {
      assert w + y + x + z == w + x + y + z;
    } else {
      assert (w + x + y + z)[|w|] == x[0] && (w + x + y + z)[|w| + |x|] == y[0];
      assert (w + y + x + z)[|w|] == y[0];
    }
  }

  lemma Regroup(w: seq<Entry>, x: seq<Entry>, y: seq<Entry>, u: seq<Entry>, v: seq<Entry>)
    ensures w + (x + y + u) + v == w + x + y + (u + v)
    ensures (w + y) + (x + u) + v == w + y + x + (u + v)
    ensures w + (x + y + u) + v == (w + x) + y + u + v
    ensures w + (x + u) + (y + v) == (w + x) + u + y + v
  {
  }

  /** Storing a batch keeps the order exactly when every batch started before it has ended. */
  lemma StoreOrdered(a: Audit, k: nat)
    requires Ordered(a) && NoRepeats(a.recorded) && k < |a.inFlight| && a.inFlight[k] != []
    ensures Ordered(AuditNext(a, Store(k))) <==> EarlierEnded(a, k)
  {
    var x, y, u := All(a.inFlight[..k]), a.inFlight[k], All(a.inFlight[k + 1..]);
    AllAround(a.inFlight, k);
    Regroup(a.stored, x, y, u, a.buffer);
    SwapMatters(a.stored, x, y, u + a.buffer);
  }

  /** Putting a batch back keeps the order exactly when every batch started after it has ended. */
  lemma RestoreOrdered(a: Audit, k: nat)
    requires Ordered(a) && NoRepeats(a.recorded) && k < |a.inFlight| && a.inFlight[k] != []
    ensures Ordered(AuditNext(a, Restore(k))) <==> LaterEnded(a, k)
  {
    var x, y, u := All(a.inFlight[..k]), a.inFlight[k], All(a.inFlight[k + 1..]);
    AllAround(a.inFlight, k);
    Regroup(a.stored, x, y, u, a.buffer);
    SwapMatters(a.stored + x, y, u, a.buffer);
  }

  /** A batch that ends ends in its turn: the oldest is stored, the newest is put back. */
  predicate InTurn(a: Audit, step: AuditStep) {
    match step
    case Store(k) => k < |a.inFlight| && a.inFlight[k] != [] ==> EarlierEnded(a, k)
    case Restore(k) => k < |a.inFlight| && a.inFlight[k] != [] ==> LaterEnded(a, k)
    case _ => true
  }

  lemma FlushOrdered(a: Audit)
    requires Ordered(a)
    ensures Ordered(AuditFlushed(a))
  {
    if a.buffer != [] {
      AllAppend(a.inFlight, a.buffer);
      assert a.stored + (All(a.inFlight) + a.buffer) + [] == a.stored + All(a.inFlight) + a.buffer;
    }
  }

  lemma EndedAgain(a: Audit, k: nat)
    requires Ordered(a) && k < |a.inFlight| && a.inFlight[k] == []
    ensures AuditNext(a, Store(k)) == AuditNext(a, Restore(k)) == a
  {
    assert a.inFlight[k := []] == a.inFlight;
    assert a.stored + [] == a.stored && [] + a.buffer == a.buffer;
  }

  /** Recording and starting a flush always keep the order; an outcome does exactly when it comes in turn. */
  lemma AuditStepOrdered(a: Audit, step: AuditStep)
    requires Ordered(a) && NoRepeats(a.recorded)
    ensures Ordered(AuditNext(a, step)) <==> InTurn(a, step)
  {
    match step
    case Record(entry) =>
      var a' := a.(buffer := a.buffer + [entry], recorded := a.recorded + [entry]);
      assert a.stored + All(a.inFlight) + (a.buffer + [entry]) == (a.stored + All(a.inFlight) + a.buffer) + [entry];
      FlushOrdered(a');
    case Flush => FlushOrdered(a);
    case Store(k) => if k < |a.inFlight| { if a.inFlight[k] == [] { EndedAgain(a, k); } else { StoreOrdered(a, k); } }
    case Restore(k) => if k < |a.inFlight| { if a.inFlight[k] == [] { EndedAgain(a, k); } else { RestoreOrdered(a, k); } }
  }

  predicate AlwaysOrdered(a: Audit, steps: seq<AuditStep>)
    decreases |steps|
  {
    Ordered(a) && (steps != [] ==> AlwaysOrdered(AuditNext(a, steps[0]), steps[1..]))
  }

  predicate AlwaysInTurn(a: Audit, steps: seq<AuditStep>)
    decreases |steps|
  {
    steps != [] ==> InTurn(a, steps[0]) && AlwaysInTurn(AuditNext(a, steps[0]), steps[1..])
  }

  lemma {:induction false} RecordedGrows(a: Audit, steps: seq<AuditStep>)
    ensures a.recorded <= AuditRun(a, steps).recorded
    decreases |steps|
  {
    if steps != [] { RecordedGrows(AuditNext(a, steps[0]), steps[1..]); }
  }

  /** However flushes overlap: the order is kept throughout a run exactly when every batch ends in its turn. */
  lemma {:induction false} AuditRunOrdered(a: Audit, steps: seq<AuditStep>)
    requires Ordered(a) && NoRepeats(AuditRun(a, steps).recorded)
    ensures AlwaysOrdered(a, steps) <==> AlwaysInTurn(a, steps)
    decreases |steps|
  {
    if steps != [] {
      RecordedGrows(a, steps);
      AuditStepOrdered(a, steps[0]);
      if InTurn(a, steps[0]) { AuditRunOrdered(AuditNext(a, steps[0]), steps[1..]); }
    }
  }

  /** Overlapping flushes can store two entries in the opposite order. */
  lemma OverlapReorders(x: Entry, y: Entry) returns (steps: seq<AuditStep>)
    ensures var a := AuditRun(Audit([], [], [], []), steps);
            a.recorded == [x, y] && a.stored == [y, x]
  {
    steps := [Record(x), Flush, Record(y), Flush, Store(1), Store(0)];
    var a0 := Audit([], [], [], []);
    var a1 := AuditNext(a0, Record(x));
    assert a1 == Audit([x], [], [], [x]);
    var a2 := AuditNext(a1, Flush);
    assert a2 == Audit([], [[x]], [], [x]);
    var a3 := AuditNext(a2, Record(y));
    assert a3 == Audit([y], [[x]], [], [x, y]);
    var a4 := AuditNext(a3, Flush);
    assert a4 == Audit([], [[x], [y]], [], [x, y]);
    var a5 := AuditNext(a4, Store(1));
    assert a5 == Audit([], [[x], []], [y], [x, y]);
    var a6 := AuditNext(a5, Store(0));
    assert a6.stored == [y, x] && a6.recorded == [x, y];
    AuditRunTwo(a0, steps);
    AuditRunTwo(a2, steps[2..]);
    AuditRunTwo(a4, steps[2..][2..]);
    assert AuditRun(a0, steps) == AuditRun(a6, []);
  }

  lemma AuditRunTwo(a: Audit, steps: seq<AuditStep>)
    requires |steps| >= 2
    ensures AuditRun(a, steps) == AuditRun(AuditNext(AuditNext(a, steps[0]), steps[1]), steps[2..])
  {
    assert steps[1..][1..] == steps[2..];
  }

  /** The batch insert: place i names five parameters, and each parameter it names is that field of entry i. */
  method BuildInsert(entries: seq<Entry>) returns (placeholders: seq<seq<nat>>, values: seq<string>)
    ensures |placeholders| == |entries| && |values| == 5 * |entries|
    ensures forall i | 0 <= i < |entries| :: |placeholders[i]| == 5
    ensures forall i, j | 0 <= i < |entries| && 0 <= j < 5 ::
              1 <= placeholders[i][j] <= |values| && values[placeholders[i][j] - 1] == Fields(entries[i])[j]
  {
    placeholders, values := [], [];
    var idx := 1;
    for n := 0 to |entries|
      invariant idx == 5 * n + 1 && |placeholders| == n && |values| == 5 * n
      invariant forall i | 0 <= i < n :: |placeholders[i]| == 5
      invariant forall i, j | 0 <= i < n && 0 <= j < 5 ::
                  1 <= placeholders[i][j] <= |values| && values[placeholders[i][j] - 1] == Fields(entries[i])[j]
    {
      placeholders := placeholders + [[idx, idx + 1, idx + 2, idx + 3, idx + 4]];
      values := values + Fields(entries[n]);
      idx := idx + 5;
    }
  }

  class AuditLog {
    var buffer: seq<Entry>
    var inFlight: seq<seq<Entry>>
    ghost var stored: seq<Entry>
    ghost var recorded: seq<Entry>

    ghost function Model(): Audit
      reads this
    {
      Audit(buffer, inFlight, stored, recorded)
    }

    constructor ()
      ensures Model() == Audit([], [], [], []) && Complete(Model())
    {
      buffer, inFlight, stored, recorded := [], [], [], [];
    }

    method RecordEntry(entry: Entry)
      modifies this
      ensures Model() == AuditNext(old(Model()), Record(entry))
    {
      buffer := buffer + [entry];
      recorded := recorded + [entry];
      if |buffer| > AUDIT_LIMIT { StartFlush(); }
    }

    /** flush up to its query; nothing stops a second one. */
    method StartFlush()
      modifies this
      ensures Model() == AuditNext(old(Model()), Flush)
      ensures buffer == []
    {
      if |buffer| == 0 { return; }
      inFlight := inFlight + [buffer];
      buffer := [];
    }

    method FinishFlush(k: nat, ok: bool)
      requires k < |inFlight|
      modifies this
      ensures Model() == AuditNext(old(Model()), if ok then Store(k) else Restore(k))
    {
      if ok {
        stored := stored + inFlight[k];
      } else {
        buffer := inFlight[k] + buffer;
      }
      inFlight := inFlight[k := []];
    }
  }
}
