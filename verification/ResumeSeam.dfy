/** The seam between a conversation snapshot and the live event stream: one number read at
    the same instant as the copy, on either side of which every event falls. */
module ResumeSeam {
  import opened Options
  import opened CoreEvents
  import opened ProgressRuns
  import opened Runs
  import opened EventBatcher
  import opened OutputParts
  import opened ToolOutput
  import CopiedOutput
  import StepTransactions
  import Timeline
  import Utf16

  // ----- Runs of the host as the seam sees them -----

  /** One atomic step. `delivered` is the host's decision whether the selected window is to
      see the event; `journal` is the emitting runtime's journal at that moment. */
  datatype HostStep =
    | Emit(runtimeId: nat, sessionId: Option<nat>, journal: Option<Timeline.WriterId>, event: CoreEvent,
           occurredAt: nat, persistView: bool, delivered: bool)
    | Flush

  /** The host with the captures of one observed runtime. */
  datatype HostState = HostState(sequence: nat, log: Log, history: seq<Timeline.Captured>)

  const INITIAL := HostState(0, Log([], []), [])

  function EnvelopeOf(step: HostStep, sequence: nat): Envelope
    requires step.Emit?
  {
    Envelope(step.runtimeId, step.sessionId, sequence, step.occurredAt, Compact(step.event))
  }

  function CapturesOf(step: HostStep, observed: nat): seq<Timeline.Captured> {
    if step.Emit? && step.runtimeId == observed && step.persistView && step.journal.Some? then
      [Timeline.Captured(step.journal.value, Timeline.Classify(step.event), step.occurredAt)]
    else []
  }

  function NextLog(log: Log, step: HostStep, number: nat, cap: int): Log {
    if step.Flush? then Drain(log)
    else if step.delivered then Accept(log, EnvelopeOf(step, number), cap)
    else log
  }

  function Numbers(step: HostStep): nat { if step.Emit? then 1 else 0 }

  function Next(s: HostState, step: HostStep, observed: nat, cap: int): HostState {
    HostState(s.sequence + Numbers(step), NextLog(s.log, step, s.sequence + 1, cap), s.history + CapturesOf(step, observed))
  }

  function Run(s: HostState, steps: seq<HostStep>, observed: nat, cap: int): HostState {
    if steps == [] then s else Next(Run(s, steps[..|steps| - 1], observed, cap), steps[|steps| - 1], observed, cap)
  }

  lemma AcceptedInput(log: Log, envelope: Envelope, cap: int)
    ensures Inputs(Accept(log, envelope, cap)) == Inputs(log) + [envelope]
  {
    hide Flatten, FrameBuffered;
    var open := log.open + [envelope];
    FlattenSnoc(log.closed, open);
    assert Flatten(log.closed) + open == Inputs(log) + [envelope];
  }

  // ----- The host -----

  class Host {
    const observed: nat
    const timeline: Timeline.ViewTimeline
    const batcher: RuntimeEventBatcher
    var runtimeEventSequence: nat

    ghost predicate Valid()
      reads this, timeline, batcher
    {
      timeline.Valid() && batcher.Valid()
    }

    ghost function Abs(): HostState
      reads this, timeline, batcher
    {
      HostState(runtimeEventSequence, batcher.log, timeline.history)
    }

    constructor (observed: nat, maxPendingInputs: int)
      ensures Valid() && Abs() == INITIAL && fresh(timeline) && fresh(batcher)
      ensures this.observed == observed && batcher.maxPendingInputs == maxPendingInputs
    {
      this.observed := observed;
      timeline := new Timeline.ViewTimeline();
      batcher := new RuntimeEventBatcher(maxPendingInputs);
      runtimeEventSequence := 0;
    }

    /** `publish` of a runtime and `broadcastRuntimeEvent`, one synchronous stretch. */
    method Emit(step: HostStep)
      requires Valid() && step.Emit?
      modifies this, timeline, batcher
      ensures Valid() && Abs() == Next(old(Abs()), step, observed, batcher.maxPendingInputs)
      ensures runtimeEventSequence == old(runtimeEventSequence) + 1
      ensures timeline.history == old(timeline.history) +
        if step.runtimeId == observed && step.persistView && step.journal.Some?
        then [Timeline.Captured(step.journal.value, Timeline.Classify(step.event), step.occurredAt)] else []
      ensures Inputs(batcher.log) == Inputs(old(batcher.log)) +
        if step.delivered
        then [Envelope(step.runtimeId, step.sessionId, runtimeEventSequence, step.occurredAt, Compact(step.event))] else []
    {
      hide Compact, Timeline.Classify, Accept, Inputs, Timeline.ViewTimeline.Valid, RuntimeEventBatcher.Valid;
      AcceptedInput(batcher.log, EnvelopeOf(step, runtimeEventSequence + 1), batcher.maxPendingInputs);
      if step.runtimeId == observed && step.persistView {
        timeline.Capture(step.journal, step.event, step.occurredAt);
      }
      runtimeEventSequence := runtimeEventSequence + 1;
      if step.delivered {
        var envelope := Envelope(step.runtimeId, step.sessionId, runtimeEventSequence, step.occurredAt, Compact(step.event));
        batcher.Push(envelope);
      }
    }

    method TimerFired(generation: nat)
      requires Valid()
      modifies batcher
      ensures Valid()
      ensures Abs() == old(Abs()) || Abs() == Next(old(Abs()), Flush, observed, batcher.maxPendingInputs)
    {
      batcher.TimerFired(generation);
    }

    method ReadRuntimeEventBoundary() returns (boundary: nat)
      requires Valid()
      modifies batcher
      ensures Valid() && Abs() == Next(old(Abs()), Flush, observed, batcher.maxPendingInputs)
      ensures boundary == runtimeEventSequence
    {
      batcher.Flush();
      boundary := runtimeEventSequence;
    }

    /** The last synchronous stretch of `conversationAt` with the host's boundary. */
    method ConversationAt(w: Timeline.WriterId, projected: nat)
      returns (ready: bool, committed: seq<seq<ViewEvent>>, drafts: seq<ViewEvent>, timestamps: seq<nat>, boundary: nat)
      requires Valid()
      modifies batcher
      ensures Valid()
      ensures ready <==> timeline.inFlight == [] && projected >= |Flatten(Timeline.JournalOf(timeline.journal, w))|
      ensures !ready ==> Abs() == old(Abs())
      ensures ready ==> Abs() == Next(old(Abs()), Flush, observed, batcher.maxPendingInputs)
      ensures ready ==> boundary == old(Abs()).sequence
      ensures ready && !timeline.refused ==> committed == Timeline.BatchesFor(Timeline.Writes(old(Abs()).history), w)
      ensures ready ==> drafts == Timeline.EventsOf(Timeline.SnapshotOf(old(Abs()).history, w))
    {
      ready, committed, drafts, timestamps := timeline.ConversationCopy(w, projected);
      boundary := 0;
      if ready {
        boundary := ReadRuntimeEventBoundary();
      }
    }
  }

  // ----- The seam -----

  /** The envelopes that a stretch of steps delivers, numbered from `from` on. */
  function Delivered(steps: seq<HostStep>, from: nat): seq<Envelope> {
    if steps == [] then []
    else
      var init, last := steps[..|steps| - 1], steps[|steps| - 1];
      Delivered(init, from)
        + (if last.Emit? && last.delivered then [EnvelopeOf(last, from + Emitted(init) + 1)] else [])
  }

  function Emitted(steps: seq<HostStep>): nat {
    if steps == [] then 0 else Emitted(steps[..|steps| - 1]) + Numbers(steps[|steps| - 1])
  }

  function CapturedIn(steps: seq<HostStep>, observed: nat): seq<Timeline.Captured> {
    if steps == [] then [] else CapturedIn(steps[..|steps| - 1], observed) + CapturesOf(steps[|steps| - 1], observed)
  }

  function Above(es: seq<Envelope>, b: nat): seq<Envelope> {
    if es == [] then []
    else Above(es[..|es| - 1], b) + (if es[|es| - 1].sequence > b then [es[|es| - 1]] else [])
  }

  /** A log continued after everything before was published. */
  function Continue(past: seq<seq<Envelope>>, log: Log): Log { Log(past + log.closed, log.open) }

  function RunLog(steps: seq<HostStep>, from: nat, cap: int): Log {
    if steps == [] then Log([], [])
    else NextLog(RunLog(steps[..|steps| - 1], from, cap), steps[|steps| - 1], from + Emitted(steps[..|steps| - 1]) + 1, cap)
  }

  /** From a flushed state on, the log is its past continued by a log of its own. */
  lemma {:induction false} RunContinues(s: HostState, steps: seq<HostStep>, observed: nat, cap: int)
    requires s.log.open == []
    ensures var t := Run(s, steps, observed, cap);
      && t.sequence == s.sequence + Emitted(steps)
      && t.log == Continue(s.log.closed, RunLog(steps, s.sequence, cap))
      && t.history == s.history + CapturedIn(steps, observed)
  {
    if steps == [] {
      assert s.log.closed + [] == s.log.closed;
      assert s.history + [] == s.history;
    } else {
      var init, last := steps[..|steps| - 1], steps[|steps| - 1];
      hide CapturesOf, NextLog, Continue;
      RunContinues(s, init, observed, cap);
      ContinueNext(s.log.closed, RunLog(init, s.sequence, cap), last, s.sequence + Emitted(init) + 1, cap);
    }
  }

  lemma ContinueNext(past: seq<seq<Envelope>>, log: Log, step: HostStep, number: nat, cap: int)
    ensures NextLog(Continue(past, log), step, number, cap) == Continue(past, NextLog(log, step, number, cap))
  {
    hide Compact, FrameBuffered;
  }

  lemma FlattenSnoc(xss: seq<seq<Envelope>>, xs: seq<Envelope>)
    ensures Flatten(xss + [xs]) == Flatten(xss) + xs
  {
    assert (xss + [xs])[..|xss|] == xss;
  }

  lemma NextLogInputs(log: Log, step: HostStep, number: nat, cap: int)
    ensures Inputs(NextLog(log, step, number, cap)) ==
      Inputs(log) + (if step.Emit? && step.delivered then [EnvelopeOf(step, number)] else [])
  {
    hide Flatten, Compact, FrameBuffered;
    FlattenSnoc(log.closed, log.open);
    if step.Emit? && step.delivered {
      AcceptedInput(log, EnvelopeOf(step, number), cap);
    }
  }

  lemma WithinSnoc(es: seq<Envelope>, e: Envelope, low: nat, high: nat)
    requires Increasing(es) && Within(es, low, high) && low <= high < e.sequence
    ensures Increasing(es + [e]) && Within(es + [e], low, e.sequence)
  {}

  lemma WithinMore(es: seq<Envelope>, low: nat, high: nat, more: nat)
    requires Within(es, low, high) && high <= more
    ensures Within(es, low, more)
  {}

  lemma LastStep(steps: seq<HostStep>, from: nat)
    requires steps != []
    ensures var init, last := steps[..|steps| - 1], steps[|steps| - 1];
      && Emitted(steps) == Emitted(init) + Numbers(last)
      && Delivered(steps, from) == Delivered(init, from)
           + if last.Emit? && last.delivered then [EnvelopeOf(last, from + Emitted(init) + 1)] else []
  {
    hide EnvelopeOf;
  }

  lemma {:induction false} DeliveredIncreases(steps: seq<HostStep>, from: nat)
    ensures Increasing(Delivered(steps, from)) && Within(Delivered(steps, from), from, from + Emitted(steps))
  {
    if steps != [] {
      var init, last := steps[..|steps| - 1], steps[|steps| - 1];
      var before, high := Delivered(init, from), from + Emitted(init);
      LastStep(steps, from);
      DeliveredIncreases(init, from);
      hide Increasing, Within, Compact, Delivered, Emitted;
      if last.Emit? && last.delivered {
        WithinSnoc(before, EnvelopeOf(last, high + 1), from, high);
      } else {
        WithinMore(before, from, high, from + Emitted(steps));
        assert before + [] == before;
      }
    }
  }

  lemma {:induction false} LogHoldsDelivered(steps: seq<HostStep>, from: nat, cap: int)
    ensures Inputs(RunLog(steps, from, cap)) == Delivered(steps, from)
  {
    if steps == [] {
      assert Flatten<Envelope>([]) == [];
    } else {
      var init, last := steps[..|steps| - 1], steps[|steps| - 1];
      LastStep(steps, from);
      LogHoldsDelivered(init, from, cap);
      NextLogInputs(RunLog(init, from, cap), last, from + Emitted(init) + 1, cap);
      hide NextLog, Inputs, EnvelopeOf, Delivered, Emitted, Flatten;
    }
  }

  /** A log's inputs are what its steps delivered, numbered in strictly increasing order
      inside the range of numbers the steps used up. */
  lemma RunLogInputs(steps: seq<HostStep>, from: nat, cap: int)
    ensures Inputs(RunLog(steps, from, cap)) == Delivered(steps, from)
    ensures Increasing(Delivered(steps, from))
    ensures forall i :: 0 <= i < |Delivered(steps, from)| ==> from < Delivered(steps, from)[i].sequence <= from + Emitted(steps)
  {
    LogHoldsDelivered(steps, from, cap);
    DeliveredIncreases(steps, from);
    hide Delivered, RunLog, Inputs, Emitted;
  }

  lemma {:induction false} AboveAll(es: seq<Envelope>, b: nat)
    requires forall i :: 0 <= i < |es| ==> es[i].sequence > b
    ensures Above(es, b) == es
  {
    if es != [] {
      AboveAll(es[..|es| - 1], b);
      assert es == es[..|es| - 1] + [es[|es| - 1]];
    }
  }

  lemma {:induction false} AboveNone(es: seq<Envelope>, b: nat)
    requires forall i :: 0 <= i < |es| ==> es[i].sequence <= b
    ensures Above(es, b) == []
  {
    if es != [] {
      AboveNone(es[..|es| - 1], b);
    }
  }

  lemma {:induction false} AboveConcat(xs: seq<Envelope>, ys: seq<Envelope>, b: nat)
    ensures Above(xs + ys, b) == Above(xs, b) + Above(ys, b)
  {
    if ys == [] {
      assert xs + ys == xs;
    } else {
      var init := ys[..|ys| - 1];
      AboveConcat(xs, init, b);
      assert (xs + ys)[..|xs + ys| - 1] == xs + init;
    }
  }

  lemma ContinueStream(past: seq<seq<Envelope>>, log: Log)
    ensures Envelopes(Continue(past, log)) == Flatten(GroupAll(past)) + Envelopes(log)
    ensures Inputs(Continue(past, log)) == Flatten(past) + Inputs(log)
  {
    hide Flatten, Group;
    assert GroupAll(past + log.closed) == GroupAll(past) + GroupAll(log.closed);
    FlattenConcat(GroupAll(past), GroupAll(log.closed));
    FlattenConcat(past, log.closed);
  }

  ghost predicate Within(es: seq<Envelope>, low: nat, high: nat) {
    forall i :: 0 <= i < |es| ==> low < es[i].sequence <= high
  }

  lemma WithinParts(xs: seq<Envelope>, ys: seq<Envelope>, low: nat, high: nat)
    ensures Within(xs + ys, low, high) <==> Within(xs, low, high) && Within(ys, low, high)
  {
    assert forall i :: 0 <= i < |xs| ==> (xs + ys)[i] == xs[i];
    assert forall i :: 0 <= i < |ys| ==> (xs + ys)[|xs| + i] == ys[i];
  }

  lemma GroupWithin(es: seq<Envelope>, low: nat, high: nat)
    requires Increasing(es) && Within(es, low, high)
    ensures Within(Group(Combine, es), low, high)
  {
    GroupKeepsSequence(es);
  }

  lemma {:induction false} SegmentsWithin(segments: seq<seq<Envelope>>, low: nat, high: nat)
    requires Increasing(Flatten(segments)) && Within(Flatten(segments), low, high)
    ensures Within(Flatten(GroupAll(segments)), low, high)
  {
    hide Within, Increasing, Group;
    if segments != [] {
      var k := |segments| - 1;
      var before, last := Flatten(segments[..k]), segments[k];
      IncreasingParts(before, last);
      WithinParts(before, last, low, high);
      SegmentsWithin(segments[..k], low, high);
      GroupWithin(last, low, high);
      WithinParts(Flatten(GroupAll(segments[..k])), Group(Combine, last), low, high);
      assert GroupAll(segments)[..k] == GroupAll(segments[..k]);
    } else {
      assert Flatten(GroupAll(segments)) == Flatten(segments);
    }
  }

  /** The numbers of a stream's envelopes lie where the numbers of its inputs lie. */
  lemma StreamWithin(log: Log, low: nat, high: nat)
    requires Increasing(Inputs(log)) && Within(Inputs(log), low, high)
    ensures Within(Envelopes(log), low, high)
  {
    hide Within, Increasing, Group, Flatten;
    IncreasingParts(Flatten(log.closed), log.open);
    WithinParts(Flatten(log.closed), log.open, low, high);
    SegmentsWithin(log.closed, low, high);
    GroupWithin(log.open, low, high);
    WithinParts(Flatten(GroupAll(log.closed)), Group(Combine, log.open), low, high);
  }

  /** The state of the host at a boundary read that follows `before`. */
  function AtBoundary(before: seq<HostStep>, observed: nat, cap: int): HostState {
    Run(INITIAL, before + [Flush], observed, cap)
  }

  lemma BoundaryState(before: seq<HostStep>, observed: nat, cap: int)
    ensures var s := AtBoundary(before, observed, cap);
      && s.sequence == Emitted(before)
      && s.history == CapturedIn(before, observed)
      && s.log.open == []
      && Inputs(s.log) == Delivered(before, 0)
      && Increasing(Inputs(s.log)) && Within(Inputs(s.log), 0, s.sequence)
  {
    RunContinues(INITIAL, before, observed, cap);
    var s := Run(INITIAL, before, observed, cap);
    assert (before + [Flush])[..|before|] == before;
    assert s.log == RunLog(before, 0, cap);
    RunLogInputs(before, 0, cap);
    NextLogInputs(s.log, Flush, s.sequence + 1, cap);
  }

  lemma SplitStream(past: Log, rest: Log, b: nat, end: nat)
    requires past.open == []
    requires Increasing(Inputs(past)) && Within(Inputs(past), 0, b)
    requires Increasing(Inputs(rest)) && Within(Inputs(rest), b, end)
    ensures var all := Envelopes(Continue(past.closed, rest));
      && all == Envelopes(past) + Envelopes(rest)
      && Above(all, b) == Envelopes(rest)
  {
    hide Flatten, Group, Above;
    ContinueStream(past.closed, rest);
    StreamWithin(past, 0, b);
    StreamWithin(rest, b, end);
    EmptyGroup();
    AboveConcat(Envelopes(past), Envelopes(rest), b);
    AboveNone(Envelopes(past), b);
    AboveAll(Envelopes(rest), b);
  }

  lemma EmptyGroup()
    ensures Group(Combine, []) == []
  {}

  // ----- What steps emit, on their own fields -----

  /** The steps among the first `n` that take a number, those that are delivered, and those that
      the observed runtime's timeline captures. */
  function Emits(steps: seq<HostStep>, n: nat): set<nat>
    requires n <= |steps|
  {
    set k: nat | k < n && steps[k].Emit?
  }

  function Deliveries(steps: seq<HostStep>, n: nat): set<nat>
    requires n <= |steps|
  {
    set k: nat | k < n && steps[k].Emit? && steps[k].delivered
  }

  function Recordings(steps: seq<HostStep>, n: nat, observed: nat): set<nat>
    requires n <= |steps|
  {
    set k: nat | k < n && steps[k].Emit? && steps[k].runtimeId == observed && steps[k].persistView && steps[k].journal.Some?
  }

  /** The envelope is under the name of step `k`: its runtime, its session, its time, and the count
      of the steps that took a number so far. */
  predicate NamedAfter(e: Envelope, steps: seq<HostStep>, k: nat, from: nat)
    requires k < |steps|
  {
    && steps[k].Emit? && steps[k].delivered
    && e.runtimeId == steps[k].runtimeId && e.sessionId == steps[k].sessionId
    && e.occurredAt == steps[k].occurredAt && e.sequence == from + |Emits(steps, k + 1)|
  }

  lemma CountsOfPrefix(init: seq<HostStep>, last: HostStep, k: nat, observed: nat)
    requires k <= |init|
    ensures Emits(init + [last], k) == Emits(init, k)
    ensures Deliveries(init + [last], k) == Deliveries(init, k)
    ensures Recordings(init + [last], k, observed) == Recordings(init, k, observed)
  {
    assert forall j: nat :: j < k ==> (init + [last])[j] == init[j];
  }

  lemma EmitsSnoc(init: seq<HostStep>, last: HostStep)
    ensures |Emits(init + [last], |init| + 1)| == |Emits(init, |init|)| + (if last.Emit? then 1 else 0)
  {
    CountsOfPrefix(init, last, |init|, 0);
    var before, after := Emits(init + [last], |init|), Emits(init + [last], |init| + 1);
    if last.Emit? { assert after == before + {|init|}; } else { assert after == before; }
  }

  lemma DeliveriesSnoc(init: seq<HostStep>, last: HostStep)
    ensures |Deliveries(init + [last], |init| + 1)| == |Deliveries(init, |init|)| + (if last.Emit? && last.delivered then 1 else 0)
  {
    CountsOfPrefix(init, last, |init|, 0);
    var before, after := Deliveries(init + [last], |init|), Deliveries(init + [last], |init| + 1);
    if last.Emit? && last.delivered { assert after == before + {|init|}; } else { assert after == before; }
  }

  lemma RecordingsSnoc(init: seq<HostStep>, last: HostStep, observed: nat)
    ensures |Recordings(init + [last], |init| + 1, observed)| == |Recordings(init, |init|, observed)| + |CapturesOf(last, observed)|
  {
    hide Timeline.Classify;
    CountsOfPrefix(init, last, |init|, observed);
    var before, after := Recordings(init + [last], |init|, observed), Recordings(init + [last], |init| + 1, observed);
    if CapturesOf(last, observed) != [] { assert after == before + {|init|}; } else { assert after == before; }
  }

  lemma CountsSnoc(init: seq<HostStep>, last: HostStep, observed: nat)
    ensures var n, steps := |init|, init + [last];
      && |Emits(steps, n + 1)| == |Emits(init, n)| + (if last.Emit? then 1 else 0)
      && |Deliveries(steps, n + 1)| == |Deliveries(init, n)| + (if last.Emit? && last.delivered then 1 else 0)
      && |Recordings(steps, n + 1, observed)| == |Recordings(init, n, observed)| + |CapturesOf(last, observed)|
  {
    hide Emits, Deliveries, Recordings, CapturesOf;
    EmitsSnoc(init, last);
    DeliveriesSnoc(init, last);
    RecordingsSnoc(init, last, observed);
  }

  lemma {:induction false} EmittedCounts(steps: seq<HostStep>, from: nat, observed: nat)
    ensures Emitted(steps) == |Emits(steps, |steps|)|
    ensures |Delivered(steps, from)| == |Deliveries(steps, |steps|)|
    ensures |CapturedIn(steps, observed)| == |Recordings(steps, |steps|, observed)|
  {
    if steps != [] {
      var init, last := steps[..|steps| - 1], steps[|steps| - 1];
      EmittedCounts(init, from, observed);
      assert steps == init + [last];
      CountsSnoc(init, last, observed);
      hide Emits, Deliveries, Recordings, CapturesOf, EnvelopeOf;
    }
  }

  /** The deliveries of a stretch of steps, one by one: each delivered step has its place, under its
      own runtime, session and time, its own number and its own event, and there are no others. */
  lemma {:induction false} DeliveredAre(steps: seq<HostStep>, from: nat, k: nat)
    requires k < |steps| && steps[k].Emit? && steps[k].delivered
    ensures |Delivered(steps, from)| == |Deliveries(steps, |steps|)|
    ensures var i := |Deliveries(steps, k)|;
      && i < |Delivered(steps, from)|
      && NamedAfter(Delivered(steps, from)[i], steps, k, from)
      && Delivered(steps, from)[i].event == Compact(steps[k].event)
  {
    var init, last := steps[..|steps| - 1], steps[|steps| - 1];
    EmittedCounts(steps, from, 0);
    EmittedCounts(init, from, 0);
    assert steps == init + [last];
    CountsSnoc(init, last, 0);
    hide Emits, Deliveries, Recordings, Compact;
    CountsOfPrefix(init, last, k, 0);
    if k < |init| {
      CountsOfPrefix(init, last, k + 1, 0);
      DeliveredAre(init, from, k);
    }
  }

  /** No delivery is without a step. */
  lemma {:induction false} DeliveredFrom(steps: seq<HostStep>, from: nat, i: nat) returns (k: nat)
    requires i < |Delivered(steps, from)|
    ensures k < |steps| && steps[k].Emit? && steps[k].delivered && |Deliveries(steps, k)| == i
  {
    var init, last := steps[..|steps| - 1], steps[|steps| - 1];
    EmittedCounts(init, from, 0);
    assert steps == init + [last];
    CountsSnoc(init, last, 0);
    hide Emits, Deliveries, Recordings, EnvelopeOf;
    k := |init|;
    if i < |Delivered(init, from)| {
      k := DeliveredFrom(init, from, i);
    }
    CountsOfPrefix(init, last, k, 0);
  }

  /** The captures of a stretch of steps, one by one: each step of the observed runtime that is to
      be shown and has a journal has its place, under that journal and its own time. */
  lemma {:induction false} CapturedAre(steps: seq<HostStep>, observed: nat, k: nat)
    requires k < |steps| && steps[k].Emit? && steps[k].runtimeId == observed && steps[k].persistView && steps[k].journal.Some?
    ensures |CapturedIn(steps, observed)| == |Recordings(steps, |steps|, observed)|
    ensures var i := |Recordings(steps, k, observed)|;
      && i < |CapturedIn(steps, observed)|
      && var captured := CapturedIn(steps, observed)[i];
      && captured.writer == steps[k].journal.value && captured.occurredAt == steps[k].occurredAt
      && captured.action == Timeline.Classify(steps[k].event)
  {
    var init, last := steps[..|steps| - 1], steps[|steps| - 1];
    EmittedCounts(steps, 0, observed);
    EmittedCounts(init, 0, observed);
    assert steps == init + [last];
    CountsSnoc(init, last, observed);
    hide Emits, Deliveries, Recordings, Timeline.Classify;
    CountsOfPrefix(init, last, k, observed);
    if k < |init| {
      CapturedAre(init, observed, k);
    }
  }

  /** The text the steps emit to the window in one stream of one runtime and session. */
  function EmittedText(steps: seq<HostStep>, runtimeId: nat, sessionId: Option<nat>, stream: CoreEvents.Stream): Utf16.Text {
    if steps == [] then []
    else
      var last := steps[|steps| - 1];
      EmittedText(steps[..|steps| - 1], runtimeId, sessionId, stream)
        + (if last.Emit? && last.delivered && last.runtimeId == runtimeId && last.sessionId == sessionId
              && StreamOf(last.event) == Some(stream) then TextOf(last.event) else [])
  }

  lemma {:induction false} DeliveredText(steps: seq<HostStep>, from: nat, runtimeId: nat, sessionId: Option<nat>, stream: CoreEvents.Stream)
    ensures TextIn(Delivered(steps, from), runtimeId, sessionId, stream) == EmittedText(steps, runtimeId, sessionId, stream)
  {
    if steps != [] {
      var init, last := steps[..|steps| - 1], steps[|steps| - 1];
      DeliveredText(init, from, runtimeId, sessionId, stream);
      LastStep(steps, from);
      hide FlatMap, Delivered, Emitted;
      if last.Emit? && last.delivered {
        FlatMapSnoc(TextFor(runtimeId, sessionId, stream), Delivered(init, from), EnvelopeOf(last, from + Emitted(init) + 1));
      } else {
        assert Delivered(init, from) + [] == Delivered(init, from);
      }
    }
  }

  /** The envelopes tell what the steps emitted: in every runtime, session and stream the same text,
      and none of them is under any other name than a delivered step's. */
  ghost predicate Tells(es: seq<Envelope>, steps: seq<HostStep>, from: nat) {
    && TellsText(es, steps)
    && (forall i :: 0 <= i < |es| ==> Named(es[i], steps, from))
  }

  ghost predicate TellsText(es: seq<Envelope>, steps: seq<HostStep>) {
    forall runtimeId: nat, sessionId: Option<nat>, stream: CoreEvents.Stream ::
      TextIn(es, runtimeId, sessionId, stream) == EmittedText(steps, runtimeId, sessionId, stream)
  }

  ghost predicate Named(e: Envelope, steps: seq<HostStep>, from: nat) {
    exists k: nat :: k < |steps| && NamedAfter(e, steps, k, from)
  }

  lemma TextTold(log: Log, steps: seq<HostStep>, from: nat)
    requires Inputs(log) == Delivered(steps, from)
    ensures TellsText(Envelopes(log), steps)
  {
    hide Inputs, Envelopes, Delivered, TextIn, EmittedText;
    forall runtimeId: nat, sessionId: Option<nat>, stream: CoreEvents.Stream
      ensures TextIn(Envelopes(log), runtimeId, sessionId, stream) == EmittedText(steps, runtimeId, sessionId, stream)
    {
      StreamKeepsText(log, runtimeId, sessionId, stream);
      DeliveredText(steps, from, runtimeId, sessionId, stream);
    }
  }

  lemma CarriedIsNamed(e: Envelope, steps: seq<HostStep>, from: nat)
    requires Carries(e, Delivered(steps, from))
    ensures Named(e, steps, from)
  {
    hide Delivered, Emits, Compact;
    var j :| 0 <= j < |Delivered(steps, from)| && e == Delivered(steps, from)[j].(event := e.event);
    var k := DeliveredFrom(steps, from, j);
    DeliveredAre(steps, from, k);
    assert NamedAfter(e, steps, k, from);
  }

  lemma DeliveriesTold(log: Log, steps: seq<HostStep>, from: nat)
    requires Inputs(log) == Delivered(steps, from)
    ensures Tells(Envelopes(log), steps, from)
  {
    hide Inputs, Envelopes, Delivered, TellsText, Carries, Named;
    TextTold(log, steps, from);
    StreamCarries(log);
    forall i | 0 <= i < |Envelopes(log)| ensures Named(Envelopes(log)[i], steps, from) {
      CarriedIsNamed(Envelopes(log)[i], steps, from);
    }
  }

  // ----- When batches end -----

  /** The batch is what was pending when a flush, or the timer, came. */
  ghost predicate EndedByFlush(steps: seq<HostStep>, from: nat, cap: int, batch: seq<Envelope>) {
    exists k: nat :: k < |steps| && steps[k].Flush? && RunLog(steps[..k], from, cap).open == batch
  }

  /** A batch ends with an event that may not wait, at the cap, or by a flush, and not sooner;
      nothing before its end may not wait. */
  ghost predicate EndsInTime(batch: seq<Envelope>, cap: int, flushed: bool) {
    && batch != []
    && (forall i :: 0 <= i < |batch| - 1 ==> FrameBuffered(batch[i].event))
    && (|batch| > 1 ==> |batch| <= cap)
    && (!FrameBuffered(batch[|batch| - 1].event) || |batch| >= cap || flushed)
  }

  lemma NextEnds(past: Log, step: HostStep, number: nat, cap: int)
    requires MayWait(past.open, cap)
    ensures var log := NextLog(past, step, number, cap);
      && MayWait(log.open, cap)
      && (log.closed == past.closed || exists batch ::
            log.closed == past.closed + [batch] && EndsInTime(batch, cap, step.Flush?) && (step.Flush? ==> batch == past.open))
  {
    hide FrameBuffered, Compact;
    var log := NextLog(past, step, number, cap);
    if log.closed != past.closed {
      var batch := log.closed[|past.closed|];
      assert log.closed == past.closed + [batch];
    }
  }

  lemma EndedBefore(steps: seq<HostStep>, from: nat, cap: int, batch: seq<Envelope>)
    requires steps != [] && EndedByFlush(steps[..|steps| - 1], from, cap, batch)
    ensures EndedByFlush(steps, from, cap, batch)
  {
    hide RunLog;
    var init := steps[..|steps| - 1];
    var k: nat :| k < |init| && init[k].Flush? && RunLog(init[..k], from, cap).open == batch;
    assert steps[..k] == init[..k] && steps[k] == init[k];
  }

  /** Over every run: batches end in time, and what is pending may wait and is below the cap. */
  lemma {:induction false} BatchesEndInTime(steps: seq<HostStep>, from: nat, cap: int)
    ensures var log := RunLog(steps, from, cap);
      && MayWait(log.open, cap)
      && (forall i :: 0 <= i < |log.closed| ==> EndsInTime(log.closed[i], cap, EndedByFlush(steps, from, cap, log.closed[i])))
  {
    if steps != [] {
      var init, last := steps[..|steps| - 1], steps[|steps| - 1];
      var past, log := RunLog(init, from, cap), RunLog(steps, from, cap);
      BatchesEndInTime(init, from, cap);
      assert log == NextLog(past, last, from + Emitted(init) + 1, cap);
      hide NextLog, RunLog, FrameBuffered, EndedByFlush, MayWait;
      NextEnds(past, last, from + Emitted(init) + 1, cap);
      forall i | 0 <= i < |log.closed| ensures EndsInTime(log.closed[i], cap, EndedByFlush(steps, from, cap, log.closed[i])) {
        if i < |past.closed| {
          assert log.closed[i] == past.closed[i];
          if EndedByFlush(init, from, cap, past.closed[i]) { EndedBefore(steps, from, cap, past.closed[i]); }
        } else if last.Flush? {
          FlushEnds(steps, from, cap);
        }
      }
    }
  }

  lemma FlushEnds(steps: seq<HostStep>, from: nat, cap: int)
    requires steps != [] && steps[|steps| - 1].Flush?
    ensures EndedByFlush(steps, from, cap, RunLog(steps[..|steps| - 1], from, cap).open)
  {
    hide RunLog;
  }

  /** The exact seam. Read boundary `b` after any run, and let the host run on: the copy
      taken with it covers exactly the captures of the steps before, the envelopes numbered
      above `b` carry exactly what the steps after delivered, those up to `b` exactly what
      the steps before delivered, and no segment merged inputs of both sides. */
  lemma ExactSeam(before: seq<HostStep>, after: seq<HostStep>, observed: nat, cap: int)
    ensures var s := AtBoundary(before, observed, cap);
      var t := Run(s, after, observed, cap);
      var b := s.sequence;
      && s.history == CapturedIn(before, observed)
      && t.history == s.history + CapturedIn(after, observed)
      && Envelopes(s.log) + Above(Envelopes(t.log), b) == Envelopes(t.log)
      && FlatMap(Atoms, Envelopes(s.log)) == FlatMap(Atoms, Delivered(before, 0))
      && FlatMap(Atoms, Above(Envelopes(t.log), b)) == FlatMap(Atoms, Delivered(after, b))
      && (forall i :: 0 <= i < |t.log.closed| ==> Within(t.log.closed[i], 0, b) || Within(t.log.closed[i], b, t.sequence))
      && Within(t.log.open, b, t.sequence)
      && var rest := RunLog(after, b, cap);
      && Inputs(s.log) == Delivered(before, 0) && Inputs(rest) == Delivered(after, b)
      && Above(Envelopes(t.log), b) == Envelopes(rest)
      && Tells(Envelopes(s.log), before, 0) && Tells(Above(Envelopes(t.log), b), after, b)
  {
    hide Tells, Run, RunLog, Delivered, Emitted, CapturedIn, Above, AtBoundary, FlatMap, Envelopes, Inputs, Within, Increasing;
    var s := AtBoundary(before, observed, cap);
    var b := s.sequence;
    var rest := RunLog(after, b, cap);
    BoundaryState(before, observed, cap);
    RunContinues(s, after, observed, cap);
    RunLogInputs(after, b, cap);
    DeliveredWithin(after, b);
    SplitStream(s.log, rest, b, b + Emitted(after));
    StreamKeepsContent(s.log);
    StreamKeepsContent(rest);
    SegmentsOneSided(s.log, rest, b, b + Emitted(after));
    DeliveriesTold(s.log, before, 0);
    DeliveriesTold(rest, after, b);
  }

  /** The events delivered, as they were before compaction. */
  function DeliveredEvents(steps: seq<HostStep>): seq<CoreEvent> {
    if steps == [] then []
    else
      var last := steps[|steps| - 1];
      DeliveredEvents(steps[..|steps| - 1]) + (if last.Emit? && last.delivered then [last.event] else [])
  }

  lemma {:induction false} DeliveredAreCompact(steps: seq<HostStep>, from: nat)
    ensures |DeliveredEvents(steps)| == |Delivered(steps, from)|
    ensures forall i :: 0 <= i < |Delivered(steps, from)| ==> Delivered(steps, from)[i].event == Compact(DeliveredEvents(steps)[i])
  {
    if steps != [] {
      DeliveredAreCompact(steps[..|steps| - 1], from);
      hide Compact;
    }
  }

  /** The batches of a log and what it still holds back. */
  function Segments(log: Log): seq<seq<Envelope>> { log.closed + [log.open] }

  lemma SegmentIsDelivered(after: seq<HostStep>, b: nat, cap: int, i: nat)
    requires i < |Segments(RunLog(after, b, cap))|
    ensures var segments := Segments(RunLog(after, b, cap)); var first := |Flatten(segments[..i])|;
      && first + |segments[i]| <= |Delivered(after, b)|
      && segments[i] == Delivered(after, b)[first..first + |segments[i]|]
  {
    hide RunLog, Delivered, Flatten;
    var log := RunLog(after, b, cap);
    RunLogInputs(after, b, cap);
    FlattenSnoc(log.closed, log.open);
    RunAt(Segments(log), i);
  }

  /** The tool output beyond the boundary: each batch, and what is pending, is a stretch of what
      was delivered and shows for every run of one tool's progress the bounded tail of the raw
      outputs. */
  lemma SeamShowsOutput(after: seq<HostStep>, b: nat, cap: int, i: nat) returns (runs: seq<seq<Envelope>>)
    requires i < |Segments(RunLog(after, b, cap))|
    ensures var segments := Segments(RunLog(after, b, cap));
      var first, segment := |Flatten(segments[..i])|, segments[i];
      && first + |segment| <= |Delivered(after, b)| == |DeliveredEvents(after)|
      && segment == Delivered(after, b)[first..first + |segment|]
      && MaximalRuns(Linked, segment, runs) && Group(Combine, segment) == MergeAll(Combine, runs)
      && ShowsRuns(EnvelopeProgress, runs, ProgressesOf(DeliveredEvents(after)[first..first + |segment|]), Group(Combine, segment))
  {
    hide RunLog, Delivered, DeliveredEvents, Compact, Flatten, Group, MaximalRuns, ShowsRuns;
    SegmentIsDelivered(after, b, cap, i);
    DeliveredAreCompact(after, b);
    var segments := Segments(RunLog(after, b, cap));
    var first, segment := |Flatten(segments[..i])|, segments[i];
    runs := BatchesShowOutput(segment, DeliveredEvents(after)[first..first + |segment|]);
  }

  /** What the stream beyond the boundary shows of a tool are parts of its raw output. */
  lemma StreamParts(after: seq<HostStep>, b: nat, cap: int, tool: nat) returns (parts: seq<seq<Utf16.Text>>)
    ensures PartsOf(parts, OutputsFor(EnvelopeProgress, Envelopes(RunLog(after, b, cap)), tool),
                    RawFor(ProgressesOf(DeliveredEvents(after)), tool))
  {
    hide RunLog, Delivered, DeliveredEvents, Compact, Lawful, Appends, PartsOf, OutputsFor, Group;
    var log := RunLog(after, b, cap);
    var raw := ProgressesOf(DeliveredEvents(after));
    RunLogInputs(after, b, cap);
    DeliveredAreCompact(after, b);
    CombineIsLawful();
    EnvelopesAppend();
    FlattenSnoc(log.closed, log.open);
    forall i | 0 <= i < |raw| ensures EnvelopeProgress(Delivered(after, b)[i]) == Shortened(raw[i]) {
      ProgressIsAppended(DeliveredEvents(after)[i], DeliveredEvents(after)[i]);
    }
    hide EnvelopeProgress, Shortened;
    parts := SegmentedParts(Combine, Linked, EnvelopeProgress, Segments(log), raw, tool);
    assert GroupEach(Combine, Segments(log)) == GroupAll(log.closed) + [Group(Combine, log.open)];
    FlattenSnoc(GroupAll(log.closed), Group(Combine, log.open));
  }

  /** The captures of the observed runtime, as they came. */
  function SourcesIn(steps: seq<HostStep>, observed: nat): seq<CopiedOutput.Source> {
    if steps == [] then []
    else
      var last := steps[|steps| - 1];
      SourcesIn(steps[..|steps| - 1], observed)
        + (if last.Emit? && last.runtimeId == observed && last.persistView && last.journal.Some?
           then [CopiedOutput.Source(last.journal.value, last.event, last.occurredAt)] else [])
  }

  lemma {:induction false} SourcesAreCaptured(steps: seq<HostStep>, observed: nat)
    ensures CopiedOutput.History(SourcesIn(steps, observed)) == CapturedIn(steps, observed)
  {
    if steps != [] {
      var init, last := steps[..|steps| - 1], steps[|steps| - 1];
      SourcesAreCaptured(init, observed);
      hide Timeline.Classify;
      if SourcesIn(steps, observed) != SourcesIn(init, observed) {
        var source := CopiedOutput.Source(last.journal.value, last.event, last.occurredAt);
        assert SourcesIn(steps, observed) == SourcesIn(init, observed) + [source];
        CopiedOutput.HistoryInit(SourcesIn(init, observed) + [source]);
        assert (SourcesIn(init, observed) + [source])[..|SourcesIn(init, observed)|] == SourcesIn(init, observed);
      }
    }
  }

  /** What is shown of a tool across the boundary: the copy of a writer's conversation, journal and
      drafts, taken at the boundary, and then everything numbered above it, each appended to the
      last. However it was committed, drafted, batched or left pending, that is the closed form of
      the raw output of the steps copied and of the events delivered after, with the parts it came
      in; and what appending the raw chunks themselves would show exactly under the condition stated. */
  lemma SeamShowsTool(before: seq<HostStep>, after: seq<HostStep>, observed: nat, cap: int, w: Timeline.WriterId, tool: nat)
    returns (parts: seq<seq<Utf16.Text>>)
    requires OpenOnBoundary(RawFor(CopiedOutput.CopyRaw(SourcesIn(before, observed), w), tool)
                            + RawFor(ProgressesOf(DeliveredEvents(after)), tool))
    ensures var s := AtBoundary(before, observed, cap);
      var t, b := Run(s, after, observed, cap), s.sequence;
      var copy := Flatten(Timeline.BatchesFor(Timeline.Writes(s.history), w)) + Timeline.EventsOf(Timeline.SnapshotOf(s.history, w));
      var shown := OutputsFor(StepTransactions.ViewProgress, copy, tool)
        + OutputsFor(EnvelopeProgress, Above(Envelopes(t.log), b), tool);
      var raw := RawFor(CopiedOutput.CopyRaw(SourcesIn(before, observed), w), tool) + RawFor(ProgressesOf(DeliveredEvents(after)), tool);
      && PartsOf(parts, shown, raw)
      && FoldAppend(shown) == PipelineShown(Concat(raw), Truncates(Wholes(parts)), StrayPart(parts))
      && (FoldAppend(shown) == FoldAppend(raw) <==>
            !StrayPart(parts) && (Truncates(Wholes(parts)) == Truncates(raw) || Bounded(Concat(raw)) == Concat(raw)))
  {
    var sources := SourcesIn(before, observed);
    var s := AtBoundary(before, observed, cap);
    var b := s.sequence;
    var t := Run(s, after, observed, cap);
    ExactSeam(before, after, observed, cap);
    SourcesAreCaptured(before, observed);
    CopyIs(sources, w);
    var copied := CopiedOutput.CopyParts(sources, w, tool);
    var streamed := StreamParts(after, b, cap, tool);
    hide *;
    var copy := Flatten(Timeline.BatchesFor(Timeline.Writes(s.history), w)) + Timeline.EventsOf(Timeline.SnapshotOf(s.history, w));
    var shownCopy, rawCopy := OutputsFor(StepTransactions.ViewProgress, copy, tool), RawFor(CopiedOutput.CopyRaw(sources, w), tool);
    var shownRest := OutputsFor(EnvelopeProgress, Above(Envelopes(t.log), b), tool);
    var rawRest := RawFor(ProgressesOf(DeliveredEvents(after)), tool);
    PartsConcat(copied, streamed, shownCopy, shownRest, rawCopy, rawRest);
    parts := copied + streamed;
    PartsAre(parts, shownCopy + shownRest, rawCopy + rawRest);
    PartsAgreeIff(parts);
  }

  lemma CopyIs(sources: seq<CopiedOutput.Source>, w: Timeline.WriterId)
    ensures var h := CopiedOutput.History(sources);
      CopiedOutput.Copy(sources, w) == Flatten(Timeline.BatchesFor(Timeline.Writes(h), w)) + Timeline.EventsOf(Timeline.SnapshotOf(h, w))
  {}

  lemma DeliveredWithin(steps: seq<HostStep>, from: nat)
    ensures Increasing(Delivered(steps, from)) && Within(Delivered(steps, from), from, from + Emitted(steps))
  {
    RunLogInputs(steps, from, 0);
  }

  lemma {:induction false} SegmentInFlatten(segments: seq<seq<Envelope>>, i: nat, low: nat, high: nat)
    requires i < |segments| && Within(Flatten(segments), low, high)
    ensures Within(segments[i], low, high)
  {
    var k := |segments| - 1;
    var before, last := Flatten(segments[..k]), segments[k];
    assert forall j :: 0 <= j < |before| ==> Flatten(segments)[j] == before[j];
    assert forall j :: 0 <= j < |last| ==> Flatten(segments)[|before| + j] == last[j];
    if i < k {
      SegmentInFlatten(segments[..k], i, low, high);
    }
  }

  lemma SegmentsOneSided(past: Log, rest: Log, b: nat, end: nat)
    requires Within(Inputs(past), 0, b) && Within(Inputs(rest), b, end) && past.open == []
    ensures var log := Continue(past.closed, rest);
      && (forall i :: 0 <= i < |log.closed| ==> Within(log.closed[i], 0, b) || Within(log.closed[i], b, end))
      && Within(log.open, b, end)
  {
    var log := Continue(past.closed, rest);
    assert forall i :: 0 <= i < |Flatten(past.closed)| ==> Inputs(past)[i] == Flatten(past.closed)[i];
    assert forall i :: 0 <= i < |Flatten(rest.closed)| ==> Inputs(rest)[i] == Flatten(rest.closed)[i];
    assert forall i :: 0 <= i < |rest.open| ==> Inputs(rest)[|Flatten(rest.closed)| + i] == rest.open[i];
    forall i | 0 <= i < |log.closed| ensures Within(log.closed[i], 0, b) || Within(log.closed[i], b, end) {
      if i < |past.closed| {
        SegmentInFlatten(past.closed, i, 0, b);
      } else {
        SegmentInFlatten(rest.closed, i - |past.closed|, b, end);
      }
    }
  }
}
