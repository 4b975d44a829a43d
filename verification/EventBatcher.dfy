/** The gate that batches high-frequency runtime events on their way to the renderer. */
module EventBatcher {
  import opened Options
  import opened Utf16
  import opened ToolOutput
  import opened CoreEvents
  import opened ProgressRuns
  import opened Runs

  datatype Envelope = Envelope(runtimeId: nat, sessionId: Option<nat>, sequence: nat, occurredAt: nat, event: CoreEvent)

  predicate Linked(a: Envelope, b: Envelope) {
    a.runtimeId == b.runtimeId && a.sessionId == b.sessionId && SameStream(a.event, b.event)
  }

  /** A merged envelope carries everything of the newest one but the event. */
  function Combine(a: Envelope, b: Envelope): Option<Envelope> {
    if a.runtimeId == b.runtimeId && a.sessionId == b.sessionId then
      match Coalesce(a.event, b.event)
      case Some(event) => Some(b.(event := event))
      case None => None
    else None
  }

  lemma CombineIsLawful()
    ensures Lawful(Combine, Linked)
  {
    forall a, b ensures Combine(a, b).Some? <==> Linked(a, b) {
      CoalesceIsPerStream(a.event, b.event);
    }
    forall a, b, c | Combine(a, b).Some?
      ensures Linked(Combine(a, b).value, c) <==> Linked(b, c)
    {
      CoalesceIsPerStream(a.event, b.event);
    }
  }

  // ----- The log of a batcher: its inputs, cut where it published -----

  datatype Log = Log(closed: seq<seq<Envelope>>, open: seq<Envelope>)

  function Inputs(log: Log): seq<Envelope> { Flatten(log.closed) + log.open }

  function Accept(log: Log, envelope: Envelope, cap: int): Log {
    var open := log.open + [envelope];
    if !FrameBuffered(envelope.event) || |open| >= cap then Log(log.closed + [open], [])
    else Log(log.closed, open)
  }

  function Drain(log: Log): Log {
    if log.open == [] then log else Log(log.closed + [log.open], [])
  }

  function GroupAll(segments: seq<seq<Envelope>>): (r: seq<seq<Envelope>>)
    ensures |r| == |segments|
    ensures forall i :: 0 <= i < |r| ==> r[i] == Group(Combine, segments[i])
  {
    seq(|segments|, i requires 0 <= i < |segments| => Group(Combine, segments[i]))
  }

  /** Everything published so far, and what is still pending, in order. */
  function Envelopes(log: Log): seq<Envelope> {
    Flatten(GroupAll(log.closed)) + Group(Combine, log.open)
  }

  ghost predicate MayWait(open: seq<Envelope>, cap: int) {
    (forall i :: 0 <= i < |open| ==> FrameBuffered(open[i].event)) && (open != [] ==> |open| < cap)
  }

  ghost predicate Waiting(log: Log, cap: int) {
    && MayWait(log.open, cap)
    && (forall i :: 0 <= i < |log.closed| ==> log.closed[i] != [])
  }

  /** `RuntimeEventBatcher`, with the publisher's calls recorded. A scheduled callback is
      named by the generation it captured; the environment may run any of them, once or
      again, even after it was cancelled. */
  class RuntimeEventBatcher {
    const maxPendingInputs: int
    var pending: seq<Envelope>
    var pendingInputCount: nat
    var cancelScheduledFlush: Option<nat>
    var scheduleGeneration: nat
    var published: seq<seq<Envelope>>
    ghost var log: Log

    ghost predicate Refines()
      reads this
    {
      && pending == Group(Combine, log.open)
      && published == GroupAll(log.closed)
      && pendingInputCount == |log.open|
    }

    /** A live timer exists exactly while something is pending, and is the current one. */
    ghost predicate Valid()
      reads this
    {
      && Refines()
      && Waiting(log, maxPendingInputs)
      && (cancelScheduledFlush.Some? <==> pending != [])
      && (cancelScheduledFlush.Some? ==> cancelScheduledFlush.value == scheduleGeneration)
    }

    /** What is pending, of how many inputs; a timer is live exactly if there is something. */
    predicate Holds(envelopes: seq<Envelope>, inputs: nat)
      reads this
    {
      pending == envelopes && pendingInputCount == inputs && (cancelScheduledFlush.Some? <==> envelopes != [])
    }

    constructor (maxPendingInputs: int)
      ensures Valid() && log == Log([], []) && this.maxPendingInputs == maxPendingInputs
    {
      this.maxPendingInputs := maxPendingInputs;
      pending, pendingInputCount := [], 0;
      cancelScheduledFlush, scheduleGeneration := None, 0;
      published := [];
      log := Log([], []);
    }

    method Push(envelope: Envelope)
      requires Valid()
      modifies this
      ensures Valid() && log == Accept(old(log), envelope, maxPendingInputs)
      ensures var waits := FrameBuffered(envelope.event) && old(pendingInputCount) + 1 < maxPendingInputs;
        var gathered := Runs.Push(Combine, old(pending), envelope);
        if waits then published == old(published) && Holds(gathered, old(pendingInputCount) + 1)
        else published == old(published) + [gathered] && Holds([], 0)
    {
      hide Combine;
      pendingInputCount := pendingInputCount + 1;
      Append(envelope);
      if !FrameBuffered(envelope.event) || pendingInputCount >= maxPendingInputs {
        Flush();
        return;
      }
      ScheduleFlush();
    }

    method Flush()
      requires Refines()
      requires forall i :: 0 <= i < |log.closed| ==> log.closed[i] != []
      modifies this
      ensures Valid() && log == Drain(old(log)) && Holds([], 0)
      ensures published == old(published) + if old(pending) == [] then [] else [old(pending)]
    {
      CancelFlush();
      FlushPending();
    }

    method Append(next: Envelope)
      requires pending == Group(Combine, log.open) && published == GroupAll(log.closed)
      modifies this`pending, this`log
      ensures pending == Group(Combine, log.open) && pending == Runs.Push(Combine, old(pending), next)
      ensures log == old(log).(open := old(log).open + [next])
    {
      assert (log.open + [next])[..|log.open|] == log.open;
      log := log.(open := log.open + [next]);
      if pending != [] {
        var previous := pending[|pending| - 1];
        if previous.runtimeId == next.runtimeId && previous.sessionId == next.sessionId {
          var event := Coalesce(previous.event, next.event);
          if event.Some? {
            pending := pending[|pending| - 1 := next.(event := event.value)];
            return;
          }
        }
      }
      pending := pending + [next];
    }

    method ScheduleFlush()
      modifies this`cancelScheduledFlush, this`scheduleGeneration
      ensures cancelScheduledFlush.Some?
      ensures old(cancelScheduledFlush).Some? ==>
        cancelScheduledFlush == old(cancelScheduledFlush) && scheduleGeneration == old(scheduleGeneration)
      ensures old(cancelScheduledFlush).None? ==>
        scheduleGeneration == old(scheduleGeneration) + 1 && cancelScheduledFlush == Some(scheduleGeneration)
    {
      if cancelScheduledFlush.Some? { return; }
      scheduleGeneration := scheduleGeneration + 1;
      cancelScheduledFlush := Some(scheduleGeneration);
    }

    /** The body of the callback scheduled under `generation`. Run at the wrong time it
        changes nothing. */
    method TimerFired(generation: nat)
      requires Valid()
      modifies this
      ensures Valid()
      ensures old(cancelScheduledFlush) == Some(generation) ==>
        log == Drain(old(log)) && Holds([], 0) && published == old(published) + [old(pending)]
      ensures old(cancelScheduledFlush) != Some(generation) ==>
        unchanged(`pending, `pendingInputCount, `cancelScheduledFlush, `scheduleGeneration, `published, `log)
    {
      if generation != scheduleGeneration { return; }
      cancelScheduledFlush := None;
      FlushPending();
    }

    method CancelFlush()
      modifies this`cancelScheduledFlush, this`scheduleGeneration
      ensures cancelScheduledFlush == None
    {
      if cancelScheduledFlush.None? { return; }
      cancelScheduledFlush := None;
      scheduleGeneration := scheduleGeneration + 1;
    }

    method FlushPending()
      requires Refines()
      modifies this`pending, this`pendingInputCount, this`published, this`log
      ensures Refines() && log == Drain(old(log)) && pending == [] && pendingInputCount == 0
      ensures published == old(published) + if old(pending) == [] then [] else [old(pending)]
    {
      if |pending| == 0 { return; }
      var batch := pending;
      pending := [];
      pendingInputCount := 0;
      published := published + [batch];
      log := Drain(log);
    }
  }

  // ----- What the batches mean -----

  /** What a renderer can reconstruct: the text of each stream unit by unit and every other
      event whole. The bounded output of a tool is accounted for by `BatchesShowOutput`. */
  datatype Atom =
    | Letter(runtimeId: nat, sessionId: Option<nat>, stream: CoreEvents.Stream, unit: Unit)
    | Whole(envelope: Envelope)

  function Atoms(e: Envelope): seq<Atom> {
    match StreamOf(e.event)
    case None => [Whole(e)]
    case Some(stream) => seq(|TextOf(e.event)|, i requires 0 <= i < |TextOf(e.event)| => Letter(e.runtimeId, e.sessionId, stream, TextOf(e.event)[i]))
  }

  /** An envelope that was gathered: but for its event, one of the inputs. */
  ghost predicate Carries(e: Envelope, inputs: seq<Envelope>) {
    exists j :: 0 <= j < |inputs| && e == inputs[j].(event := e.event)
  }

  ghost predicate AllCarry(es: seq<Envelope>, inputs: seq<Envelope>) {
    forall i :: 0 <= i < |es| ==> Carries(es[i], inputs)
  }

  lemma CarriesMore(e: Envelope, inputs: seq<Envelope>, more: seq<Envelope>)
    requires Carries(e, inputs)
    ensures Carries(e, inputs + more) && Carries(e, more + inputs)
  {
    var j :| 0 <= j < |inputs| && e == inputs[j].(event := e.event);
    assert (inputs + more)[j] == inputs[j] && (more + inputs)[|more| + j] == inputs[j];
  }

  lemma AllCarryConcat(xs: seq<Envelope>, ys: seq<Envelope>, inputs: seq<Envelope>, more: seq<Envelope>)
    requires AllCarry(xs, inputs) && AllCarry(ys, more)
    ensures AllCarry(xs + ys, inputs + more)
  {
    hide Carries;
    forall i | 0 <= i < |xs| ensures Carries(xs[i], inputs + more) { CarriesMore(xs[i], inputs, more); }
    forall i | 0 <= i < |ys| ensures Carries(ys[i], inputs + more) { CarriesMore(ys[i], more, inputs); }
  }

  /** Merging keeps the runtime, the session, the number and the time of the newest input, and
      merges within one runtime and session alone. */
  lemma CombineKeepsNewest(a: Envelope, b: Envelope)
    ensures Combine(a, b).Some? ==> Combine(a, b).value == b.(event := Combine(a, b).value.event)
    ensures Combine(a, b).Some? ==> a.runtimeId == b.runtimeId && a.sessionId == b.sessionId
    ensures Combine(a, b).Some? ==> Coalesce(a.event, b.event) == Some(Combine(a, b).value.event)
  {}

  lemma CarriesLast(e: Envelope, inputs: seq<Envelope>, x: Envelope)
    requires e == x.(event := e.event)
    ensures Carries(e, inputs + [x])
  {
    assert (inputs + [x])[|inputs|] == x;
  }

  lemma PushCarries(acc: seq<Envelope>, x: Envelope, inputs: seq<Envelope>)
    requires AllCarry(acc, inputs)
    ensures AllCarry(Runs.Push(Combine, acc, x), inputs + [x])
  {
    hide Combine, Carries;
    AllCarryConcat(acc, [], inputs, [x]);
    assert acc + [] == acc;
    CarriesLast(x, inputs, x);
    if acc != [] {
      var merged := Combine(acc[|acc| - 1], x);
      if merged.Some? {
        CombineKeepsNewest(acc[|acc| - 1], x);
        CarriesLast(merged.value, inputs, x);
      }
    }
  }

  lemma {:induction false} GroupCarries(es: seq<Envelope>)
    ensures AllCarry(Group(Combine, es), es)
  {
    if es != [] {
      hide Combine, AllCarry, Runs.Push;
      var k := |es| - 1;
      GroupCarries(es[..k]);
      PushCarries(Group(Combine, es[..k]), es[k], es[..k]);
      assert es[..k] + [es[k]] == es;
    }
  }

  lemma {:induction false} SegmentsCarry(segments: seq<seq<Envelope>>)
    ensures AllCarry(Flatten(GroupAll(segments)), Flatten(segments))
  {
    if segments == [] {
      assert GroupAll(segments) == [];
    } else {
      hide Combine, AllCarry, Group;
      var k := |segments| - 1;
      SegmentsCarry(segments[..k]);
      GroupCarries(segments[k]);
      assert GroupAll(segments)[..k] == GroupAll(segments[..k]);
      AllCarryConcat(Flatten(GroupAll(segments[..k])), Group(Combine, segments[k]), Flatten(segments[..k]), segments[k]);
    }
  }

  /** No envelope of a stream comes from anywhere but its inputs: runtime, session, number and
      time are those of one of them. */
  lemma StreamCarries(log: Log)
    ensures AllCarry(Envelopes(log), Inputs(log))
  {
    hide Combine, AllCarry, Group, Flatten;
    SegmentsCarry(log.closed);
    GroupCarries(log.open);
    AllCarryConcat(Flatten(GroupAll(log.closed)), Group(Combine, log.open), Flatten(log.closed), log.open);
  }

  // ----- One conversation's text -----

  /** The text an envelope adds to a stream of one runtime and session. */
  function TextFor(runtimeId: nat, sessionId: Option<nat>, stream: CoreEvents.Stream): Envelope -> Text {
    (e: Envelope) =>
      if e.runtimeId == runtimeId && e.sessionId == sessionId && StreamOf(e.event) == Some(stream) then TextOf(e.event) else []
  }

  /** The text of a stream of one runtime and session, across envelopes. */
  function TextIn(es: seq<Envelope>, runtimeId: nat, sessionId: Option<nat>, stream: CoreEvents.Stream): Text {
    FlatMap(TextFor(runtimeId, sessionId, stream), es)
  }

  /** The stream of envelopes has the text of its inputs, each runtime, session and stream its own. */
  lemma StreamKeepsText(log: Log, runtimeId: nat, sessionId: Option<nat>, stream: CoreEvents.Stream)
    ensures TextIn(Envelopes(log), runtimeId, sessionId, stream) == TextIn(Inputs(log), runtimeId, sessionId, stream)
  {
    hide Combine, Group, Flatten, FlatMap;
    var text := TextFor(runtimeId, sessionId, stream);
    CombineConcatenatesText(runtimeId, sessionId, stream);
    SegmentsKeepContent(log.closed, text);
    GroupKeepsContent(Combine, text, log.open);
    FlatMapConcat(text, Flatten(GroupAll(log.closed)), Group(Combine, log.open));
    FlatMapConcat(text, Flatten(log.closed), log.open);
  }

  lemma CombineConcatenatesText(runtimeId: nat, sessionId: Option<nat>, stream: CoreEvents.Stream)
    ensures Concatenates(Combine, TextFor(runtimeId, sessionId, stream))
  {
    var text := TextFor(runtimeId, sessionId, stream);
    forall a, b | Combine(a, b).Some? ensures text(Combine(a, b).value) == text(a) + text(b) {
      CoalesceIsPerStream(a.event, b.event);
      CombineKeepsNewest(a, b);
      hide Combine, StreamOf, TextOf, Coalesce;
    }
  }

  lemma CombineConcatenatesAtoms()
    ensures Concatenates(Combine, Atoms)
  {
    forall a, b | Combine(a, b).Some?
      ensures Atoms(Combine(a, b).value) == Atoms(a) + Atoms(b)
    {
      CoalesceIsPerStream(a.event, b.event);
    }
  }

  lemma {:induction false} SegmentsKeepContent<A>(segments: seq<seq<Envelope>>, content: Envelope -> seq<A>)
    requires Concatenates(Combine, content)
    ensures FlatMap(content, Flatten(GroupAll(segments))) == FlatMap(content, Flatten(segments))
  {
    if segments != [] {
      var k := |segments| - 1;
      SegmentsKeepContent(segments[..k], content);
      GroupKeepsContent(Combine, content, segments[k]);
      assert GroupAll(segments)[..k] == GroupAll(segments[..k]);
      FlatMapConcat(content, Flatten(GroupAll(segments[..k])), Group(Combine, segments[k]));
      FlatMapConcat(content, Flatten(segments[..k]), segments[k]);
    } else {
      assert GroupAll(segments) == [];
    }
  }

  /** Published batches followed by pending carry the text and the events of the inputs,
      each once and in order. */
  lemma StreamKeepsContent(log: Log)
    ensures FlatMap(Atoms, Envelopes(log)) == FlatMap(Atoms, Inputs(log))
  {
    CombineConcatenatesAtoms();
    SegmentsKeepContent(log.closed, Atoms);
    GroupKeepsContent(Combine, Atoms, log.open);
    FlatMapConcat(Atoms, Flatten(GroupAll(log.closed)), Group(Combine, log.open));
    FlatMapConcat(Atoms, Flatten(log.closed), log.open);
  }

  // ----- Sequence numbers -----

  ghost predicate Increasing(es: seq<Envelope>) {
    forall i, j :: 0 <= i < j < |es| ==> es[i].sequence < es[j].sequence
  }

  ghost predicate Spans(es: seq<Envelope>, first: nat, last: nat) {
    && Increasing(es)
    && (forall i :: 0 <= i < |es| ==> first <= es[i].sequence <= last)
    && (es != [] ==> es[|es| - 1].sequence == last)
  }

  lemma PushKeepsSequence(acc: seq<Envelope>, e: Envelope, first: nat, last: nat)
    requires Spans(acc, first, last) && first <= e.sequence
    requires acc != [] ==> last < e.sequence
    ensures Spans(Push(Combine, acc, e), first, e.sequence)
  {}

  /** Grouped envelopes keep the numbers of inputs: strictly increasing, ending in the
      number of the newest input, none outside the range the inputs span. */
  lemma {:induction false} GroupKeepsSequence(es: seq<Envelope>)
    requires Increasing(es)
    ensures es != [] ==> Spans(Group(Combine, es), es[0].sequence, es[|es| - 1].sequence)
  {
    if |es| > 1 {
      var k := |es| - 1;
      GroupKeepsSequence(es[..k]);
      PushKeepsSequence(Group(Combine, es[..k]), es[k], es[0].sequence, es[k - 1].sequence);
    } else if |es| == 1 {
      assert es[..0] == [];
      assert Group(Combine, es) == [es[0]];
    }
  }

  lemma SpansConcat(xs: seq<Envelope>, ys: seq<Envelope>, bound: nat)
    requires Increasing(xs) && Increasing(ys)
    requires forall i :: 0 <= i < |xs| ==> xs[i].sequence < bound
    requires forall i :: 0 <= i < |ys| ==> bound <= ys[i].sequence
    ensures Increasing(xs + ys)
  {}

  lemma IncreasingParts(xs: seq<Envelope>, ys: seq<Envelope>)
    requires Increasing(xs + ys)
    ensures Increasing(xs) && Increasing(ys)
    ensures forall i, j :: 0 <= i < |xs| && 0 <= j < |ys| ==> xs[i].sequence < ys[j].sequence
  {
    var all := xs + ys;
    assert forall i :: 0 <= i < |xs| ==> xs[i] == all[i];
    assert forall i :: 0 <= i < |ys| ==> ys[i] == all[|xs| + i];
  }

  ghost predicate Under(es: seq<Envelope>, bound: nat) {
    forall i :: 0 <= i < |es| ==> es[i].sequence < bound
  }

  /** Where the numbers before the last segment end and those of the last one begin. */
  function Middle(last: seq<Envelope>, bound: nat): nat { if last == [] then bound else last[0].sequence }

  lemma SplitSequence(before: seq<Envelope>, last: seq<Envelope>, bound: nat)
    requires Increasing(before + last) && Under(before + last, bound)
    ensures Increasing(before) && Increasing(last) && Under(before, Middle(last, bound)) && Under(last, bound)
  {
    IncreasingParts(before, last);
    assert forall i :: 0 <= i < |before| ==> (before + last)[i] == before[i];
    assert forall i :: 0 <= i < |last| ==> (before + last)[|before| + i] == last[i];
  }

  lemma JoinSequence(before: seq<Envelope>, last: seq<Envelope>, bound: nat)
    requires Increasing(before) && Increasing(last) && Under(before, Middle(last, bound)) && Under(last, bound)
    ensures Increasing(before + Group(Combine, last)) && Under(before + Group(Combine, last), bound)
  {
    GroupKeepsSequence(last);
    SpansConcat(before, Group(Combine, last), Middle(last, bound));
  }

  lemma {:induction false} FlattenKeepsSequence(segments: seq<seq<Envelope>>, bound: nat)
    requires Increasing(Flatten(segments)) && Under(Flatten(segments), bound)
    ensures Increasing(Flatten(GroupAll(segments))) && Under(Flatten(GroupAll(segments)), bound)
  {
    hide Increasing, Under, Group;
    if segments == [] {
      assert Flatten(GroupAll(segments)) == Flatten(segments);
    } else {
      var k := |segments| - 1;
      SplitSequence(Flatten(segments[..k]), segments[k], bound);
      FlattenKeepsSequence(segments[..k], Middle(segments[k], bound));
      JoinSequence(Flatten(GroupAll(segments[..k])), segments[k], bound);
      assert GroupAll(segments)[..k] == GroupAll(segments[..k]);
    }
  }

  /** A number above all of these. */
  function Bound(es: seq<Envelope>): nat { if es == [] then 0 else es[|es| - 1].sequence + 1 }

  lemma UnderBound(es: seq<Envelope>)
    requires Increasing(es)
    ensures Under(es, Bound(es))
  {}

  /** The numbers of the stream of envelopes increase strictly, across batches too. */
  lemma StreamIncreases(log: Log)
    requires Increasing(Inputs(log))
    ensures Increasing(Envelopes(log))
  {
    UnderBound(Inputs(log));
    hide Increasing, Under, Bound, Middle, Flatten, Group;
    var bound := Bound(Inputs(log));
    SplitSequence(Flatten(log.closed), log.open, bound);
    FlattenKeepsSequence(log.closed, Middle(log.open, bound));
    JoinSequence(Flatten(GroupAll(log.closed)), log.open, bound);
  }

  /** Every batch is the merge of its inputs cut into maximal runs of one stream. */
  lemma BatchesMergeRuns(log: Log, i: nat) returns (runs: seq<seq<Envelope>>)
    requires i < |log.closed|
    ensures MaximalRuns(Linked, log.closed[i], runs)
    ensures GroupAll(log.closed)[i] == MergeAll(Combine, runs)
  {
    CombineIsLawful();
    runs := GroupMergesRuns(Combine, Linked, log.closed[i]);
  }

  function EnvelopeProgress(e: Envelope): Option<Progress> { ProgressOf(e.event) }

  lemma EnvelopesAppend()
    ensures Appends(Combine, Linked, EnvelopeProgress)
  {
    forall a, b ensures Linked(a, b) ==> SameTool(EnvelopeProgress(a), EnvelopeProgress(b)) {
      ProgressIsAppended(a.event, b.event);
    }
    forall a, b | Combine(a, b).Some?
      ensures EnvelopeProgress(Combine(a, b).value) == Joined(EnvelopeProgress(a), EnvelopeProgress(b))
    {
      ProgressIsAppended(a.event, b.event);
    }
  }

  /** The tool output in a batch, pending included: for every maximal run of one tool's progress
      one envelope with the bounded tail of the raw outputs, and no other progress. */
  lemma BatchesShowOutput(segment: seq<Envelope>, events: seq<CoreEvent>) returns (runs: seq<seq<Envelope>>)
    requires |events| == |segment| && forall i :: 0 <= i < |segment| ==> segment[i].event == Compact(events[i])
    ensures MaximalRuns(Linked, segment, runs) && Group(Combine, segment) == MergeAll(Combine, runs)
    ensures ShowsRuns(EnvelopeProgress, runs, ProgressesOf(events), Group(Combine, segment))
  {
    CombineIsLawful();
    EnvelopesAppend();
    forall i | 0 <= i < |segment| ensures EnvelopeProgress(segment[i]) == Shortened(ProgressesOf(events)[i]) {
      ProgressIsAppended(events[i], events[i]);
    }
    hide Lawful, Appends, Compact, Shortened, EnvelopeProgress, ProgressesOf;
    runs := GroupShowsOutput(Combine, Linked, EnvelopeProgress, segment, ProgressesOf(events));
  }

  lemma ProgressStep(acc: Envelope, next: Envelope, id: nat, shown: Text, output: Text)
    requires acc.event == ToolProgress(id, shown) && next.event == Compact(ToolProgress(id, output))
    requires Linked(acc, next)
    ensures Combine(acc, next) == Some(next.(event := ToolProgress(id, Append(shown, Truncate(output)))))
  {}

  /** A run of one tool's progress events, each compacted on its way in, shows what the
      chunk pipeline shows of the raw outputs, under the newest envelope's data. */
  lemma {:induction false} ProgressRunIsBoundedTail(run: seq<Envelope>, id: nat, outputs: seq<Text>)
    requires run != [] && |run| == |outputs|
    requires forall i :: 0 <= i < |run| ==> run[i].event == Compact(ToolProgress(id, outputs[i]))
    requires IsRun(Linked, run)
    ensures Merge(Combine, run) == run[|run| - 1].(event := ToolProgress(id, PipelineFold(outputs)))
  {
    hide PipelineFold, Append, Truncate;
    var k := |run| - 1;
    PipelineUnfolds(outputs);
    if k > 0 {
      ProgressRunIsBoundedTail(run[..k], id, outputs[..k]);
      assert Linked(run[k - 1], run[k]);
      ProgressStep(Merge(Combine, run[..k]), run[k], id, PipelineFold(outputs[..k]), outputs[k]);
    }
  }
}
