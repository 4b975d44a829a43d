/** The events of the runtime protocol as far as buffering, recording and merging can
    tell them apart. A `Payload` stands for the fields these stages carry unread. */
module CoreEvents {
  import opened Options
  import opened Utf16
  import opened ToolOutput
  import opened ProgressRuns

  type Payload = nat

  datatype Agent = B | C

  datatype CoreEvent =
    | TextDelta(text: Text, textBlock: Option<nat>)
    | ThinkingDelta(text: Text)
    | ThinkingEnd(payload: Payload)
    | ToolStart(toolUseId: nat, payload: Payload)
    | ToolProgress(toolUseId: nat, output: Text)
    | ToolEnd(toolUseId: nat, result: Text, payload: Payload)
    | ImageViewed(payload: Payload)
    | CheckpointCreated(payload: Payload)
    | CheckpointDisabled(payload: Payload)
    | TaskPlanUpdated(payload: Payload)
    | UserQuestion(payload: Payload)
    | StepCommitted
    | StepOutputRetained
    | StepDiscarded
    | AgentStatus(idle: bool, payload: Payload)
    | MessageInjected(payload: Payload)
    | CheckpointRestored(ok: bool, payload: Payload)
    | Recorded(payload: Payload)    // turn-start, work-finished, error and the other visible facts outside a step
    | Transient(payload: Payload)   // approvals, usage and the other events the timeline never records
    | PeerEvent(agent: Agent, event: CoreEvent)

  datatype ViewEvent =
    | UserMessage(payload: Payload)
    | CoreView(event: CoreEvent)

  predicate FrameBuffered(event: CoreEvent) {
    || event.TextDelta?
    || event.ThinkingDelta?
    || event.ToolProgress?
    || (event.PeerEvent? && event.event.TextDelta?)
  }

  predicate StepScoped(event: CoreEvent) {
    match event
    case TextDelta(_, _) | ThinkingDelta(_) | ThinkingEnd(_) | ToolStart(_, _) | ToolProgress(_, _) | ToolEnd(_, _, _) => true
    case ImageViewed(_) | CheckpointCreated(_) | CheckpointDisabled(_) | TaskPlanUpdated(_) | UserQuestion(_) => true
    case _ => false
  }

  /** The bounded projection that both the live stream and the timeline show. */
  function Compact(event: CoreEvent): CoreEvent {
    match event
    case ToolProgress(id, output) => ToolProgress(id, Truncate(output))
    case ToolEnd(id, result, payload) => ToolEnd(id, Truncate(result), payload)
    case PeerEvent(agent, ToolEnd(id, result, payload)) => PeerEvent(agent, ToolEnd(id, Truncate(result), payload))
    case _ => event
  }

  function CompactView(event: ViewEvent): ViewEvent {
    match event
    case CoreView(e) => CoreView(Compact(e))
    case UserMessage(_) => event
  }

  /** What of an event the timeline records, if anything. */
  function ToViewEvent(event: CoreEvent): Option<ViewEvent> {
    match event
    case MessageInjected(payload) => Some(UserMessage(payload))
    case PeerEvent(_, inner) =>
      if inner.TextDelta? || inner.ToolStart? || inner.ToolEnd? then Some(CoreView(Compact(event))) else None
    case CheckpointRestored(ok, _) => if ok then Some(CoreView(Compact(event))) else None
    case StepCommitted | StepOutputRetained | StepDiscarded | AgentStatus(_, _) | Transient(_) => None
    case _ => Some(CoreView(Compact(event)))
  }

  /** Merges two strictly adjacent streaming events of one stream, or refuses. */
  function Coalesce(previous: CoreEvent, next: CoreEvent): Option<CoreEvent> {
    match (previous, next)
    case (TextDelta(a, block), TextDelta(b, block')) =>
      if block == block' then Some(TextDelta(a + b, block)) else None
    case (ThinkingDelta(a), ThinkingDelta(b)) => Some(ThinkingDelta(a + b))
    case (ToolProgress(id, a), ToolProgress(id', b)) =>
      if id == id' then Some(ToolProgress(id, Append(a, b))) else None
    case (PeerEvent(agent, TextDelta(a, block)), PeerEvent(agent', TextDelta(b, block'))) =>
      if agent == agent' && block == block' then Some(PeerEvent(agent, TextDelta(a + b, block))) else None
    case _ => None
  }

  function CoalesceViews(previous: ViewEvent, next: ViewEvent): Option<ViewEvent> {
    match (previous, next)
    case (CoreView(a), CoreView(b)) =>
      (match Coalesce(a, b)
       case Some(merged) => Some(CoreView(merged))
       case None => None)
    case _ => None
  }

  // ----- Streams -----

  datatype Stream =
    | TextStream(textBlock: Option<nat>)
    | ThinkingStream
    | ProgressStream(toolUseId: nat)
    | PeerStream(agent: Agent, textBlock: Option<nat>)

  /** The stream an event belongs to, if it belongs to one. */
  function StreamOf(event: CoreEvent): Option<Stream> {
    match event
    case TextDelta(_, block) => Some(TextStream(block))
    case ThinkingDelta(_) => Some(ThinkingStream)
    case ToolProgress(id, _) => Some(ProgressStream(id))
    case PeerEvent(agent, TextDelta(_, block)) => Some(PeerStream(agent, block))
    case _ => None
  }

  predicate SameStream(a: CoreEvent, b: CoreEvent) {
    StreamOf(a).Some? && StreamOf(a) == StreamOf(b)
  }

  /** The text an event adds to its stream; a tool's output is bounded and described apart. */
  function TextOf(event: CoreEvent): Text {
    match event
    case TextDelta(text, _) => text
    case ThinkingDelta(text) => text
    case PeerEvent(_, TextDelta(text, _)) => text
    case _ => []
  }

  /** Coalescing succeeds exactly inside one stream, stays in it and concatenates its text;
      the events of streams are the ones that may wait for the next frame. */
  lemma CoalesceIsPerStream(a: CoreEvent, b: CoreEvent)
    ensures Coalesce(a, b).Some? <==> SameStream(a, b)
    ensures Coalesce(a, b).Some? ==> var merged := Coalesce(a, b).value;
      StreamOf(merged) == StreamOf(a) && TextOf(merged) == TextOf(a) + TextOf(b)
    ensures FrameBuffered(a) <==> StreamOf(a).Some?
  {}

  /** Which events merge, and what of: text of one block, thinking, progress of one tool, and text
      of one block of one peer, each of them strictly with its own kind. Those kinds, and no other
      events, may wait for the next frame. */
  lemma CoalesceByKind(a: CoreEvent, b: CoreEvent)
    ensures FrameBuffered(a) <==>
      match a { case TextDelta(_, _) | ThinkingDelta(_) | ToolProgress(_, _) | PeerEvent(_, TextDelta(_, _)) => true case _ => false }
    ensures SameStream(a, b) <==>
      match (a, b) {
        case (TextDelta(_, block), TextDelta(_, block')) => block == block'
        case (ThinkingDelta(_), ThinkingDelta(_)) => true
        case (ToolProgress(id, _), ToolProgress(id', _)) => id == id'
        case (PeerEvent(agent, TextDelta(_, block)), PeerEvent(agent', TextDelta(_, block'))) => agent == agent' && block == block'
        case _ => false }
    ensures SameStream(a, b) ==>
      match (a, b) {
        case (TextDelta(x, block), TextDelta(y, _)) => Coalesce(a, b) == Some(TextDelta(x + y, block))
        case (ThinkingDelta(x), ThinkingDelta(y)) => Coalesce(a, b) == Some(ThinkingDelta(x + y))
        case (ToolProgress(id, x), ToolProgress(_, y)) => Coalesce(a, b) == Some(ToolProgress(id, Append(x, y)))
        case (PeerEvent(agent, TextDelta(x, block)), PeerEvent(_, TextDelta(y, _))) =>
          Coalesce(a, b) == Some(PeerEvent(agent, TextDelta(x + y, block)))
        case _ => false }
  {}

  /** `shown` is all of a text that fits, and otherwise the omission marker and as much of the end as
      fits beside it, give or take the unit that would split a pair. */
  ghost predicate ShowsEnd(shown: Text, text: Text) {
    if |text| <= 65536 then shown == text
    else
      && 65535 <= |shown| <= 65536
      && shown == MARKER + text[|text| + |MARKER| - |shown|..]
  }

  /** Compaction bounds what progress and results of tools show, a peer's results included, leaves
      every other event and every other field alone, and has nothing left to do a second time. */
  lemma CompactIsBounded(e: CoreEvent)
    ensures match (e, Compact(e)) {
      case (ToolProgress(id, output), ToolProgress(id', shown)) => id' == id && ShowsEnd(shown, output)
      case (ToolEnd(id, result, payload), ToolEnd(id', shown, payload')) => id' == id && payload' == payload && ShowsEnd(shown, result)
      case (PeerEvent(agent, ToolEnd(id, result, payload)), PeerEvent(agent', ToolEnd(id', shown, payload'))) =>
        agent' == agent && id' == id && payload' == payload && ShowsEnd(shown, result)
      case (ToolProgress(_, _), _) | (ToolEnd(_, _, _), _) | (PeerEvent(_, ToolEnd(_, _, _)), _) => false
      case (_, same) => same == e }
    ensures Compact(Compact(e)) == Compact(e)
  {
    match e
    case ToolProgress(_, text) => TruncateShowsEnd(text);
    case ToolEnd(_, text, _) => TruncateShowsEnd(text);
    case PeerEvent(_, ToolEnd(_, text, _)) => TruncateShowsEnd(text);
    case _ =>
  }

  lemma TruncateShowsEnd(text: Text)
    ensures ShowsEnd(Truncate(text), text)
  {
    hide SafeSuffix, SplitsPair;
    if |text| > MAX_VISIBLE {
      SuffixIsDrop(text, BODY_LIMIT);
      var start := SuffixStart(text, BODY_LIMIT);
      assert Truncate(text) == MARKER + text[start..];
    }
  }

  // ----- Progress of tools -----

  function ProgressOf(event: CoreEvent): Option<Progress> {
    if event.ToolProgress? then Some(Progress(event.toolUseId, event.output)) else None
  }

  function ProgressesOf(events: seq<CoreEvent>): (r: seq<Option<Progress>>)
    ensures |r| == |events| && forall i :: 0 <= i < |r| ==> r[i] == ProgressOf(events[i])
  {
    seq(|events|, i requires 0 <= i < |events| => ProgressOf(events[i]))
  }

  /** Compaction truncates progress, coalescing appends it, and only progress of one tool is in
      one stream. */
  lemma ProgressIsAppended(a: CoreEvent, b: CoreEvent)
    ensures ProgressOf(Compact(a)) == Shortened(ProgressOf(a))
    ensures SameStream(a, b) ==> SameTool(ProgressOf(a), ProgressOf(b))
    ensures Coalesce(a, b).Some? ==> ProgressOf(Coalesce(a, b).value) == Joined(ProgressOf(a), ProgressOf(b))
  {}
}
