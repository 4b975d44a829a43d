/** The visible timeline's step transactions: three draft channels, committed, retained or
    discarded as wholes, in front of the journals they are written to. */
module Timeline {
  import opened Options
  import opened Utf16
  import opened ToolOutput
  import opened CoreEvents
  import opened Runs

  type WriterId = nat

  datatype Channel = Main | PeerB | PeerC

  function ChannelOf(agent: Agent): Channel { if agent == B then PeerB else PeerC }

  const CHANNELS := {Main, PeerB, PeerC}

  /** What one captured event asks of the timeline. */
  datatype Action =
    | Commit(channel: Channel)
    | Retain(channel: Channel)
    | Discard(channel: Channel)
    | DiscardEvery
    | Buffer(channel: Channel, view: ViewEvent)
    | Write(view: ViewEvent)
    | Ignore

  function Classify(event: CoreEvent): Action {
    match event
    case PeerEvent(agent, StepCommitted) => Commit(ChannelOf(agent))
    case PeerEvent(agent, StepOutputRetained) => Retain(ChannelOf(agent))
    case PeerEvent(agent, StepDiscarded) => Discard(ChannelOf(agent))
    case PeerEvent(agent, _) =>
      (match ToViewEvent(event)
       case Some(view) => Buffer(ChannelOf(agent), view)
       case None => Ignore)
    case StepCommitted => Commit(Main)
    case StepOutputRetained => Retain(Main)
    case StepDiscarded => Discard(Main)
    case AgentStatus(true, _) => DiscardEvery
    case _ =>
      match ToViewEvent(event)
      case Some(view) => if StepScoped(event) then Buffer(Main, view) else Write(view)
      case None => Ignore
  }

  /** The text that survives a failed or stopped step. */
  predicate IsOutput(view: ViewEvent) {
    view.CoreView? && (view.event.TextDelta? || (view.event.PeerEvent? && view.event.event.TextDelta?))
  }

  function Outputs(views: seq<ViewEvent>): seq<ViewEvent> {
    if views == [] then []
    else Outputs(views[..|views| - 1]) + (if IsOutput(views[|views| - 1]) then [views[|views| - 1]] else [])
  }

  // ----- What a history of captures means, channel by channel -----

  /** One captured input, already classified; for a discard of everything asked from
      outside, writer and time are of no account. */
  datatype Captured = Captured(writer: WriterId, action: Action, occurredAt: nat)

  /** Whether an input ends the current step of a channel. */
  predicate Ends(action: Action, c: Channel) {
    action == Commit(c) || action == Retain(c) || action == Discard(c) || action == DiscardEvery
  }

  datatype Item = Item(writer: WriterId, view: ViewEvent, at: nat)

  /** A draft belongs to one writer: an item for another one starts it afresh. */
  function AddItem(draft: seq<Item>, item: Item): seq<Item> {
    (if draft != [] && draft[0].writer != item.writer then [] else draft) + [item]
  }

  /** The raw events of a channel since its last step ended. */
  function Draft(h: seq<Captured>, c: Channel): seq<Item> {
    if h == [] then [] else NextDraft(Draft(h[..|h| - 1], c), h[|h| - 1], c)
  }

  function NextDraft(draft: seq<Item>, input: Captured, c: Channel): seq<Item> {
    var action := input.action;
    if Ends(action, c) then []
    else if action.Buffer? && action.channel == c then AddItem(draft, Item(input.writer, action.view, input.occurredAt))
    else draft
  }

  function CombineItems(a: Item, b: Item): Option<Item> {
    match CoalesceViews(a.view, b.view)
    case Some(view) => Some(Item(a.writer, view, b.at))
    case None => None
  }

  /** A draft as it is shown: streams merged, each merged event under its newest time. */
  function Step(draft: seq<Item>): seq<Item> { Group(CombineItems, draft) }

  function Views(items: seq<Item>): (r: seq<ViewEvent>)
    ensures |r| == |items| && forall i :: 0 <= i < |r| ==> r[i] == items[i].view
  {
    seq(|items|, i requires 0 <= i < |items| => items[i].view)
  }

  function Times(items: seq<Item>): (r: seq<nat>)
    ensures |r| == |items| && forall i :: 0 <= i < |r| ==> r[i] == items[i].at
  {
    seq(|items|, i requires 0 <= i < |items| => items[i].at)
  }

  function WriterOf(draft: seq<Item>): Option<WriterId> {
    if draft == [] then None else Some(draft[0].writer)
  }

  datatype Batch = Batch(writer: WriterId, events: seq<ViewEvent>)

  /** The writes one input issues, given the history before it. */
  function Issued(h: seq<Captured>, input: Captured): seq<Batch> {
    match input.action
    case Commit(c) => if Draft(h, c) == [] then [] else [Batch(Draft(h, c)[0].writer, Views(Step(Draft(h, c))))]
    case Retain(c) =>
      var output := Outputs(Views(Step(Draft(h, c))));
      if Draft(h, c) == [] || output == [] then [] else [Batch(Draft(h, c)[0].writer, output)]
    case Write(view) => [Batch(input.writer, [view])]
    case _ => []
  }

  /** Every batch handed to a writer, in order. */
  function Writes(h: seq<Captured>): seq<Batch> {
    if h == [] then [] else Writes(h[..|h| - 1]) + Issued(h[..|h| - 1], h[|h| - 1])
  }

  function BatchesFor(writes: seq<Batch>, w: WriterId): seq<seq<ViewEvent>> {
    if writes == [] then []
    else
      var last := writes[|writes| - 1];
      BatchesFor(writes[..|writes| - 1], w) + (if last.writer == w then [last.events] else [])
  }

  // ----- Capture order -----

  /** What one input does to the merged events of a channel. */
  datatype Change = Ended | Opened(restart: bool) | Extended | Untouched

  function ChangeOf(draft: seq<Item>, input: Captured, c: Channel): Change {
    var action := input.action;
    if Ends(action, c) then Ended
    else if action.Buffer? && action.channel == c then
      var restart := draft != [] && draft[0].writer != input.writer;
      if |Step(NextDraft(draft, input, c))| > (if restart then 0 else |Step(draft)|) then Opened(restart) else Extended
    else Untouched
  }

  function Renumber(numbers: seq<nat>, change: Change, tag: nat): seq<nat> {
    match change
    case Ended => []
    case Opened(restart) => (if restart then [] else numbers) + [tag]
    case Extended | Untouched => numbers
  }

  predicate OpensAny(h: seq<Captured>, input: Captured) {
    input.action.Buffer? && ChangeOf(Draft(h, input.action.channel), input, input.action.channel).Opened?
  }

  /** How many merged events were ever opened. */
  function Captures(h: seq<Captured>): nat {
    if h == [] then 0
    else Captures(h[..|h| - 1]) + (if OpensAny(h[..|h| - 1], h[|h| - 1]) then 1 else 0)
  }

  /** The capture number of each merged event of a channel. */
  function Orders(h: seq<Captured>, c: Channel): seq<nat> {
    if h == [] then []
    else
      var init := h[..|h| - 1];
      Renumber(Orders(init, c), ChangeOf(Draft(init, c), h[|h| - 1], c), Captures(init) + 1)
  }

  /** The position in the history at which each merged event of a channel began. */
  function Origins(h: seq<Captured>, c: Channel): seq<nat> {
    if h == [] then []
    else
      var init := h[..|h| - 1];
      Renumber(Origins(init, c), ChangeOf(Draft(init, c), h[|h| - 1], c), |init|)
  }

  lemma StepGrows(draft: seq<Item>, item: Item)
    ensures |Step(draft)| <= |Step(draft + [item])| <= |Step(draft)| + 1
    ensures |Step([item])| == 1
  {
    hide CombineItems;
    assert (draft + [item])[..|draft|] == draft;
    assert [item][..0] == [];
  }

  lemma ChangeFits(draft: seq<Item>, input: Captured, c: Channel, numbers: seq<nat>, tag: nat)
    requires |numbers| == |Step(draft)|
    ensures |Renumber(numbers, ChangeOf(draft, input, c), tag)| == |Step(NextDraft(draft, input, c))|
    ensures ChangeOf(draft, input, c).Opened? ==> input.action.Buffer? && input.action.channel == c
  {
    hide Step;
    var action := input.action;
    if action.Buffer? && action.channel == c {
      var item := Item(input.writer, action.view, input.occurredAt);
      StepGrows(draft, item);
      assert [] + [item] == [item];
    } else {
      NothingBegun();
    }
  }

  lemma NothingBegun()
    ensures Step([]) == []
  {}

  lemma {:induction false} NumbersAligned(h: seq<Captured>, c: Channel)
    ensures |Orders(h, c)| == |Origins(h, c)| == |Step(Draft(h, c))|
  {
    if h != [] {
      var init, x := h[..|h| - 1], h[|h| - 1];
      NumbersAligned(init, c);
      ChangeFits(Draft(init, c), x, c, Orders(init, c), Captures(init) + 1);
      ChangeFits(Draft(init, c), x, c, Origins(init, c), |init|);
    }
  }

  ghost predicate Ascending(numbers: seq<nat>) {
    forall i, j :: 0 <= i < j < |numbers| ==> numbers[i] < numbers[j]
  }

  ghost predicate Below(numbers: seq<nat>, bound: nat) {
    forall i :: 0 <= i < |numbers| ==> numbers[i] < bound
  }

  lemma RenumberBelow(numbers: seq<nat>, change: Change, tag: nat, bound: nat)
    requires Below(numbers, tag) && Ascending(numbers) && tag <= bound
    requires change.Opened? ==> tag < bound
    ensures Below(Renumber(numbers, change, tag), bound)
    ensures Ascending(Renumber(numbers, change, tag))
  {}

  /** Numbers in use are older than the next one given out, and grow within a channel. */
  lemma {:induction false} NumbersBelow(h: seq<Captured>, c: Channel)
    ensures Below(Orders(h, c), Captures(h) + 1) && Ascending(Orders(h, c))
    ensures Below(Origins(h, c), |h|) && Ascending(Origins(h, c))
  {
    if h != [] {
      var init, x := h[..|h| - 1], h[|h| - 1];
      var change := ChangeOf(Draft(init, c), x, c);
      NumbersBelow(init, c);
      NumbersAligned(init, c);
      ChangeFits(Draft(init, c), x, c, Orders(init, c), 0);
      RenumberBelow(Orders(init, c), change, Captures(init) + 1, Captures(h) + 1);
      RenumberBelow(Origins(init, c), change, |init|, |h|);
    }
  }

  ghost predicate SameOrder(a: seq<nat>, b: seq<nat>, a': seq<nat>, b': seq<nat>) {
    && |a| == |a'| && |b| == |b'|
    && forall i, j :: 0 <= i < |a| && 0 <= j < |b| ==> (a[i] < b[j] <==> a'[i] < b'[j])
  }

  lemma RenumberKeepsOrder(a: seq<nat>, b: seq<nat>, a': seq<nat>, b': seq<nat>, changeA: Change, changeB: Change, tag: nat, tag': nat)
    requires SameOrder(a, b, a', b')
    requires Below(a, tag) && Below(b, tag) && Below(a', tag') && Below(b', tag')
    ensures SameOrder(Renumber(a, changeA, tag), Renumber(b, changeB, tag), Renumber(a', changeA, tag'), Renumber(b', changeB, tag'))
  {}

  /** Capture numbers order merged events, across channels, by where they began. */
  lemma {:induction false} OrdersFollowOrigins(h: seq<Captured>, c: Channel, d: Channel)
    ensures SameOrder(Orders(h, c), Orders(h, d), Origins(h, c), Origins(h, d))
  {
    if h != [] {
      var init, x := h[..|h| - 1], h[|h| - 1];
      OrdersFollowOrigins(init, c, d);
      NumbersBelow(init, c);
      NumbersBelow(init, d);
      RenumberKeepsOrder(Orders(init, c), Orders(init, d), Origins(init, c), Origins(init, d),
                         ChangeOf(Draft(init, c), x, c), ChangeOf(Draft(init, d), x, d), Captures(init) + 1, |init|);
    }
  }

  ghost predicate Disjoint(a: seq<nat>, b: seq<nat>) {
    forall i, j :: 0 <= i < |a| && 0 <= j < |b| ==> a[i] != b[j]
  }

  lemma RenumberKeepsDisjoint(a: seq<nat>, b: seq<nat>, changeA: Change, changeB: Change, tag: nat)
    requires Disjoint(a, b) && Below(a, tag) && Below(b, tag)
    requires !(changeA.Opened? && changeB.Opened?)
    ensures Disjoint(Renumber(a, changeA, tag), Renumber(b, changeB, tag))
  {}

  /** No two channels ever share a capture number. */
  lemma {:induction false} OrdersDisjoint(h: seq<Captured>, c: Channel, d: Channel)
    requires c != d
    ensures Disjoint(Orders(h, c), Orders(h, d))
  {
    if h != [] {
      var init, x := h[..|h| - 1], h[|h| - 1];
      OrdersDisjoint(init, c, d);
      NumbersBelow(init, c);
      NumbersBelow(init, d);
      NumbersAligned(init, c);
      NumbersAligned(init, d);
      ChangeFits(Draft(init, c), x, c, Orders(init, c), 0);
      ChangeFits(Draft(init, d), x, d, Orders(init, d), 0);
      RenumberKeepsDisjoint(Orders(init, c), Orders(init, d), ChangeOf(Draft(init, c), x, c), ChangeOf(Draft(init, d), x, d), Captures(init) + 1);
    }
  }

  // ----- Snapshots of the drafts -----

  datatype Entry = Entry(event: ViewEvent, timestamp: nat, order: nat)

  function EntriesOf(events: seq<ViewEvent>, timestamps: seq<nat>, order: seq<nat>): (r: seq<Entry>)
    requires |events| == |timestamps| == |order|
    ensures |r| == |events| && forall i :: 0 <= i < |r| ==> r[i] == Entry(events[i], timestamps[i], order[i])
  {
    seq(|events|, i requires 0 <= i < |events| => Entry(events[i], timestamps[i], order[i]))
  }

  function DraftEntries(h: seq<Captured>, c: Channel, w: WriterId): seq<Entry> {
    var draft := Draft(h, c);
    NumbersAligned(h, c);
    if WriterOf(draft) == Some(w) then EntriesOf(Views(Step(draft)), Times(Step(draft)), Orders(h, c)) else []
  }

  function InsertByOrder(e: Entry, sorted: seq<Entry>): seq<Entry> {
    if sorted == [] || e.order <= sorted[0].order then [e] + sorted
    else [sorted[0]] + InsertByOrder(e, sorted[1..])
  }

  function SortByOrder(entries: seq<Entry>): seq<Entry> {
    if entries == [] then [] else InsertByOrder(entries[0], SortByOrder(entries[1..]))
  }

  ghost predicate StrictlySorted(entries: seq<Entry>) {
    forall i, j :: 0 <= i < j < |entries| ==> entries[i].order < entries[j].order
  }

  ghost predicate Distinct(entries: seq<Entry>) {
    forall i, j :: 0 <= i < j < |entries| ==> entries[i].order != entries[j].order
  }

  lemma {:induction false} InsertKeepsElements(e: Entry, sorted: seq<Entry>)
    ensures multiset(InsertByOrder(e, sorted)) == multiset{e} + multiset(sorted)
  {
    if !(sorted == [] || e.order <= sorted[0].order) {
      InsertKeepsElements(e, sorted[1..]);
      assert sorted == [sorted[0]] + sorted[1..];
    }
  }

  lemma {:induction false} InsertSorts(e: Entry, sorted: seq<Entry>)
    requires StrictlySorted(sorted)
    requires forall i :: 0 <= i < |sorted| ==> sorted[i].order != e.order
    ensures StrictlySorted(InsertByOrder(e, sorted))
    ensures var r := InsertByOrder(e, sorted);
      r != [] && (r[0] == e || (sorted != [] && r[0] == sorted[0] && sorted[0].order < e.order))
  {
    if !(sorted == [] || e.order <= sorted[0].order) {
      InsertSorts(e, sorted[1..]);
    }
  }

  lemma {:induction false} SortSorts(entries: seq<Entry>)
    requires Distinct(entries)
    ensures StrictlySorted(SortByOrder(entries)) && multiset(SortByOrder(entries)) == multiset(entries)
  {
    if entries != [] {
      var e, rest := entries[0], entries[1..];
      SortSorts(rest);
      var sorted := SortByOrder(rest);
      forall i | 0 <= i < |sorted| ensures sorted[i].order != e.order {
        assert sorted[i] in multiset(rest);
      }
      InsertSorts(e, sorted);
      InsertKeepsElements(e, sorted);
      assert entries == [e] + rest;
    }
  }

  lemma DistinctConcat(xs: seq<Entry>, ys: seq<Entry>)
    requires Distinct(xs) && Distinct(ys)
    requires forall i, j :: 0 <= i < |xs| && 0 <= j < |ys| ==> xs[i].order != ys[j].order
    ensures Distinct(xs + ys)
  {}

  function AllEntries(h: seq<Captured>, w: WriterId): seq<Entry> {
    DraftEntries(h, Main, w) + DraftEntries(h, PeerB, w) + DraftEntries(h, PeerC, w)
  }

  /** The drafts of writer `w`, all channels merged by capture number. */
  function SnapshotOf(h: seq<Captured>, w: WriterId): seq<Entry> { SortByOrder(AllEntries(h, w)) }

  lemma DraftEntriesDistinct(h: seq<Captured>, c: Channel, w: WriterId)
    ensures Distinct(DraftEntries(h, c, w))
    ensures |DraftEntries(h, c, w)| <= |Orders(h, c)|
    ensures forall i :: 0 <= i < |DraftEntries(h, c, w)| ==> DraftEntries(h, c, w)[i].order == Orders(h, c)[i]
  {
    hide Draft, Step, Orders;
    NumbersBelow(h, c);
    NumbersAligned(h, c);
  }

  lemma ChannelsDistinct(h: seq<Captured>, c: Channel, d: Channel, w: WriterId)
    requires c != d
    ensures forall i, j :: 0 <= i < |DraftEntries(h, c, w)| && 0 <= j < |DraftEntries(h, d, w)| ==>
      DraftEntries(h, c, w)[i].order != DraftEntries(h, d, w)[j].order
  {
    DraftEntriesDistinct(h, c, w);
    DraftEntriesDistinct(h, d, w);
    OrdersDisjoint(h, c, d);
  }

  lemma AllEntriesDistinct(h: seq<Captured>, w: WriterId)
    ensures Distinct(AllEntries(h, w))
  {
    DraftEntriesDistinct(h, Main, w);
    DraftEntriesDistinct(h, PeerB, w);
    DraftEntriesDistinct(h, PeerC, w);
    ChannelsDistinct(h, Main, PeerB, w);
    ChannelsDistinct(h, Main, PeerC, w);
    ChannelsDistinct(h, PeerB, PeerC, w);
    DistinctConcat(DraftEntries(h, Main, w), DraftEntries(h, PeerB, w));
    DistinctConcat(DraftEntries(h, Main, w) + DraftEntries(h, PeerB, w), DraftEntries(h, PeerC, w));
  }

  /** A snapshot holds every merged draft event of its writer exactly once, strictly in
      capture order; within a channel that is the channel's own order. */
  lemma SnapshotMergesChannels(h: seq<Captured>, w: WriterId)
    ensures StrictlySorted(SnapshotOf(h, w))
    ensures multiset(SnapshotOf(h, w)) == multiset(AllEntries(h, w))
  {
    AllEntriesDistinct(h, w);
    SortSorts(AllEntries(h, w));
  }

  // ----- The class -----

  datatype PendingStep = PendingStep(writer: Option<WriterId>, events: seq<ViewEvent>, timestamps: seq<nat>, order: seq<nat>)

  const EMPTY_STEP := PendingStep(None, [], [], [])

  /** A channel's record shows a draft: its three arrays are the projections of one list. */
  predicate Shows(step: PendingStep, draft: seq<Item>, orders: seq<nat>) {
    && step.writer == WriterOf(draft)
    && step.events == Views(Step(draft))
    && step.timestamps == Times(Step(draft))
    && step.order == orders
  }

  predicate Mirrors(step: PendingStep, h: seq<Captured>, c: Channel) {
    Shows(step, Draft(h, c), Orders(h, c))
  }

  lemma ViewsOfPush(items: seq<Item>, item: Item)
    ensures Views(Push(CombineItems, items, item)) == Push(CoalesceViews, Views(items), item.view)
    ensures Times(Push(CombineItems, items, item)) ==
      (if |Push(CombineItems, items, item)| > |items| then Times(items) + [item.at] else Times(items)[|items| - 1 := item.at])
  {}

  lemma ClassifiedViewsAreCompact(event: CoreEvent)
    ensures var action := Classify(event);
      (action.Buffer? ==> CompactView(action.view) == action.view) && (action.Write? ==> CompactView(action.view) == action.view)
  {}

  lemma HistorySnoc(h: seq<Captured>, x: Captured, c: Channel)
    ensures Draft(h + [x], c) == NextDraft(Draft(h, c), x, c)
    ensures Orders(h + [x], c) == Renumber(Orders(h, c), ChangeOf(Draft(h, c), x, c), Captures(h) + 1)
    ensures Captures(h + [x]) == Captures(h) + (if OpensAny(h, x) then 1 else 0)
    ensures Writes(h + [x]) == Writes(h) + Issued(h, x)
  {
    hide NextDraft, Renumber, ChangeOf, Issued, OpensAny;
    assert (h + [x])[..|h|] == h;
  }

  lemma {:induction false} BatchesForConcat(xs: seq<Batch>, ys: seq<Batch>, w: WriterId)
    ensures BatchesFor(xs + ys, w) == BatchesFor(xs, w) + BatchesFor(ys, w)
  {
    if ys == [] {
      assert xs + ys == xs;
    } else {
      var init := ys[..|ys| - 1];
      BatchesForConcat(xs, init, w);
      assert (xs + ys)[..|xs + ys| - 1] == xs + init;
    }
  }

  function JournalOf(journal: map<WriterId, seq<seq<ViewEvent>>>, w: WriterId): seq<seq<ViewEvent>> {
    if w in journal then journal[w] else []
  }

  ghost predicate DraftsMirror(pending: map<Channel, PendingStep>, captureSequence: nat, h: seq<Captured>) {
    && pending.Keys == CHANNELS
    && (forall c :: c in CHANNELS ==> Mirrors(pending[c], h, c))
    && captureSequence == Captures(h)
  }

  /** Unless a journal refused a write, each holds its writes but those in flight. */
  ghost predicate JournalsMirror(journal: map<WriterId, seq<seq<ViewEvent>>>, inFlight: seq<Batch>, writes: seq<Batch>) {
    forall w: WriterId :: JournalOf(journal, w) + BatchesFor(inFlight, w) == BatchesFor(writes, w)
  }

  lemma UntouchedMirrors(step: PendingStep, h: seq<Captured>, x: Captured, c: Channel)
    requires Mirrors(step, h, c)
    requires !Ends(x.action, c) && !(x.action.Buffer? && x.action.channel == c)
    ensures Mirrors(step, h + [x], c)
  {
    hide Draft, Orders, Step;
    HistorySnoc(h, x, c);
  }

  lemma EndedMirrors(h: seq<Captured>, x: Captured, c: Channel)
    requires Ends(x.action, c)
    ensures Mirrors(EMPTY_STEP, h + [x], c)
  {
    HistorySnoc(h, x, c);
    assert Views([]) == [] && Times([]) == [];
  }

  lemma EndingMirrors(pending: map<Channel, PendingStep>, n: nat, h: seq<Captured>, x: Captured, channel: Channel)
    requires DraftsMirror(pending, n, h)
    requires x.action == Commit(channel) || x.action == Retain(channel) || x.action == Discard(channel)
    ensures DraftsMirror(pending[channel := EMPTY_STEP], n, h + [x])
  {
    hide Mirrors, Captures;
    forall c | c in CHANNELS ensures Mirrors(pending[channel := EMPTY_STEP][c], h + [x], c) {
      if c == channel { EndedMirrors(h, x, c); } else { UntouchedMirrors(pending[c], h, x, c); }
    }
    HistorySnoc(h, x, channel);
  }

  lemma EndingAllMirrors(pending: map<Channel, PendingStep>, n: nat, h: seq<Captured>, x: Captured)
    requires DraftsMirror(pending, n, h) && x.action == DiscardEvery
    ensures DraftsMirror(map[Main := EMPTY_STEP, PeerB := EMPTY_STEP, PeerC := EMPTY_STEP], n, h + [x])
  {
    hide Mirrors, Captures;
    EndedMirrors(h, x, Main);
    EndedMirrors(h, x, PeerB);
    EndedMirrors(h, x, PeerC);
    HistorySnoc(h, x, Main);
  }

  lemma PassingMirrors(pending: map<Channel, PendingStep>, n: nat, h: seq<Captured>, x: Captured)
    requires DraftsMirror(pending, n, h) && (x.action.Write? || x.action.Ignore?)
    ensures DraftsMirror(pending, n, h + [x])
  {
    hide Mirrors, Captures;
    forall c | c in CHANNELS ensures Mirrors(pending[c], h + [x], c) {
      UntouchedMirrors(pending[c], h, x, c);
    }
    HistorySnoc(h, x, Main);
  }

  /** The channel record after buffering one event. */
  function Buffered(step: PendingStep, w: WriterId, view: ViewEvent, at: nat, tag: nat): PendingStep {
    var before := Kept(step, w);
    var after := Push(CoalesceViews, before.events, view);
    if |after| > |before.events| then PendingStep(Some(w), after, before.timestamps + [at], before.order + [tag])
    else PendingStep(Some(w), after, if before.timestamps == [] then [] else before.timestamps[..|before.timestamps| - 1] + [at], before.order)
  }

  predicate OpensEvent(step: PendingStep, w: WriterId, view: ViewEvent) {
    |Push(CoalesceViews, Kept(step, w).events, view)| > |Kept(step, w).events|
  }

  /** The record of a channel before an event of `w`: a stale draft has been dropped. */
  function Kept(step: PendingStep, w: WriterId): PendingStep {
    if step.writer.Some? && step.writer.value != w then PendingStep(step.writer, [], [], []) else step
  }

  lemma AppendShows(step: PendingStep, draft: seq<Item>, orders: seq<nat>, item: Item, tag: nat)
    requires step.events == Views(Step(draft)) && step.timestamps == Times(Step(draft)) && step.order == orders
    requires draft != [] ==> draft[0].writer == item.writer
    ensures var after := Push(CoalesceViews, step.events, item.view);
      var grew := |Step(draft + [item])| > |Step(draft)|;
      && after == Views(Step(draft + [item]))
      && (grew <==> |after| > |step.events|)
      && Times(Step(draft + [item])) == (if grew then step.timestamps + [item.at] else
           if step.timestamps == [] then [] else step.timestamps[..|step.timestamps| - 1] + [item.at])
      && WriterOf(draft + [item]) == Some(item.writer)
  {
    assert (draft + [item])[..|draft|] == draft;
    hide CombineItems, CoalesceViews, Group;
    assert Step(draft + [item]) == Push(CombineItems, Step(draft), item) by { StepSnoc(draft, item); }
    ViewsOfPush(Step(draft), item);
  }

  lemma StepSnoc(draft: seq<Item>, item: Item)
    ensures Step(draft + [item]) == Push(CombineItems, Step(draft), item)
  {
    assert (draft + [item])[..|draft|] == draft;
  }

  lemma NothingShown()
    ensures Step([]) == [] && Views([]) == [] && Times([]) == []
  {}

  lemma BufferedShows(step: PendingStep, draft: seq<Item>, orders: seq<nat>, x: Captured, c: Channel, tag: nat)
    requires Shows(step, draft, orders) && |orders| == |Step(draft)|
    requires x.action.Buffer? && x.action.channel == c
    ensures Shows(Buffered(step, x.writer, x.action.view, x.occurredAt, tag), NextDraft(draft, x, c), Renumber(orders, ChangeOf(draft, x, c), tag))
    ensures ChangeOf(draft, x, c).Opened? <==> OpensEvent(step, x.writer, x.action.view)
  {
    hide Step, CoalesceViews, Push, Views, Times;
    var item := Item(x.writer, x.action.view, x.occurredAt);
    var restart := draft != [] && draft[0].writer != x.writer;
    var kept := if restart then [] else draft;
    NothingShown();
    AppendShows(Kept(step, x.writer), kept, if restart then [] else orders, item, tag);
    assert NextDraft(draft, x, c) == kept + [item];
  }

  lemma BufferedMirrors(step: PendingStep, h: seq<Captured>, x: Captured, c: Channel)
    requires Mirrors(step, h, c)
    requires x.action.Buffer? && x.action.channel == c
    ensures Mirrors(Buffered(step, x.writer, x.action.view, x.occurredAt, Captures(h) + 1), h + [x], c)
    ensures OpensAny(h, x) <==> OpensEvent(step, x.writer, x.action.view)
  {
    hide Draft, Orders, Captures, Shows, Buffered, OpensEvent, ChangeOf, Renumber, NextDraft;
    HistorySnoc(h, x, c);
    NumbersAligned(h, c);
    BufferedShows(step, Draft(h, c), Orders(h, c), x, c, Captures(h) + 1);
  }

  lemma BufferingMirrors(pending: map<Channel, PendingStep>, n: nat, h: seq<Captured>, x: Captured, channel: Channel)
    requires DraftsMirror(pending, n, h)
    requires x.action.Buffer? && x.action.channel == channel
    ensures var step := pending[channel];
      DraftsMirror(pending[channel := Buffered(step, x.writer, x.action.view, x.occurredAt, n + 1)],
                   if OpensEvent(step, x.writer, x.action.view) then n + 1 else n, h + [x])
  {
    hide Mirrors, Captures, Buffered, OpensEvent, OpensAny;
    var next := pending[channel := Buffered(pending[channel], x.writer, x.action.view, x.occurredAt, n + 1)];
    BufferedMirrors(pending[channel], h, x, channel);
    forall c | c in CHANNELS ensures Mirrors(next[c], h + [x], c) {
      if c != channel { UntouchedMirrors(pending[c], h, x, c); }
    }
    HistorySnoc(h, x, channel);
  }

  /** What ending a channel's step writes, read off its record. */
  function Handed(step: PendingStep, action: Action): seq<Batch> {
    if step.writer.None? then []
    else if action.Commit? then (if step.events == [] then [] else [Batch(step.writer.value, step.events)])
    else if action.Retain? then (if Outputs(step.events) == [] then [] else [Batch(step.writer.value, Outputs(step.events))])
    else []
  }

  lemma HandedIsIssued(step: PendingStep, h: seq<Captured>, x: Captured, channel: Channel)
    requires Mirrors(step, h, channel)
    requires x.action == Commit(channel) || x.action == Retain(channel) || x.action == Discard(channel)
    ensures Issued(h, x) == Handed(step, x.action)
    ensures step.writer.None? <==> step.events == []
  {
    assert Outputs(Views([])) == [];
  }

  lemma IssuingKeepsJournals(journal: map<WriterId, seq<seq<ViewEvent>>>, inFlight: seq<Batch>, h: seq<Captured>, x: Captured)
    requires JournalsMirror(journal, inFlight, Writes(h))
    ensures JournalsMirror(journal, inFlight + Issued(h, x), Writes(h + [x]))
  {
    hide Writes, Issued, BatchesFor, JournalOf;
    HistorySnoc(h, x, Main);
    var writes, issued := Writes(h), Issued(h, x);
    forall w: WriterId ensures JournalOf(journal, w) + BatchesFor(inFlight + issued, w) == BatchesFor(writes + issued, w) {
      BatchesForConcat(inFlight, issued, w);
      BatchesForConcat(writes, issued, w);
      var j, f, i := JournalOf(journal, w), BatchesFor(inFlight, w), BatchesFor(issued, w);
      assert j + (f + i) == (j + f) + i;
    }
  }

  /** The first write in flight for a journal. */
  function FirstFor(inFlight: seq<Batch>, w: WriterId): (i: nat)
    requires BatchesFor(inFlight, w) != []
    ensures i < |inFlight| && inFlight[i].writer == w
    ensures BatchesFor(inFlight[..i], w) == []
  {
    if BatchesFor(inFlight[..|inFlight| - 1], w) != [] then
      var i := FirstFor(inFlight[..|inFlight| - 1], w);
      assert inFlight[..|inFlight| - 1][..i] == inFlight[..i];
      i
    else |inFlight| - 1
  }

  lemma RemovingFirst(inFlight: seq<Batch>, w: WriterId, i: nat, v: WriterId)
    requires i < |inFlight| && inFlight[i].writer == w && BatchesFor(inFlight[..i], w) == []
    ensures BatchesFor(inFlight, v) ==
      (if v == w then [inFlight[i].events] else []) + BatchesFor(inFlight[..i] + inFlight[i + 1..], v)
  {
    hide BatchesFor;
    var one := [inFlight[i]];
    BatchesForOne(inFlight[i], v);
    assert inFlight == inFlight[..i] + (one + inFlight[i + 1..]);
    BatchesForConcat(inFlight[..i], one + inFlight[i + 1..], v);
    BatchesForConcat(one, inFlight[i + 1..], v);
    BatchesForConcat(inFlight[..i], inFlight[i + 1..], v);
  }

  lemma BatchesForOne(batch: Batch, v: WriterId)
    ensures BatchesFor([batch], v) == if batch.writer == v then [batch.events] else []
  {
    assert [batch][..0] == [];
  }

  lemma SettlingKeepsJournals(journal: map<WriterId, seq<seq<ViewEvent>>>, inFlight: seq<Batch>, rest: seq<Batch>, writes: seq<Batch>,
                              w: WriterId, events: seq<ViewEvent>)
    requires JournalsMirror(journal, inFlight, writes)
    requires forall v: WriterId :: BatchesFor(inFlight, v) == (if v == w then [events] else []) + BatchesFor(rest, v)
    ensures JournalsMirror(journal[w := JournalOf(journal, w) + [events]], rest, writes)
  {
    var after := journal[w := JournalOf(journal, w) + [events]];
    forall v: WriterId ensures JournalOf(after, v) + BatchesFor(rest, v) == BatchesFor(writes, v) {
      assert JournalOf(journal, v) + BatchesFor(inFlight, v) == BatchesFor(writes, v);
    }
  }

  function EventsOf(entries: seq<Entry>): seq<ViewEvent> {
    seq(|entries|, i requires 0 <= i < |entries| => entries[i].event)
  }

  function TimestampsOf(entries: seq<Entry>): seq<nat> {
    seq(|entries|, i requires 0 <= i < |entries| => entries[i].timestamp)
  }

  // ----- What one event does to the records -----

  /** What a timeline holds: the records of its channels, the writes in flight and the number of
      merged events it has opened. */
  datatype Held = Held(pending: map<Channel, PendingStep>, inFlight: seq<Batch>, captured: nat)

  /** The step of a channel ends, `handed` of it going to its own writer. */
  function StepEnded(a: Held, c: Channel, handed: seq<ViewEvent>): Held
    requires c in a.pending
  {
    var writer := a.pending[c].writer;
    a.(pending := a.pending[c := EMPTY_STEP],
       inFlight := a.inFlight + if handed != [] && writer.Some? then [Batch(writer.value, handed)] else [])
  }

  /** The channel drafts one more event, and nothing else changes: an event of another writer
      starts the draft afresh, a merged one is shown under its newest time, and any other one
      under the next capture number. */
  ghost predicate DraftGrows(a: Held, b: Held, c: Channel, w: WriterId, view: ViewEvent, at: nat)
    requires c in a.pending && c in b.pending
  {
    var afresh := a.pending[c].writer.Some? && a.pending[c].writer.value != w;
    var before, after := if afresh then EMPTY_STEP else a.pending[c], b.pending[c];
    && b.pending == a.pending[c := after] && b.inFlight == a.inFlight
    && after.writer == Some(w) && after.events == Push(CoalesceViews, before.events, view)
    && if |after.events| > |before.events|
       then b.captured == a.captured + 1 && after.timestamps == before.timestamps + [at] && after.order == before.order + [a.captured + 1]
       else
         && b.captured == a.captured && after.order == before.order
         && after.timestamps == if before.timestamps == [] then [] else before.timestamps[..|before.timestamps| - 1] + [at]
  }

  ghost predicate AllChannels(a: Held) { forall c: Channel :: c in a.pending }

  lemma EveryChannel()
    ensures forall c: Channel :: c in CHANNELS
  {
    forall c: Channel ensures c in CHANNELS {
      match c case Main => case PeerB => case PeerC =>
    }
  }

  lemma BufferedGrows(a: Held, b: Held, c: Channel, w: WriterId, view: ViewEvent, at: nat)
    requires c in a.pending && b.inFlight == a.inFlight
    requires b.pending == a.pending[c := Buffered(a.pending[c], w, view, at, a.captured + 1)]
    requires b.captured == if OpensEvent(a.pending[c], w, view) then a.captured + 1 else a.captured
    ensures DraftGrows(a, b, c, w, view, at)
  {
    hide Push, CoalesceViews;
  }

  /** What a classified input does. */
  ghost predicate ActionDoes(action: Action, w: WriterId, at: nat, a: Held, b: Held)
    requires AllChannels(a) && AllChannels(b)
  {
    match action
    case Commit(c) => b == StepEnded(a, c, a.pending[c].events)
    case Retain(c) => b == StepEnded(a, c, Outputs(a.pending[c].events))
    case Discard(c) => b == StepEnded(a, c, [])
    case DiscardEvery => b == a.(pending := map[Main := EMPTY_STEP, PeerB := EMPTY_STEP, PeerC := EMPTY_STEP])
    case Buffer(c, view) => DraftGrows(a, b, c, w, view, at)
    case Write(view) => b == a.(inFlight := a.inFlight + [Batch(w, [view])])
    case Ignore => b == a
  }

  /** What a raw event does. Steps of the main agent and of the two peers end the same way, each on
      its own channel; what is part of a step is drafted there, other visible facts are written at
      once, and the rest leaves no trace. */
  ghost predicate EventDoes(event: CoreEvent, w: WriterId, at: nat, a: Held, b: Held)
    requires AllChannels(a) && AllChannels(b)
  {
    match event
    case StepCommitted => b == StepEnded(a, Main, a.pending[Main].events)
    case PeerEvent(B, StepCommitted) => b == StepEnded(a, PeerB, a.pending[PeerB].events)
    case PeerEvent(C, StepCommitted) => b == StepEnded(a, PeerC, a.pending[PeerC].events)
    case StepOutputRetained => b == StepEnded(a, Main, Outputs(a.pending[Main].events))
    case PeerEvent(B, StepOutputRetained) => b == StepEnded(a, PeerB, Outputs(a.pending[PeerB].events))
    case PeerEvent(C, StepOutputRetained) => b == StepEnded(a, PeerC, Outputs(a.pending[PeerC].events))
    case StepDiscarded => b == StepEnded(a, Main, [])
    case PeerEvent(B, StepDiscarded) => b == StepEnded(a, PeerB, [])
    case PeerEvent(C, StepDiscarded) => b == StepEnded(a, PeerC, [])
    case AgentStatus(idle, _) =>
      b == if idle then a.(pending := map[Main := EMPTY_STEP, PeerB := EMPTY_STEP, PeerC := EMPTY_STEP]) else a
    case TextDelta(_, _) | ThinkingDelta(_) | ThinkingEnd(_) | ToolStart(_, _) | ToolProgress(_, _) | ToolEnd(_, _, _) =>
      DraftGrows(a, b, Main, w, CoreView(Compact(event)), at)
    case ImageViewed(_) | CheckpointCreated(_) | CheckpointDisabled(_) | TaskPlanUpdated(_) | UserQuestion(_) =>
      DraftGrows(a, b, Main, w, CoreView(event), at)
    case PeerEvent(B, TextDelta(_, _)) | PeerEvent(B, ToolStart(_, _)) | PeerEvent(B, ToolEnd(_, _, _)) =>
      DraftGrows(a, b, PeerB, w, CoreView(Compact(event)), at)
    case PeerEvent(C, TextDelta(_, _)) | PeerEvent(C, ToolStart(_, _)) | PeerEvent(C, ToolEnd(_, _, _)) =>
      DraftGrows(a, b, PeerC, w, CoreView(Compact(event)), at)
    case MessageInjected(payload) => b == a.(inFlight := a.inFlight + [Batch(w, [UserMessage(payload)])])
    case Recorded(_) => b == a.(inFlight := a.inFlight + [Batch(w, [CoreView(event)])])
    case CheckpointRestored(ok, _) => b == if ok then a.(inFlight := a.inFlight + [Batch(w, [CoreView(event)])]) else a
    case Transient(_) | PeerEvent(_, _) => b == a
  }

  lemma ClassifiedDoes(event: CoreEvent, w: WriterId, at: nat, a: Held, b: Held)
    requires AllChannels(a) && AllChannels(b) && ActionDoes(Classify(event), w, at, a, b)
    ensures EventDoes(event, w, at, a, b)
  {
    hide DraftGrows, StepEnded;
  }

  /** A retained step keeps the text of the main agent and of peers, and nothing else of it. */
  lemma OutputsKeepText(views: seq<ViewEvent>, view: ViewEvent)
    ensures Outputs([]) == []
    ensures Outputs(views + [view]) == Outputs(views) + match view {
      case CoreView(TextDelta(_, _)) | CoreView(PeerEvent(_, TextDelta(_, _))) => [view]
      case _ => [] }
  {
    assert (views + [view])[..|views|] == views;
  }

  /** `ViewTimeline`, together with the journals it writes to. A write is in flight until
      its journal, which serves its own writes in order, has recorded or refused it. */
  class ViewTimeline {
    var pending: map<Channel, PendingStep>
    var captureSequence: nat
    var inFlight: seq<Batch>
    var journal: map<WriterId, seq<seq<ViewEvent>>>
    ghost var history: seq<Captured>
    ghost var refused: bool

    ghost predicate Valid()
      reads this
    {
      && pending.Keys == CHANNELS
      && DraftsMirror(pending, captureSequence, history)
      && (!refused ==> JournalsMirror(journal, inFlight, Writes(history)))
    }

    constructor ()
      ensures Valid() && history == [] && !refused && inFlight == [] && journal == map[]
    {
      pending := map[Main := EMPTY_STEP, PeerB := EMPTY_STEP, PeerC := EMPTY_STEP];
      captureSequence, inFlight, journal := 0, [], map[];
      history, refused := [], false;
    }

    ghost function Holding(): (r: Held)
      requires Valid()
      reads this
      ensures AllChannels(r)
    {
      EveryChannel();
      Held(pending, inFlight, captureSequence)
    }

    /** Captures one event for the current journal; without a journal nothing happens. */
    method Capture(writer: Option<WriterId>, event: CoreEvent, occurredAt: nat)
      requires Valid()
      modifies this
      ensures Valid() && refused == old(refused) && journal == old(journal)
      ensures writer.None? ==> history == old(history) && Holding() == old(Holding())
      ensures writer.Some? ==> history == old(history) + [Captured(writer.value, Classify(event), occurredAt)]
      ensures writer.Some? ==> EventDoes(event, writer.value, occurredAt, old(Holding()), Holding())
    {
      hide Valid, EventDoes, ActionDoes;
      if writer.None? { return; }
      CaptureFor(writer.value, event, occurredAt);
      ClassifiedDoes(event, writer.value, occurredAt, old(Holding()), Holding());
    }

    /** The stretch of `capture` for a given journal. */
    method CaptureFor(w: WriterId, event: CoreEvent, occurredAt: nat)
      requires Valid()
      modifies this
      ensures Valid() && refused == old(refused) && journal == old(journal)
      ensures history == old(history) + [Captured(w, Classify(event), occurredAt)]
      ensures ActionDoes(Classify(event), w, occurredAt, old(Holding()), Holding())
    {
      hide Valid, Holding, ActionDoes, CompactView;
      ClassifiedViewsAreCompact(event);
      if event.PeerEvent? {
        var channel := ChannelOf(event.agent);
        if event.event.StepCommitted? {
          CommitStep(channel, w, occurredAt);
        } else if event.event.StepOutputRetained? {
          RetainOutput(channel, w, occurredAt);
        } else if event.event.StepDiscarded? {
          DiscardStep(channel, w, occurredAt);
        } else {
          var viewEvent := ToViewEvent(event);
          if viewEvent.Some? {
            BufferEvent(channel, w, viewEvent.value, occurredAt);
          } else {
            Overlook(w, occurredAt);
          }
        }
        return;
      }
      if event.StepCommitted? {
        CommitStep(Main, w, occurredAt);
        return;
      }
      if event.StepOutputRetained? {
        RetainOutput(Main, w, occurredAt);
        return;
      }
      if event.StepDiscarded? {
        DiscardStep(Main, w, occurredAt);
        return;
      }
      if event.AgentStatus? && event.idle {
        DiscardAll(w, occurredAt);
        return;
      }
      var viewEvent := ToViewEvent(event);
      if viewEvent.None? {
        Overlook(w, occurredAt);
      } else if StepScoped(event) {
        BufferEvent(Main, w, viewEvent.value, occurredAt);
      } else {
        WriteThrough(w, viewEvent.value, occurredAt);
      }
    }

    /** An event the timeline does not show. */
    ghost method Overlook(w: WriterId, at: nat)
      requires Valid()
      modifies this`history
      ensures Valid() && history == old(history) + [Captured(w, Ignore, at)]
      ensures ActionDoes(Ignore, w, at, old(Holding()), Holding())
    {
      hide DraftsMirror, JournalsMirror, Writes;
      var x := Captured(w, Ignore, at);
      PassingMirrors(pending, captureSequence, history, x);
      if !refused {
        IssuingKeepsJournals(journal, inFlight, history, x);
        assert inFlight + [] == inFlight;
      }
      history := history + [x];
    }

    method BufferEvent(channel: Channel, w: WriterId, event: ViewEvent, occurredAt: nat)
      requires Valid() && CompactView(event) == event
      modifies this`pending, this`captureSequence, this`history
      ensures Valid() && history == old(history) + [Captured(w, Buffer(channel, event), occurredAt)]
      ensures ActionDoes(Buffer(channel, event), w, occurredAt, old(Holding()), Holding())
    {
      hide DraftsMirror, JournalsMirror, Writes, CoalesceViews, Push, Draft, Step, Views, DraftGrows;
      ghost var x := Captured(w, Buffer(channel, event), occurredAt);
      Buffering(x, channel);
      var step := pending[channel];
      if step.writer.Some? && step.writer.value != w {
        step := step.(events := [], timestamps := [], order := []);
      }
      step := step.(writer := Some(w));
      var previousLength := |step.events|;
      step := step.(events := Push(CoalesceViews, step.events, CompactView(event)));
      if |step.events| > previousLength {
        step := step.(timestamps := step.timestamps + [occurredAt]);
        captureSequence := captureSequence + 1;
        step := step.(order := step.order + [captureSequence]);
      } else if |step.timestamps| > 0 {
        step := step.(timestamps := step.timestamps[..|step.timestamps| - 1] + [occurredAt]);
      }
      pending := pending[channel := step];
      history := history + [x];
      BufferedGrows(old(Holding()), Holding(), channel, w, event, occurredAt);
    }

    /** A stable event is written at once. */
    method WriteThrough(w: WriterId, event: ViewEvent, ghost at: nat)
      requires Valid()
      modifies this`inFlight, this`history
      ensures Valid() && history == old(history) + [Captured(w, Write(event), at)]
      ensures ActionDoes(Write(event), w, at, old(Holding()), Holding())
    {
      hide DraftsMirror, JournalsMirror, Writes;
      ghost var x := Captured(w, Write(event), at);
      PassingMirrors(pending, captureSequence, history, x);
      if !refused {
        IssuingKeepsJournals(journal, inFlight, history, x);
      }
      RecordViewEvents(w, [event]);
      history := history + [x];
    }

    /** Hands a batch to a journal; the promise it returns stays pending. */
    method RecordViewEvents(w: WriterId, events: seq<ViewEvent>)
      modifies this`inFlight
      ensures inFlight == old(inFlight) + [Batch(w, events)]
    {
      inFlight := inFlight + [Batch(w, events)];
    }

    lemma Ending(x: Captured, channel: Channel)
      requires Valid()
      requires x.action == Commit(channel) || x.action == Retain(channel) || x.action == Discard(channel)
      ensures var step := pending[channel];
        && DraftsMirror(pending[channel := EMPTY_STEP], captureSequence, history + [x])
        && (!refused ==> JournalsMirror(journal, inFlight + Handed(step, x.action), Writes(history + [x])))
        && (step.writer.None? <==> step.events == [])
    {
      hide JournalsMirror, Writes, Shows, Draft, Orders, Captures, Handed;
      EndingMirrors(pending, captureSequence, history, x, channel);
      HandedIsIssued(pending[channel], history, x, channel);
      if !refused {
        IssuingKeepsJournals(journal, inFlight, history, x);
      }
    }

    lemma Buffering(x: Captured, channel: Channel)
      requires Valid() && x.action.Buffer? && x.action.channel == channel
      ensures var step := pending[channel];
        && DraftsMirror(pending[channel := Buffered(step, x.writer, x.action.view, x.occurredAt, captureSequence + 1)],
                        if OpensEvent(step, x.writer, x.action.view) then captureSequence + 1 else captureSequence, history + [x])
        && (!refused ==> JournalsMirror(journal, inFlight, Writes(history + [x])))
    {
      hide DraftsMirror, JournalsMirror, Writes, Buffered, OpensEvent;
      BufferingMirrors(pending, captureSequence, history, x, channel);
      if !refused {
        IssuingKeepsJournals(journal, inFlight, history, x);
        assert inFlight + [] == inFlight;
      }
    }

    method CommitStep(channel: Channel, ghost w: WriterId, ghost at: nat)
      requires Valid()
      modifies this`pending, this`inFlight, this`history
      ensures Valid() && history == old(history) + [Captured(w, Commit(channel), at)]
      ensures ActionDoes(Commit(channel), w, at, old(Holding()), Holding())
    {
      hide DraftsMirror, JournalsMirror, Writes;
      ghost var x := Captured(w, Commit(channel), at);
      Ending(x, channel);
      var step := pending[channel];
      if step.writer.Some? && |step.events| > 0 {
        RecordViewEvents(step.writer.value, step.events);
        step := step.(events := []);
      }
      pending := pending[channel := step.(writer := None, timestamps := [], order := [])];
      assert inFlight == old(inFlight) + Handed(old(pending)[channel], x.action);
      history := history + [x];
    }

    method RetainOutput(channel: Channel, ghost w: WriterId, ghost at: nat)
      requires Valid()
      modifies this`pending, this`inFlight, this`history
      ensures Valid() && history == old(history) + [Captured(w, Retain(channel), at)]
      ensures ActionDoes(Retain(channel), w, at, old(Holding()), Holding())
    {
      hide DraftsMirror, JournalsMirror, Writes;
      ghost var x := Captured(w, Retain(channel), at);
      Ending(x, channel);
      var step := pending[channel];
      var output := Outputs(step.events);
      if step.writer.Some? && |output| > 0 {
        RecordViewEvents(step.writer.value, output);
      }
      Reset(channel);
      assert inFlight == old(inFlight) + Handed(old(pending)[channel], x.action);
      history := history + [x];
    }

    method DiscardStep(channel: Channel, ghost w: WriterId, ghost at: nat)
      requires Valid()
      modifies this`pending, this`history
      ensures Valid() && history == old(history) + [Captured(w, Discard(channel), at)]
      ensures ActionDoes(Discard(channel), w, at, old(Holding()), Holding())
    {
      hide DraftsMirror, JournalsMirror, Writes;
      ghost var x := Captured(w, Discard(channel), at);
      Ending(x, channel);
      Reset(channel);
      assert inFlight == inFlight + Handed(old(pending)[channel], x.action);
      history := history + [x];
    }

    method Reset(channel: Channel)
      modifies this`pending
      ensures pending == old(pending)[channel := EMPTY_STEP]
    {
      pending := pending[channel := EMPTY_STEP];
    }

    method DiscardAll(ghost w: WriterId, ghost at: nat)
      requires Valid()
      modifies this`pending, this`history
      ensures Valid() && history == old(history) + [Captured(w, DiscardEvery, at)]
      ensures ActionDoes(DiscardEvery, w, at, old(Holding()), Holding())
    {
      hide DraftsMirror, JournalsMirror, Writes;
      ghost var x := Captured(w, DiscardEvery, at);
      EndingAllMirrors(pending, captureSequence, history, x);
      if !refused {
        IssuingKeepsJournals(journal, inFlight, history, x);
        assert inFlight + [] == inFlight;
      }
      Reset(Main);
      Reset(PeerB);
      Reset(PeerC);
      assert pending == map[Main := EMPTY_STEP, PeerB := EMPTY_STEP, PeerC := EMPTY_STEP];
      history := history + [x];
    }

    /** A journal settles the oldest write it was handed. */
    method WriteSettled(w: WriterId, ok: bool)
      requires Valid() && BatchesFor(inFlight, w) != []
      modifies this`inFlight, this`journal, this`refused
      ensures Valid() && refused == (old(refused) || !ok)
      ensures var first := BatchesFor(old(inFlight), w)[0];
        && BatchesFor(inFlight, w) == BatchesFor(old(inFlight), w)[1..]
        && (forall v: WriterId :: v != w ==> BatchesFor(inFlight, v) == BatchesFor(old(inFlight), v))
        && journal == if ok then old(journal)[w := JournalOf(old(journal), w) + [first]] else old(journal)
    {
      var i := FirstFor(inFlight, w);
      var batch := inFlight[i];
      var rest := inFlight[..i] + inFlight[i + 1..];
      forall v: WriterId
        ensures BatchesFor(inFlight, v) == (if v == w then [batch.events] else []) + BatchesFor(rest, v)
      {
        RemovingFirst(inFlight, w, i, v);
      }
      if ok {
        if !refused {
          SettlingKeepsJournals(journal, inFlight, rest, Writes(history), w, batch.events);
        }
        journal := journal[w := JournalOf(journal, w) + [batch.events]];
      } else {
        refused := true;
      }
      inFlight := rest;
    }

    method PendingSnapshot(w: WriterId) returns (events: seq<ViewEvent>, timestamps: seq<nat>)
      requires Valid()
      ensures events == EventsOf(SnapshotOf(history, w)) && timestamps == TimestampsOf(SnapshotOf(history, w))
    {
      var main := ChannelEntries(Main, w);
      var b := ChannelEntries(PeerB, w);
      var c := ChannelEntries(PeerC, w);
      var sorted := SortByOrder(main + b + c);
      events, timestamps := EventsOf(sorted), TimestampsOf(sorted);
    }

    method ChannelEntries(channel: Channel, w: WriterId) returns (entries: seq<Entry>)
      requires Valid()
      ensures entries == DraftEntries(history, channel, w)
    {
      NumbersAligned(history, channel);
      var step := pending[channel];
      if step.writer != Some(w) { return []; }
      entries := EntriesOf(step.events, step.timestamps, step.order);
    }

    /** The loop head of `flush`: it ends when no write is in flight at that moment. */
    method FlushTurn() returns (idle: bool)
      ensures idle <==> inFlight == []
    {
      idle := |inFlight| == 0;
    }

    /** The last synchronous stretch of `conversationAt`, with the number of events its projection
        has reached: it proceeds only when no write is in flight and the projection is up to
        date, so the copy holds every committed batch and every draft. */
    method ConversationCopy(w: WriterId, projected: nat)
      returns (ready: bool, committed: seq<seq<ViewEvent>>, events: seq<ViewEvent>, timestamps: seq<nat>)
      requires Valid()
      ensures ready <==> inFlight == [] && projected >= |Flatten(JournalOf(journal, w))|
      ensures ready ==> projected >= |Flatten(committed)|
      ensures ready && !refused ==> committed == BatchesFor(Writes(history), w)
      ensures ready ==> events == EventsOf(SnapshotOf(history, w)) && timestamps == TimestampsOf(SnapshotOf(history, w))
    {
      if |inFlight| > 0 || projected < |Flatten(JournalOf(journal, w))| { return false, [], [], []; }
      committed := JournalOf(journal, w);
      events, timestamps := PendingSnapshot(w);
      ready := true;
    }

    /** The last synchronous stretch of `snapshotAt`, which does not look again: the copy
        lacks exactly the batches then in flight. */
    method SnapshotCopy(w: WriterId) returns (committed: seq<seq<ViewEvent>>, events: seq<ViewEvent>, timestamps: seq<nat>)
      requires Valid()
      ensures !refused ==> committed + BatchesFor(inFlight, w) == BatchesFor(Writes(history), w)
      ensures !refused ==> (committed == BatchesFor(Writes(history), w) <==> BatchesFor(inFlight, w) == [])
      ensures events == EventsOf(SnapshotOf(history, w)) && timestamps == TimestampsOf(SnapshotOf(history, w))
    {
      committed := JournalOf(journal, w);
      events, timestamps := PendingSnapshot(w);
    }
  }

  /** The copy of `snapshotAt` does miss a write: the loop of `flush` ends with nothing in flight,
      an event is captured before the stretch that follows, and the copy is taken without it. */
  method LateWriteIsMissed(w: WriterId) returns (idle: bool, copied: seq<seq<ViewEvent>>, missing: seq<seq<ViewEvent>>)
    ensures idle && copied == [] && missing == [[CoreView(Recorded(0))]]
  {
    var timeline := new ViewTimeline();
    idle := timeline.FlushTurn();
    timeline.Capture(Some(w), Recorded(0), 0);
    var events, timestamps;
    copied, events, timestamps := timeline.SnapshotCopy(w);
    missing := BatchesFor(timeline.inFlight, w);
    OneWrite(w);
  }

  lemma OneWrite(w: WriterId)
    ensures var h := [] + [Captured(w, Classify(Recorded(0)), 0)];
      Writes(h) == [Batch(w, [CoreView(Recorded(0))])] && BatchesFor(Writes(h), w) == [[CoreView(Recorded(0))]]
  {
    hide Draft, Orders, Captures, OpensAny, Step;
    var x := Captured(w, Classify(Recorded(0)), 0);
    HistorySnoc([], x, Main);
    assert Issued([], x) == [Batch(w, [CoreView(Recorded(0))])];
    assert Writes([] + [x]) == [] + Issued([], x);
    BatchesForOne(Batch(w, [CoreView(Recorded(0))]), w);
  }
}
