/** What the timeline's transactions promise, over whole histories of captures. */
module StepTransactions {
  import opened Options
  import opened Utf16
  import opened CoreEvents
  import opened ProgressRuns
  import opened Runs
  import opened Timeline

  // ----- Discarded steps leave no trace -----

  predicate NoEnd(inputs: seq<Captured>, c: Channel) {
    forall i :: 0 <= i < |inputs| ==> !Ends(inputs[i].action, c)
  }

  predicate BuffersInto(input: Captured, c: Channel) {
    input.action.Buffer? && input.action.channel == c
  }

  /** The inputs without those that draft into channel `c`. */
  function Erase(inputs: seq<Captured>, c: Channel): seq<Captured> {
    if inputs == [] then []
    else
      var last := inputs[|inputs| - 1];
      Erase(inputs[..|inputs| - 1], c) + (if BuffersInto(last, c) then [] else [last])
  }

  ghost predicate SameDraft(h: seq<Captured>, k: seq<Captured>, c: Channel) { Draft(h, c) == Draft(k, c) }

  /** Capture numbers may differ, but they order the merged events of two channels alike. */
  ghost predicate SameCaptureOrder(h: seq<Captured>, k: seq<Captured>, c: Channel, d: Channel) {
    SameOrder(Orders(h, c), Orders(h, d), Orders(k, c), Orders(k, d))
  }

  /** Two histories no writer and no later input can tell apart, channel `except` aside. */
  ghost predicate SameButFor(h: seq<Captured>, k: seq<Captured>, except: Option<Channel>) {
    && Writes(h) == Writes(k)
    && (forall c: Channel :: Some(c) != except ==> SameDraft(h, k, c))
    && (forall c: Channel, d: Channel :: Some(c) != except && Some(d) != except ==> SameCaptureOrder(h, k, c, d))
  }

  lemma SameCaptureOrderAfterOne(h: seq<Captured>, k: seq<Captured>, x: Captured, c: Channel, d: Channel)
    requires SameDraft(h, k, c) && SameDraft(h, k, d) && SameCaptureOrder(h, k, c, d)
    ensures SameCaptureOrder(h + [x], k + [x], c, d)
  {
    hide Draft, Orders, Captures, ChangeOf, Renumber, SameOrder, Below;
    HistorySnoc(h, x, c);
    HistorySnoc(h, x, d);
    HistorySnoc(k, x, c);
    HistorySnoc(k, x, d);
    NumbersBelow(h, c);
    NumbersBelow(h, d);
    NumbersBelow(k, c);
    NumbersBelow(k, d);
    RenumberKeepsOrder(Orders(h, c), Orders(h, d), Orders(k, c), Orders(k, d),
                       ChangeOf(Draft(h, c), x, c), ChangeOf(Draft(h, d), x, d), Captures(h) + 1, Captures(k) + 1);
  }

  lemma SameDraftAfterOne(h: seq<Captured>, k: seq<Captured>, x: Captured, c: Channel)
    requires SameDraft(h, k, c)
    ensures SameDraft(h + [x], k + [x], c)
  {
    HistorySnoc(h, x, c);
    HistorySnoc(k, x, c);
  }

  lemma SameAfterOne(h: seq<Captured>, k: seq<Captured>, x: Captured, except: Option<Channel>)
    requires SameButFor(h, k, except)
    requires except.Some? ==> !Ends(x.action, except.value) && !BuffersInto(x, except.value)
    ensures SameButFor(h + [x], k + [x], except)
  {
    hide Draft, Writes, SameDraft, SameCaptureOrder;
    forall c: Channel | Some(c) != except ensures SameDraft(h + [x], k + [x], c) {
      SameDraftAfterOne(h, k, x, c);
    }
    forall c: Channel, d: Channel | Some(c) != except && Some(d) != except ensures SameCaptureOrder(h + [x], k + [x], c, d) {
      SameCaptureOrderAfterOne(h, k, x, c, d);
    }
    IssuedAlike(h, k, x, except);
    HistorySnoc(h, x, Main);
    HistorySnoc(k, x, Main);
  }

  lemma IssuedAlike(h: seq<Captured>, k: seq<Captured>, x: Captured, except: Option<Channel>)
    requires forall c: Channel :: Some(c) != except ==> SameDraft(h, k, c)
    requires except.Some? ==> x.action != Commit(except.value) && x.action != Retain(except.value)
    ensures Issued(h, x) == Issued(k, x)
  {
    hide Draft;
    if x.action.Commit? || x.action.Retain? { assert SameDraft(h, k, x.action.channel); }
  }

  lemma {:induction false} SameAfterAll(h: seq<Captured>, k: seq<Captured>, post: seq<Captured>)
    requires SameButFor(h, k, None)
    ensures SameButFor(h + post, k + post, None)
  {
    hide SameButFor;
    if post == [] {
      assert h + post == h && k + post == k;
    } else {
      var init, x := post[..|post| - 1], post[|post| - 1];
      SameAfterAll(h, k, init);
      SameAfterOne(h + init, k + init, x, None);
      assert h + init + [x] == h + post && k + init + [x] == k + post;
    }
  }

  lemma UntouchedBy(h: seq<Captured>, x: Captured, c: Channel)
    requires !Ends(x.action, c) && !BuffersInto(x, c)
    ensures Draft(h + [x], c) == Draft(h, c) && Orders(h + [x], c) == Orders(h, c)
  {
    HistorySnoc(h, x, c);
  }

  lemma DraftingIsSilent(h: seq<Captured>, x: Captured, c: Channel)
    requires BuffersInto(x, c)
    ensures SameButFor(h + [x], h, Some(c))
  {
    hide Draft, Orders, Writes;
    forall d: Channel | d != c ensures Draft(h + [x], d) == Draft(h, d) && Orders(h + [x], d) == Orders(h, d) {
      UntouchedBy(h, x, d);
    }
    HistorySnoc(h, x, Main);
  }

  lemma SameTrans(h: seq<Captured>, k: seq<Captured>, l: seq<Captured>, except: Option<Channel>)
    requires SameButFor(h, k, except) && SameButFor(k, l, except)
    ensures SameButFor(h, l, except)
  {
    hide Draft, Orders, Writes;
    forall c: Channel, d: Channel | Some(c) != except && Some(d) != except ensures SameCaptureOrder(h, l, c, d) {
      assert SameCaptureOrder(h, k, c, d) && SameCaptureOrder(k, l, c, d);
    }
    forall c: Channel | Some(c) != except ensures SameDraft(h, l, c) {
      assert SameDraft(h, k, c) && SameDraft(k, l, c);
    }
  }

  lemma SameAsItself(h: seq<Captured>, except: Option<Channel>)
    ensures SameButFor(h, h, except)
  {}

  lemma {:induction false} DraftsAreInvisible(pre: seq<Captured>, mid: seq<Captured>, c: Channel)
    requires NoEnd(mid, c)
    ensures SameButFor(pre + mid, pre + Erase(mid, c), Some(c))
  {
    hide Draft, Writes, SameButFor;
    if mid == [] {
      assert pre + mid == pre && pre + Erase(mid, c) == pre;
      SameAsItself(pre, Some(c));
    } else {
      var init, x := mid[..|mid| - 1], mid[|mid| - 1];
      assert NoEnd(init, c);
      DraftsAreInvisible(pre, init, c);
      assert pre + mid == pre + init + [x];
      if BuffersInto(x, c) {
        DraftingIsSilent(pre + init, x, c);
        assert Erase(mid, c) == Erase(init, c);
        SameTrans(pre + mid, pre + init, pre + Erase(mid, c), Some(c));
      } else {
        SameAfterOne(pre + init, pre + Erase(init, c), x, Some(c));
        assert pre + Erase(mid, c) == pre + Erase(init, c) + [x];
      }
    }
  }

  lemma EndedBy(h: seq<Captured>, x: Captured, c: Channel)
    requires Ends(x.action, c)
    ensures Draft(h + [x], c) == [] && Orders(h + [x], c) == []
  {
    HistorySnoc(h, x, c);
  }

  lemma EndingForgets(h: seq<Captured>, k: seq<Captured>, x: Captured, c: Channel)
    requires SameButFor(h, k, Some(c))
    requires x.action == Discard(c) || x.action == DiscardEvery
    ensures SameButFor(h + [x], k + [x], None)
  {
    EndedBy(h, x, c);
    EndedBy(k, x, c);
    hide Draft, Orders, Writes, Ends;
    forall d: Channel ensures SameDraft(h + [x], k + [x], d) {
      if d != c { SameDraftAfterOne(h, k, x, d); }
    }
    forall d: Channel, e: Channel ensures SameCaptureOrder(h + [x], k + [x], d, e) {
      EndingKeepsOrder(h, k, x, c, d, e);
    }
    HistorySnoc(h, x, Main);
    HistorySnoc(k, x, Main);
  }

  lemma EndingKeepsOrder(h: seq<Captured>, k: seq<Captured>, x: Captured, c: Channel, d: Channel, e: Channel)
    requires SameButFor(h, k, Some(c))
    requires Orders(h + [x], c) == [] && Orders(k + [x], c) == []
    ensures SameCaptureOrder(h + [x], k + [x], d, e)
  {
    hide Draft, Orders, Writes, SameDraft;
    if d != c && e != c {
      hide SameCaptureOrder;
      SameCaptureOrderAfterOne(h, k, x, d, e);
    } else {
      var f := if d == c then e else d;
      if f != c { assert SameCaptureOrder(h, k, f, f); SameCaptureOrderAfterOne(h, k, x, f, f); }
    }
  }

  /** A step that ends in a discard might never have been drafted: every write, every draft that
      later inputs find, and every later snapshot is the same without it. */
  lemma DiscardedStepLeavesNoTrace(pre: seq<Captured>, step: seq<Captured>, discard: Captured, post: seq<Captured>, c: Channel, w: WriterId)
    requires NoEnd(step, c)
    requires discard.action == Discard(c) || discard.action == DiscardEvery
    ensures var (with, without) := (pre + step + [discard] + post, pre + Erase(step, c) + [discard] + post);
      && SameButFor(with, without, None)
      && EventsOf(SnapshotOf(with, w)) == EventsOf(SnapshotOf(without, w))
      && TimestampsOf(SnapshotOf(with, w)) == TimestampsOf(SnapshotOf(without, w))
  {
    hide Draft, Writes, Erase, SameButFor, SnapshotOf, EventsOf, TimestampsOf;
    DraftsAreInvisible(pre, step, c);
    EndingForgets(pre + step, pre + Erase(step, c), discard, c);
    SameAfterAll(pre + step + [discard], pre + Erase(step, c) + [discard], post);
    SnapshotsAgree(pre + step + [discard] + post, pre + Erase(step, c) + [discard] + post, w);
  }

  // ----- Snapshots depend on the order of captures alone -----

  /** The same merged event in two histories, which may have numbered it differently. */
  datatype Pair = Pair(left: Entry, right: Entry)

  function Zip(left: seq<Entry>, right: seq<Entry>): (r: seq<Pair>)
    requires |left| == |right|
    ensures |r| == |left| && forall i :: 0 <= i < |r| ==> r[i] == Pair(left[i], right[i])
  {
    seq(|left|, i requires 0 <= i < |left| => Pair(left[i], right[i]))
  }

  function Lefts(pairs: seq<Pair>): (r: seq<Entry>)
    ensures |r| == |pairs| && forall i :: 0 <= i < |r| ==> r[i] == pairs[i].left
  {
    seq(|pairs|, i requires 0 <= i < |pairs| => pairs[i].left)
  }

  function Rights(pairs: seq<Pair>): (r: seq<Entry>)
    ensures |r| == |pairs| && forall i :: 0 <= i < |r| ==> r[i] == pairs[i].right
  {
    seq(|pairs|, i requires 0 <= i < |pairs| => pairs[i].right)
  }

  predicate OrderedAlike(p: Pair, q: Pair) { p.left.order < q.left.order <==> p.right.order < q.right.order }

  ghost predicate AllAlike(ps: seq<Pair>, qs: seq<Pair>) { forall p <- ps, q <- qs :: OrderedAlike(p, q) && OrderedAlike(q, p) }

  ghost predicate SameShown(pairs: seq<Pair>) {
    forall p <- pairs :: p.left.event == p.right.event && p.left.timestamp == p.right.timestamp
  }

  function InsertPair(p: Pair, sorted: seq<Pair>): seq<Pair> {
    if sorted == [] || p.left.order <= sorted[0].left.order then [p] + sorted
    else [sorted[0]] + InsertPair(p, sorted[1..])
  }

  function SortPairs(pairs: seq<Pair>): seq<Pair> {
    if pairs == [] then [] else InsertPair(pairs[0], SortPairs(pairs[1..]))
  }

  lemma {:induction false} InsertsBoth(p: Pair, sorted: seq<Pair>)
    requires forall q <- sorted :: OrderedAlike(q, p)
    ensures Lefts(InsertPair(p, sorted)) == InsertByOrder(p.left, Lefts(sorted))
    ensures Rights(InsertPair(p, sorted)) == InsertByOrder(p.right, Rights(sorted))
    ensures forall q <- InsertPair(p, sorted) :: q == p || q in sorted
  {
    assert sorted != [] ==> OrderedAlike(sorted[0], p);
    if !(sorted == [] || p.left.order <= sorted[0].left.order) {
      InsertsBoth(p, sorted[1..]);
      assert Lefts(sorted)[1..] == Lefts(sorted[1..]) && Rights(sorted)[1..] == Rights(sorted[1..]);
    }
  }

  lemma {:induction false} SortsBoth(pairs: seq<Pair>)
    requires AllAlike(pairs, pairs)
    ensures Lefts(SortPairs(pairs)) == SortByOrder(Lefts(pairs))
    ensures Rights(SortPairs(pairs)) == SortByOrder(Rights(pairs))
    ensures forall q <- SortPairs(pairs) :: q in pairs
  {
    if pairs != [] {
      hide OrderedAlike, InsertPair, InsertByOrder;
      var rest := pairs[1..];
      SortsBoth(rest);
      assert forall q <- SortPairs(rest) :: q in pairs;
      InsertsBoth(pairs[0], SortPairs(rest));
      assert Lefts(pairs)[1..] == Lefts(rest) && Rights(pairs)[1..] == Rights(rest);
    }
  }

  /** Pairs of merged events of one channel, with the numbers two histories gave them. */
  ghost predicate Numbered(pairs: seq<Pair>, h: seq<Captured>, k: seq<Captured>, c: Channel) {
    && |pairs| <= |Orders(h, c)| && |pairs| <= |Orders(k, c)|
    && forall i :: 0 <= i < |pairs| ==> pairs[i].left.order == Orders(h, c)[i] && pairs[i].right.order == Orders(k, c)[i]
  }

  lemma ChannelPairs(h: seq<Captured>, k: seq<Captured>, c: Channel, w: WriterId) returns (pairs: seq<Pair>)
    requires SameDraft(h, k, c)
    ensures Lefts(pairs) == DraftEntries(h, c, w) && Rights(pairs) == DraftEntries(k, c, w)
    ensures SameShown(pairs) && Numbered(pairs, h, k, c)
  {
    hide Draft, Step, Orders;
    NumbersAligned(h, c);
    NumbersAligned(k, c);
    pairs := Zip(DraftEntries(h, c, w), DraftEntries(k, c, w));
  }

  lemma ChannelsAlike(h: seq<Captured>, k: seq<Captured>, ps: seq<Pair>, qs: seq<Pair>, c: Channel, d: Channel)
    requires SameCaptureOrder(h, k, c, d) && SameCaptureOrder(h, k, d, c)
    requires Numbered(ps, h, k, c) && Numbered(qs, h, k, d)
    ensures AllAlike(ps, qs)
  {
    hide Orders;
  }

  lemma AlikeUnion(ps: seq<Pair>, qs: seq<Pair>)
    requires AllAlike(ps, ps) && AllAlike(ps, qs) && AllAlike(qs, qs)
    ensures AllAlike(ps + qs, ps + qs)
  {
    hide OrderedAlike;
  }

  lemma AlikeConcat(ps: seq<Pair>, qs: seq<Pair>, rs: seq<Pair>)
    requires AllAlike(ps, rs) && AllAlike(qs, rs)
    ensures AllAlike(ps + qs, rs)
  {
    hide OrderedAlike;
  }

  lemma SnapshotsAgree(h: seq<Captured>, k: seq<Captured>, w: WriterId)
    requires SameButFor(h, k, None)
    ensures EventsOf(SnapshotOf(h, w)) == EventsOf(SnapshotOf(k, w))
    ensures TimestampsOf(SnapshotOf(h, w)) == TimestampsOf(SnapshotOf(k, w))
  {
    hide DraftEntries, Writes, OrderedAlike, AllAlike, Numbered, SortByOrder, SortPairs, SameDraft, SameCaptureOrder;
    var ps := ChannelPairs(h, k, Main, w);
    var qs := ChannelPairs(h, k, PeerB, w);
    var rs := ChannelPairs(h, k, PeerC, w);
    ChannelsAlike(h, k, ps, ps, Main, Main);
    ChannelsAlike(h, k, ps, qs, Main, PeerB);
    ChannelsAlike(h, k, ps, rs, Main, PeerC);
    ChannelsAlike(h, k, qs, qs, PeerB, PeerB);
    ChannelsAlike(h, k, qs, rs, PeerB, PeerC);
    ChannelsAlike(h, k, rs, rs, PeerC, PeerC);
    AlikeUnion(ps, qs);
    AlikeConcat(ps, qs, rs);
    AlikeUnion(ps + qs, rs);
    var all := ps + qs + rs;
    assert Lefts(all) == AllEntries(h, w) && Rights(all) == AllEntries(k, w);
    SortsBoth(all);
    SortedShown(all);
  }

  lemma SortedShown(pairs: seq<Pair>)
    requires SameShown(pairs) && AllAlike(pairs, pairs)
    ensures EventsOf(SortByOrder(Lefts(pairs))) == EventsOf(SortByOrder(Rights(pairs)))
    ensures TimestampsOf(SortByOrder(Lefts(pairs))) == TimestampsOf(SortByOrder(Rights(pairs)))
  {
    hide OrderedAlike, AllAlike, SortByOrder, SortPairs;
    SortsBoth(pairs);
    var sorted := SortPairs(pairs);
    assert forall i :: 0 <= i < |sorted| ==> sorted[i] in pairs;
  }

  // ----- Committed steps arrive whole -----

  /** The items a stretch of inputs drafts into channel `c`. */
  function Drafted(inputs: seq<Captured>, c: Channel): seq<Item> {
    if inputs == [] then []
    else
      var last := inputs[|inputs| - 1];
      Drafted(inputs[..|inputs| - 1], c)
        + (if BuffersInto(last, c) then [Item(last.writer, last.action.view, last.occurredAt)] else [])
  }

  lemma DraftedSnoc(inputs: seq<Captured>, x: Captured, c: Channel)
    ensures Drafted(inputs + [x], c) == Drafted(inputs, c)
      + (if BuffersInto(x, c) then [Item(x.writer, x.action.view, x.occurredAt)] else [])
  {
    assert (inputs + [x])[..|inputs|] == inputs;
  }

  /** Everything drafted into channel `c` is drafted for writer `w`. */
  predicate OwnedBy(inputs: seq<Captured>, c: Channel, w: WriterId) {
    forall i :: 0 <= i < |inputs| && BuffersInto(inputs[i], c) ==> inputs[i].writer == w
  }

  predicate StartsWith(draft: seq<Item>, w: WriterId) { draft != [] ==> draft[0].writer == w }

  lemma DraftExtends(draft: seq<Item>, x: Captured, c: Channel, w: WriterId)
    requires StartsWith(draft, w) && !Ends(x.action, c)
    requires BuffersInto(x, c) ==> x.writer == w
    ensures NextDraft(draft, x, c) == draft + (if BuffersInto(x, c) then [Item(x.writer, x.action.view, x.occurredAt)] else [])
    ensures StartsWith(NextDraft(draft, x, c), w)
  {}

  lemma LastInput(pre: seq<Captured>, step: seq<Captured>, c: Channel, w: WriterId)
    requires step != [] && NoEnd(step, c) && OwnedBy(step, c, w)
    ensures var init, x := step[..|step| - 1], step[|step| - 1];
      && step == init + [x] && pre + step == pre + init + [x]
      && NoEnd(init, c) && OwnedBy(init, c, w)
      && !Ends(x.action, c) && (BuffersInto(x, c) ==> x.writer == w)
  {
    hide Ends, BuffersInto;
  }

  lemma {:induction false} DraftCollects(pre: seq<Captured>, step: seq<Captured>, c: Channel, w: WriterId)
    requires Draft(pre, c) == [] && NoEnd(step, c) && OwnedBy(step, c, w)
    ensures Draft(pre + step, c) == Drafted(step, c)
    ensures StartsWith(Drafted(step, c), w)
  {
    if step == [] {
      assert pre + step == pre;
    } else {
      hide Draft, Drafted, NextDraft, StartsWith, Ends, BuffersInto, NoEnd, OwnedBy;
      var init, x := step[..|step| - 1], step[|step| - 1];
      LastInput(pre, step, c, w);
      DraftCollects(pre, init, c, w);
      HistorySnoc(pre + init, x, c);
      DraftedSnoc(init, x, c);
      DraftExtends(Draft(pre + init, c), x, c, w);
    }
  }

  /** A committed step is written as one batch that holds all it drafted, merged by stream;
      a step that drafted nothing writes nothing. Other channels may do anything meanwhile. */
  lemma CommittedStepIsWhole(pre: seq<Captured>, step: seq<Captured>, commit: Captured, c: Channel, w: WriterId)
    requires Draft(pre, c) == [] && NoEnd(step, c) && OwnedBy(step, c, w)
    requires commit.action == Commit(c)
    ensures Writes(pre + step + [commit]) == Writes(pre + step)
      + (if Drafted(step, c) == [] then [] else [Batch(w, Views(Group(CombineItems, Drafted(step, c))))])
    ensures Draft(pre + step + [commit], c) == []
  {
    DraftCollects(pre, step, c, w);
    HistorySnoc(pre + step, commit, c);
  }

  // ----- Merging keeps the content -----

  datatype Letter =
    | Letter(stream: Stream, unit: Unit)
    | Fact(view: ViewEvent)

  /** Streams unit by unit, all else whole; a tool's bounded output is accounted for apart. */
  function LettersOf(view: ViewEvent): seq<Letter> {
    if view.CoreView? && StreamOf(view.event).Some? then
      seq(|TextOf(view.event)|, i requires 0 <= i < |TextOf(view.event)| => Letter(StreamOf(view.event).value, TextOf(view.event)[i]))
    else [Fact(view)]
  }

  function ItemLetters(item: Item): seq<Letter> { LettersOf(item.view) }

  function OutputLetters(view: ViewEvent): seq<Letter> { if IsOutput(view) then LettersOf(view) else [] }

  function ItemOutput(item: Item): seq<Letter> { OutputLetters(item.view) }

  lemma ItemsConcatenate()
    ensures Concatenates(CombineItems, ItemLetters) && Concatenates(CombineItems, ItemOutput)
  {
    forall a, b | CombineItems(a, b).Some?
      ensures ItemLetters(CombineItems(a, b).value) == ItemLetters(a) + ItemLetters(b)
      ensures ItemOutput(CombineItems(a, b).value) == ItemOutput(a) + ItemOutput(b)
    {
      CombiningConcatenates(a, b);
    }
  }

  lemma CombiningConcatenates(a: Item, b: Item)
    requires CombineItems(a, b).Some?
    ensures ItemLetters(CombineItems(a, b).value) == ItemLetters(a) + ItemLetters(b)
    ensures ItemOutput(CombineItems(a, b).value) == ItemOutput(a) + ItemOutput(b)
  {
    CoalesceIsPerStream(a.view.event, b.view.event);
    assert IsOutput(CombineItems(a, b).value.view) == IsOutput(a.view) == IsOutput(b.view);
    hide Coalesce;
  }

  /** What a committed batch shows is what was drafted: each fact once, each stream's text
      in full, all in order. */
  lemma CommittedContent(draft: seq<Item>)
    ensures FlatMap(LettersOf, Views(Step(draft))) == FlatMap(LettersOf, Views(draft))
  {
    ItemsConcatenate();
    GroupKeepsContent(CombineItems, ItemLetters, draft);
    assert Contents(LettersOf, Views(Step(draft))) == Contents(ItemLetters, Step(draft));
    assert Contents(LettersOf, Views(draft)) == Contents(ItemLetters, draft);
  }

  function ViewProgress(view: ViewEvent): Option<Progress> { if view.CoreView? then ProgressOf(view.event) else None }

  function ItemProgress(item: Item): Option<Progress> { ViewProgress(item.view) }

  function ViewProgresses(views: seq<ViewEvent>): (r: seq<Option<Progress>>)
    ensures |r| == |views| && forall i :: 0 <= i < |r| ==> r[i] == ViewProgress(views[i])
  {
    seq(|views|, i requires 0 <= i < |views| => ViewProgress(views[i]))
  }

  predicate ItemsLinked(a: Item, b: Item) { a.view.CoreView? && b.view.CoreView? && SameStream(a.view.event, b.view.event) }

  lemma ItemsAreLawful()
    ensures Lawful(CombineItems, ItemsLinked) && Appends(CombineItems, ItemsLinked, ItemProgress)
  {
    forall a, b
      ensures CombineItems(a, b).Some? <==> ItemsLinked(a, b)
      ensures ItemsLinked(a, b) ==> SameTool(ItemProgress(a), ItemProgress(b))
      ensures CombineItems(a, b).Some? ==>
        ItemProgress(CombineItems(a, b).value) == Joined(ItemProgress(a), ItemProgress(b))
        && forall c :: ItemsLinked(CombineItems(a, b).value, c) <==> ItemsLinked(b, c)
    {
      ItemPair(a, b);
    }
  }

  lemma ItemPair(a: Item, b: Item)
    ensures CombineItems(a, b).Some? <==> ItemsLinked(a, b)
    ensures ItemsLinked(a, b) ==> SameTool(ItemProgress(a), ItemProgress(b))
    ensures CombineItems(a, b).Some? ==> ItemProgress(CombineItems(a, b).value) == Joined(ItemProgress(a), ItemProgress(b))
    ensures CombineItems(a, b).Some? ==> forall c :: ItemsLinked(CombineItems(a, b).value, c) <==> ItemsLinked(b, c)
  {
    if a.view.CoreView? && b.view.CoreView? {
      CoalesceIsPerStream(a.view.event, b.view.event);
      ProgressIsAppended(a.view.event, b.view.event);
    }
    hide Coalesce;
  }

  /** What was drafted, as it was before compaction. */
  ghost predicate Compacted(draft: seq<Item>, views: seq<ViewEvent>) {
    |views| == |draft| && forall i :: 0 <= i < |draft| ==> draft[i].view == CompactView(views[i])
  }

  lemma DraftIsFromRaw(draft: seq<Item>, views: seq<ViewEvent>)
    requires Compacted(draft, views)
    ensures FromRaw(ItemProgress, draft, ViewProgresses(views))
  {
    forall i | 0 <= i < |draft| ensures ItemProgress(draft[i]) == Shortened(ViewProgresses(views)[i]) {
      if views[i].CoreView? { ProgressIsAppended(views[i].event, views[i].event); }
    }
  }

  /** The tool output of a draft, and so of the batch a commit hands over: for every maximal run
      of one tool's progress one event with the bounded tail of the raw outputs, and no other
      progress. */
  lemma CommittedOutput(draft: seq<Item>, views: seq<ViewEvent>) returns (runs: seq<seq<Item>>)
    requires Compacted(draft, views)
    ensures MaximalRuns(ItemsLinked, draft, runs) && Step(draft) == MergeAll(CombineItems, runs)
    ensures ShowsRuns(ItemProgress, runs, ViewProgresses(views), Step(draft))
  {
    ItemsAreLawful();
    DraftIsFromRaw(draft, views);
    hide Lawful, Appends, CompactView, Shortened, ItemProgress, ViewProgresses;
    runs := GroupShowsOutput(CombineItems, ItemsLinked, ItemProgress, draft, ViewProgresses(views));
  }

  lemma {:induction false} OutputsKeepLetters(views: seq<ViewEvent>)
    ensures FlatMap(LettersOf, Outputs(views)) == FlatMap(OutputLetters, views)
    ensures forall i :: 0 <= i < |Outputs(views)| ==> IsOutput(Outputs(views)[i])
  {
    if views != [] {
      var init, last := views[..|views| - 1], views[|views| - 1];
      OutputsKeepLetters(init);
      FlatMapSnoc(OutputLetters, init, last);
      assert init + [last] == views;
      if IsOutput(last) {
        FlatMapSnoc(LettersOf, Outputs(init), last);
      } else {
        assert Outputs(init) + [] == Outputs(init);
      }
    }
  }

  /** What a retained step keeps is output text only, and all of the drafted output text. */
  lemma RetainedContent(draft: seq<Item>)
    ensures var kept := Outputs(Views(Step(draft)));
      && (forall i :: 0 <= i < |kept| ==> IsOutput(kept[i]))
      && FlatMap(LettersOf, kept) == FlatMap(OutputLetters, Views(draft))
  {
    ItemsConcatenate();
    GroupKeepsContent(CombineItems, ItemOutput, draft);
    OutputsKeepLetters(Views(Step(draft)));
    assert Contents(OutputLetters, Views(Step(draft))) == Contents(ItemOutput, Step(draft));
    assert Contents(OutputLetters, Views(draft)) == Contents(ItemOutput, draft);
  }
}
