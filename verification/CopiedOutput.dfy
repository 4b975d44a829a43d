/** The output of tools in the copy of a conversation: what the journal of a writer was handed and
    what the timeline still drafts for it, traced back to the raw events. */
module CopiedOutput {
  import opened Options
  import opened Utf16
  import opened CoreEvents
  import opened OutputParts
  import opened ProgressRuns
  import opened Runs
  import opened StepTransactions
  import opened Timeline

  /** One captured event as it came, before it was classified and compacted. */
  datatype Source = Source(writer: WriterId, event: CoreEvent, at: nat)

  function CapturedOf(source: Source): Captured { Captured(source.writer, Classify(source.event), source.at) }

  function History(sources: seq<Source>): seq<Captured> {
    if sources == [] then [] else History(sources[..|sources| - 1]) + [CapturedOf(sources[|sources| - 1])]
  }

  lemma HistoryInit(sources: seq<Source>)
    requires sources != []
    ensures var h, k := History(sources), |sources| - 1;
      |h| > 0 && h[..|h| - 1] == History(sources[..k]) && h[|h| - 1] == CapturedOf(sources[k])
  {}

  /** What classification makes of the progress of tools: it drafts it on the main channel, as
      compacted, and nowhere else. */
  lemma ClassifiedProgress(event: CoreEvent)
    ensures var action := Classify(event);
      && (action.Buffer? ==> ViewProgress(action.view) == Shortened(ProgressOf(event)))
      && (action.Buffer? && action.channel != Main ==> ProgressOf(event).None?)
      && (action.Write? ==> ViewProgress(action.view).None?)
  {}

  /** The raw progress behind a draft, `None` where an item is no progress. */
  function RawDraft(sources: seq<Source>, c: Channel): seq<Option<Progress>> {
    if sources == [] then []
    else
      var init, last := sources[..|sources| - 1], sources[|sources| - 1];
      NextRaw(Draft(History(init), c), RawDraft(init, c), last, c)
  }

  function NextRaw(draft: seq<Item>, raw: seq<Option<Progress>>, source: Source, c: Channel): seq<Option<Progress>> {
    var action := Classify(source.event);
    if Ends(action, c) then []
    else if action.Buffer? && action.channel == c then
      (if draft != [] && draft[0].writer != source.writer then [] else raw) + [ProgressOf(source.event)]
    else raw
  }

  ghost predicate NoProgress(raw: seq<Option<Progress>>) { forall i :: 0 <= i < |raw| ==> raw[i].None? }

  lemma NextFromRaw(draft: seq<Item>, raw: seq<Option<Progress>>, source: Source, c: Channel)
    requires FromRaw(ItemProgress, draft, raw) && (c != Main ==> NoProgress(raw))
    ensures FromRaw(ItemProgress, NextDraft(draft, CapturedOf(source), c), NextRaw(draft, raw, source, c))
    ensures c != Main ==> NoProgress(NextRaw(draft, raw, source, c))
  {
    ClassifiedProgress(source.event);
    hide Classify, ViewProgress, Shortened, ProgressOf;
  }

  lemma {:induction false} DraftFromRaw(sources: seq<Source>, c: Channel)
    ensures FromRaw(ItemProgress, Draft(History(sources), c), RawDraft(sources, c))
    ensures c != Main ==> NoProgress(RawDraft(sources, c))
  {
    if sources != [] {
      hide NextDraft, NextRaw, FromRaw, CapturedOf;
      var init, last := sources[..|sources| - 1], sources[|sources| - 1];
      HistoryInit(sources);
      DraftFromRaw(init, c);
      NextFromRaw(Draft(History(init), c), RawDraft(init, c), last, c);
    } else {
      assert FromRaw(ItemProgress, [], []);
    }
  }

  // ----- What the journal was handed -----

  /** Whether an event hands a draft of `w` to its journal. */
  predicate HandsOver(draft: seq<Item>, action: Action, w: WriterId) {
    action.Commit? && draft != [] && draft[0].writer == w
  }

  function ChannelIn(action: Action): Channel { if action.Commit? then action.channel else Main }

  /** The drafts committed to the journal of `w`, in order. */
  function HandedDrafts(sources: seq<Source>, w: WriterId): seq<seq<Item>> {
    if sources == [] then []
    else
      var init, action := sources[..|sources| - 1], Classify(sources[|sources| - 1].event);
      var draft := Draft(History(init), ChannelIn(action));
      HandedDrafts(init, w) + (if HandsOver(draft, action, w) then [draft] else [])
  }

  function HandedRaw(sources: seq<Source>, w: WriterId): seq<Option<Progress>> {
    if sources == [] then []
    else
      var init, action := sources[..|sources| - 1], Classify(sources[|sources| - 1].event);
      HandedRaw(init, w)
        + (if HandsOver(Draft(History(init), ChannelIn(action)), action, w) then RawDraft(init, ChannelIn(action)) else [])
  }

  lemma FromRawConcat(xs: seq<Item>, ys: seq<Item>, raw: seq<Option<Progress>>, more: seq<Option<Progress>>)
    requires FromRaw(ItemProgress, xs, raw) && FromRaw(ItemProgress, ys, more)
    ensures FromRaw(ItemProgress, xs + ys, raw + more)
  {
    hide ItemProgress, Shortened;
  }

  lemma FlattenOneMore<T>(xss: seq<seq<T>>, xs: seq<T>)
    ensures Flatten(xss + [xs]) == Flatten(xss) + xs
  {
    assert (xss + [xs])[..|xss|] == xss;
  }

  lemma {:induction false} HandedFromRaw(sources: seq<Source>, w: WriterId)
    ensures FromRaw(ItemProgress, Flatten(HandedDrafts(sources, w)), HandedRaw(sources, w))
  {
    if sources == [] {
      assert FromRaw(ItemProgress, [], []);
    } else {
      hide FromRaw, Draft, RawDraft, History, Flatten, Classify;
      var init, action := sources[..|sources| - 1], Classify(sources[|sources| - 1].event);
      var c := ChannelIn(action);
      HandedFromRaw(init, w);
      if HandsOver(Draft(History(init), c), action, w) {
        DraftFromRaw(init, c);
        FlattenOneMore(HandedDrafts(init, w), Draft(History(init), c));
        FromRawConcat(Flatten(HandedDrafts(init, w)), Draft(History(init), c), HandedRaw(init, w), RawDraft(init, c));
      } else {
        assert HandedDrafts(init, w) + [] == HandedDrafts(init, w) && HandedRaw(init, w) + [] == HandedRaw(init, w);
      }
    }
  }

  lemma {:induction false} OutputsForNone<T>(progressOf: T -> Option<Progress>, xs: seq<T>, tool: nat)
    requires forall i :: 0 <= i < |xs| ==> progressOf(xs[i]).None?
    ensures OutputsFor(progressOf, xs, tool) == []
  {
    if xs == [] {
      assert Contents(OfTool(progressOf, tool), xs) == [];
    } else {
      hide FlatMap;
      var k := |xs| - 1;
      OutputsForNone(progressOf, xs[..k], tool);
      OutputsForSnoc(progressOf, xs[..k], xs[k], tool);
      assert xs == xs[..k] + [xs[k]];
      assert OfTool(progressOf, tool)(xs[k]) == [];
    }
  }

  /** Carried by other elements, the same progress adds up to the same outputs. */
  lemma {:induction false} OutputsForSame<S, T>(progressS: S -> Option<Progress>, progressT: T -> Option<Progress>, xs: seq<S>, ys: seq<T>, tool: nat)
    requires |xs| == |ys| && forall i :: 0 <= i < |xs| ==> progressS(xs[i]) == progressT(ys[i])
    ensures OutputsFor(progressS, xs, tool) == OutputsFor(progressT, ys, tool)
  {
    if xs == [] {
      assert Contents(OfTool(progressS, tool), xs) == [] && Contents(OfTool(progressT, tool), ys) == [];
    } else {
      hide FlatMap;
      var k := |xs| - 1;
      OutputsForSame(progressS, progressT, xs[..k], ys[..k], tool);
      OutputsForSnoc(progressS, xs[..k], xs[k], tool);
      OutputsForSnoc(progressT, ys[..k], ys[k], tool);
      assert xs == xs[..k] + [xs[k]] && ys == ys[..k] + [ys[k]];
      assert OfTool(progressS, tool)(xs[k]) == OfTool(progressT, tool)(ys[k]);
    }
  }

  /** The journal entries of `w`, batch after batch. */
  function Committed(sources: seq<Source>, w: WriterId): seq<ViewEvent> { Flatten(BatchesFor(Writes(History(sources)), w)) }

  /** What one input adds to them. */
  function Added(issued: seq<Batch>, w: WriterId): seq<ViewEvent> { Flatten(BatchesFor(issued, w)) }

  lemma CommittedSnoc(sources: seq<Source>, w: WriterId)
    requires sources != []
    ensures var init, last := sources[..|sources| - 1], sources[|sources| - 1];
      Committed(sources, w) == Committed(init, w) + Added(Issued(History(init), CapturedOf(last)), w)
  {
    hide Issued, BatchesFor, Flatten;
    HistoryInit(sources);
    var init, last := sources[..|sources| - 1], sources[|sources| - 1];
    var issued := Issued(History(init), CapturedOf(last));
    BatchesForConcat(Writes(History(init)), issued, w);
    FlattenConcat(BatchesFor(Writes(History(init)), w), BatchesFor(issued, w));
  }

  lemma AddedOne(batch: Batch, w: WriterId)
    ensures Added([batch], w) == if batch.writer == w then batch.events else []
  {
    BatchesForOne(batch, w);
    FlattenOneMore([], batch.events);
    assert [] + [batch.events] == [batch.events];
    hide BatchesFor;
  }

  lemma AddedOutputs(sources: seq<Source>, source: Source, w: WriterId, tool: nat)
    ensures var h, action := History(sources), Classify(source.event);
      OutputsFor(ViewProgress, Added(Issued(h, CapturedOf(source)), w), tool)
        == if HandsOver(Draft(h, ChannelIn(action)), action, w) then OutputsFor(ItemProgress, Step(Draft(h, ChannelIn(action))), tool) else []
  {
    var h, action := History(sources), Classify(source.event);
    var added := Added(Issued(h, CapturedOf(source)), w);
    ClassifiedProgress(source.event);
    hide Classify, History, Draft, OutputsFor, Step, ViewProgress, BatchesFor;
    match action {
      case Commit(c) =>
        if Draft(h, c) != [] {
          AddedOne(Batch(Draft(h, c)[0].writer, Views(Step(Draft(h, c)))), w);
          if HandsOver(Draft(h, c), action, w) { OutputsForSame(ViewProgress, ItemProgress, added, Step(Draft(h, c)), tool); }
          else { OutputsForNone(ViewProgress, added, tool); }
        } else { NothingAdded(w); OutputsForNone(ViewProgress, added, tool); }
      case Retain(c) =>
        var output := Outputs(Views(Step(Draft(h, c))));
        OutputIsNoProgress(Views(Step(Draft(h, c))));
        if Draft(h, c) != [] && output != [] { AddedOne(Batch(Draft(h, c)[0].writer, output), w); } else { NothingAdded(w); }
        OutputsForNone(ViewProgress, added, tool);
      case Write(view) =>
        AddedOne(Batch(source.writer, [view]), w);
        OutputsForNone(ViewProgress, added, tool);
      case _ =>
        NothingAdded(w);
        OutputsForNone(ViewProgress, added, tool);
    }
  }

  lemma NothingAdded(w: WriterId)
    ensures Added([], w) == []
  {}

  lemma {:induction false} OutputIsNoProgress(views: seq<ViewEvent>)
    ensures forall i :: 0 <= i < |Outputs(views)| ==> ViewProgress(Outputs(views)[i]).None?
  {
    if views != [] { OutputIsNoProgress(views[..|views| - 1]); }
  }

  /** What drafts show once they are merged, one after the other. */
  function ShownOfDrafts(drafts: seq<seq<Item>>, tool: nat): seq<Text> {
    OutputsFor(ItemProgress, Flatten(GroupEach(CombineItems, drafts)), tool)
  }

  lemma ShownOneMore(drafts: seq<seq<Item>>, draft: seq<Item>, tool: nat)
    ensures ShownOfDrafts(drafts + [draft], tool) == ShownOfDrafts(drafts, tool) + OutputsFor(ItemProgress, Step(draft), tool)
  {
    hide OutputsFor, Flatten, Group, CombineItems, ItemProgress;
    assert GroupEach(CombineItems, drafts + [draft]) == GroupEach(CombineItems, drafts) + [Group(CombineItems, draft)];
    FlattenOneMore(GroupEach(CombineItems, drafts), Group(CombineItems, draft));
    OutputsForConcat(ItemProgress, Flatten(GroupEach(CombineItems, drafts)), Group(CombineItems, draft), tool);
  }

  lemma NothingShown(tool: nat)
    ensures ShownOfDrafts([], tool) == []
  {
    OutputsForNone(ItemProgress, Flatten(GroupEach(CombineItems, [])), tool);
  }

  lemma NothingCommitted(w: WriterId, tool: nat)
    ensures OutputsFor(ViewProgress, Committed([], w), tool) == []
  {
    OutputsForNone(ViewProgress, Committed([], w), tool);
  }

  lemma {:induction false} CommittedOutputs(sources: seq<Source>, w: WriterId, tool: nat)
    ensures OutputsFor(ViewProgress, Committed(sources, w), tool) == ShownOfDrafts(HandedDrafts(sources, w), tool)
  {
    hide OutputsFor, ShownOfDrafts, Committed, Added, Issued, Classify, History, Draft, Step, ViewProgress, ItemProgress;
    if sources == [] {
      NothingShown(tool);
      NothingCommitted(w, tool);
    } else {
      var init, last := sources[..|sources| - 1], sources[|sources| - 1];
      var action := Classify(last.event);
      var draft, before := Draft(History(init), ChannelIn(action)), HandedDrafts(init, w);
      CommittedOutputs(init, w, tool);
      CommittedSnoc(sources, w);
      OutputsForConcat(ViewProgress, Committed(init, w), Added(Issued(History(init), CapturedOf(last)), w), tool);
      AddedOutputs(init, last, w, tool);
      ShownOneMore(before, draft, tool);
      assert HandedDrafts(sources, w) == if HandsOver(draft, action, w) then before + [draft] else before;
    }
  }

  // ----- What is still drafted -----

  function EntryProgress(e: Entry): Option<Progress> { ViewProgress(e.event) }

  /** Later in capture order than `e`, as far as they are progress. */
  ghost predicate ProgressAfter(e: Entry, entries: seq<Entry>) {
    forall i :: 0 <= i < |entries| && EntryProgress(entries[i]).Some? ==> e.order < entries[i].order
  }

  lemma OutputsForHead(e: Entry, entries: seq<Entry>, tool: nat)
    ensures OutputsFor(EntryProgress, [e] + entries, tool) == OfTool(EntryProgress, tool)(e) + OutputsFor(EntryProgress, entries, tool)
  {
    OutputsForConcat(EntryProgress, [e], entries, tool);
    OutputsForSnoc(EntryProgress, [], e, tool);
    OutputsForNone(EntryProgress, [], tool);
    assert [] + [e] == [e];
    hide OutputsFor, OfTool;
  }

  /** An entry that is sorted in comes before all progress, if it is progress before all progress. */
  lemma {:induction false} InsertedOutputs(e: Entry, sorted: seq<Entry>, tool: nat)
    requires EntryProgress(e).Some? ==> ProgressAfter(e, sorted)
    ensures OutputsFor(EntryProgress, InsertByOrder(e, sorted), tool) == OfTool(EntryProgress, tool)(e) + OutputsFor(EntryProgress, sorted, tool)
  {
    if sorted == [] || e.order <= sorted[0].order {
      OutputsForHead(e, sorted, tool);
    } else {
      var head, rest := sorted[0], sorted[1..];
      assert sorted == [head] + rest;
      assert EntryProgress(e).None? || EntryProgress(head).None?;
      ProgressAfterRest(e, sorted);
      InsertedOutputs(e, rest, tool);
      OutputsForHead(head, InsertByOrder(e, rest), tool);
      OutputsForHead(head, rest, tool);
      NoneAdds(e, tool);
      NoneAdds(head, tool);
      assert InsertByOrder(e, sorted) == [head] + InsertByOrder(e, rest);
      hide *;
      Swapped(OfTool(EntryProgress, tool)(e), OfTool(EntryProgress, tool)(head), OutputsFor(EntryProgress, rest, tool));
    }
  }

  lemma Swapped(xs: seq<Text>, ys: seq<Text>, zs: seq<Text>)
    requires xs == [] || ys == []
    ensures xs + (ys + zs) == ys + (xs + zs)
  {
    if xs == [] { assert xs + (ys + zs) == ys + zs && xs + zs == zs; }
    else { assert ys + zs == zs && ys + (xs + zs) == xs + zs; }
  }

  lemma NoneAdds(e: Entry, tool: nat)
    ensures EntryProgress(e).None? ==> OfTool(EntryProgress, tool)(e) == []
  {}

  lemma ProgressAfterRest(e: Entry, sorted: seq<Entry>)
    requires sorted != [] && (EntryProgress(e).Some? ==> ProgressAfter(e, sorted))
    ensures EntryProgress(e).Some? ==> ProgressAfter(e, sorted[1..])
  {}

  ghost predicate ProgressAscends(entries: seq<Entry>) {
    forall i, j :: 0 <= i < j < |entries| && EntryProgress(entries[i]).Some? && EntryProgress(entries[j]).Some? ==>
      entries[i].order < entries[j].order
  }

  lemma AscendingHead(entries: seq<Entry>)
    requires entries != [] && ProgressAscends(entries)
    ensures ProgressAscends(entries[1..])
    ensures EntryProgress(entries[0]).Some? ==> ProgressAfter(entries[0], entries[1..])
  {
    hide EntryProgress;
  }

  lemma AfterInAnyOrder(e: Entry, xs: seq<Entry>, ys: seq<Entry>)
    requires multiset(xs) == multiset(ys) && ProgressAfter(e, xs)
    ensures ProgressAfter(e, ys)
  {
    hide EntryProgress;
    forall i | 0 <= i < |ys| && EntryProgress(ys[i]).Some? ensures e.order < ys[i].order {
      assert ys[i] in multiset(ys);
    }
  }

  lemma {:induction false} SortKeepsElements(entries: seq<Entry>)
    ensures multiset(SortByOrder(entries)) == multiset(entries)
  {
    if entries != [] {
      hide InsertByOrder;
      SortKeepsElements(entries[1..]);
      InsertKeepsElements(entries[0], SortByOrder(entries[1..]));
      assert entries == [entries[0]] + entries[1..];
    }
  }

  lemma SortUnfolds(e: Entry, rest: seq<Entry>)
    ensures SortByOrder([e] + rest) == InsertByOrder(e, SortByOrder(rest))
  {
    assert ([e] + rest)[1..] == rest;
    hide InsertByOrder;
  }

  lemma NothingToSort()
    ensures SortByOrder([]) == []
  {}

  lemma SortedHead(e: Entry, rest: seq<Entry>, tool: nat)
    requires EntryProgress(e).Some? ==> ProgressAfter(e, rest)
    ensures OutputsFor(EntryProgress, SortByOrder([e] + rest), tool)
         == OfTool(EntryProgress, tool)(e) + OutputsFor(EntryProgress, SortByOrder(rest), tool)
  {
    hide *;
    SortUnfolds(e, rest);
    SortKeepsElements(rest);
    if EntryProgress(e).Some? { AfterInAnyOrder(e, rest, SortByOrder(rest)); }
    InsertedOutputs(e, SortByOrder(rest), tool);
  }

  /** Where the progress among the entries comes in capture order, sorting does not touch it. */
  lemma {:induction false} SortedOutputs(entries: seq<Entry>, tool: nat)
    requires ProgressAscends(entries)
    ensures OutputsFor(EntryProgress, SortByOrder(entries), tool) == OutputsFor(EntryProgress, entries, tool)
  {
    hide *;
    if entries == [] {
      NothingToSort();
    } else {
      var e, rest := entries[0], entries[1..];
      AscendingHead(entries);
      SortedOutputs(rest, tool);
      SortedHead(e, rest, tool);
      OutputsForHead(e, rest, tool);
      assert entries == [e] + rest;
    }
  }

  /** A draft without progress shows none. */
  lemma MergedNone(draft: seq<Item>, raw: seq<Option<Progress>>)
    requires FromRaw(ItemProgress, draft, raw) && NoProgress(raw)
    ensures forall j :: 0 <= j < |Step(draft)| ==> ItemProgress(Step(draft)[j]).None?
  {
    ItemsAreLawful();
    hide Lawful, Appends, Group, CombineItems, ItemProgress, FromRaw;
    var runs := GroupShowsOutput(CombineItems, ItemsLinked, ItemProgress, draft, raw);
    forall j | 0 <= j < |Step(draft)| ensures ItemProgress(Step(draft)[j]).None? {
      assert ShowsRun(ItemProgress, runs, raw, Step(draft), j);
    }
  }

  /** The outputs among the drafts of one channel. */
  lemma ChannelOutputs(sources: seq<Source>, c: Channel, w: WriterId, tool: nat)
    ensures var draft, entries := Draft(History(sources), c), DraftEntries(History(sources), c, w);
      && (c == Main ==> OutputsFor(EntryProgress, entries, tool)
                        == if WriterOf(draft) == Some(w) then OutputsFor(ItemProgress, Step(draft), tool) else [])
      && (c != Main ==> forall i :: 0 <= i < |entries| ==> EntryProgress(entries[i]).None?)
  {
    hide History, Draft, Step, Orders, RawDraft, OutputsFor, ViewProgress;
    var h := History(sources);
    DraftFromRaw(sources, c);
    NumbersAligned(h, c);
    if c != Main { MergedNone(Draft(h, c), RawDraft(sources, c)); }
    hide FromRaw, NoProgress;
    if WriterOf(Draft(h, c)) == Some(w) {
      OutputsForSame(EntryProgress, ItemProgress, DraftEntries(h, c, w), Step(Draft(h, c)), tool);
    } else {
      OutputsForNone(EntryProgress, DraftEntries(h, c, w), tool);
    }
  }

  lemma ChannelAscends(h: seq<Captured>, c: Channel, w: WriterId)
    ensures var entries := DraftEntries(h, c, w); forall i, j :: 0 <= i < j < |entries| ==> entries[i].order < entries[j].order
  {
    hide Draft, Step, Orders;
    NumbersBelow(h, c);
    NumbersAligned(h, c);
  }

  lemma SnapshotOutputs(sources: seq<Source>, w: WriterId, tool: nat)
    ensures var draft := Draft(History(sources), Main);
      OutputsFor(ViewProgress, EventsOf(SnapshotOf(History(sources), w)), tool)
        == if WriterOf(draft) == Some(w) then OutputsFor(ItemProgress, Step(draft), tool) else []
  {
    var h := History(sources);
    var main, b, c := DraftEntries(h, Main, w), DraftEntries(h, PeerB, w), DraftEntries(h, PeerC, w);
    ChannelOutputs(sources, Main, w, tool);
    ChannelOutputs(sources, PeerB, w, tool);
    ChannelOutputs(sources, PeerC, w, tool);
    ChannelAscends(h, Main, w);
    hide History, Draft, Step, DraftEntries, OutputsFor, SortByOrder, ViewProgress;
    OutputsForSame(ViewProgress, EntryProgress, EventsOf(SnapshotOf(h, w)), SnapshotOf(h, w), tool);
    hide EntryProgress;
    var all := main + b + c;
    forall i, j | 0 <= i < j < |all| && EntryProgress(all[i]).Some? && EntryProgress(all[j]).Some? ensures all[i].order < all[j].order {
      assert j < |main|;
    }
    SortedOutputs(all, tool);
    OutputsForConcat(EntryProgress, main + b, c, tool);
    OutputsForConcat(EntryProgress, main, b, tool);
    OutputsForNone(EntryProgress, b, tool);
    OutputsForNone(EntryProgress, c, tool);
  }

  // ----- The copy -----

  /** What a copy holds: the journal, and the drafts of the writer merged in capture order. */
  function Copy(sources: seq<Source>, w: WriterId): seq<ViewEvent> {
    Committed(sources, w) + EventsOf(SnapshotOf(History(sources), w))
  }

  predicate StillDrafts(sources: seq<Source>, w: WriterId) { WriterOf(Draft(History(sources), Main)) == Some(w) }

  /** The raw progress that is in the copy: of the committed steps and of the one still drafted. */
  function CopyRaw(sources: seq<Source>, w: WriterId): seq<Option<Progress>> {
    HandedRaw(sources, w) + if StillDrafts(sources, w) then RawDraft(sources, Main) else []
  }

  /** What a copy shows of a tool are parts of the raw output of the steps it holds. */
  lemma CopyParts(sources: seq<Source>, w: WriterId, tool: nat) returns (parts: seq<seq<Text>>)
    ensures PartsOf(parts, OutputsFor(ViewProgress, Copy(sources, w), tool), RawFor(CopyRaw(sources, w), tool))
  {
    var draft, handed := Draft(History(sources), Main), HandedDrafts(sources, w);
    CommittedOutputs(sources, w, tool);
    SnapshotOutputs(sources, w, tool);
    HandedFromRaw(sources, w);
    DraftFromRaw(sources, Main);
    ItemsAreLawful();
    hide History, Draft, HandedDrafts, HandedRaw, RawDraft, Committed, SnapshotOf, EventsOf, OutputsFor, PartsOf, Lawful, Appends, FromRaw, Flatten, ViewProgress, ItemProgress, Step;
    OutputsForConcat(ViewProgress, Committed(sources, w), EventsOf(SnapshotOf(History(sources), w)), tool);
    if StillDrafts(sources, w) {
      FlattenOneMore(handed, draft);
      FromRawConcat(Flatten(handed), draft, HandedRaw(sources, w), RawDraft(sources, Main));
      ShownOneMore(handed, draft, tool);
      parts := SegmentedParts(CombineItems, ItemsLinked, ItemProgress, handed + [draft], CopyRaw(sources, w), tool);
    } else {
      assert ShownOfDrafts(handed, tool) + [] == ShownOfDrafts(handed, tool);
      assert CopyRaw(sources, w) == HandedRaw(sources, w);
      parts := SegmentedParts(CombineItems, ItemsLinked, ItemProgress, handed, CopyRaw(sources, w), tool);
    }
  }
}
