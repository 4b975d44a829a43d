/** The timeline projected to user messages, activity and final answers. */
module Sections {
  import opened Options
  import opened Blocks
  import opened Filters
  import opened Runs
  import HistoryPaging

  datatype Section =
    | BlockSection(id: Id, block: Block)
    | ActiveWork(id: Id, userBlocks: seq<Block>, activityBlocks: seq<Block>, finalBlocks: seq<Block>)
    | CompletedWork(id: Id, forkTurnId: Option<Id>, duration: Block,
                    userBlocks: seq<Block>, activityBlocks: seq<Block>, finalBlocks: seq<Block>)

  // ----- The kinds of block -----

  predicate IsUser(block: Block) { block.User? }

  predicate IsFinal(block: Block) { IsTerminalResponse(block) }

  predicate IsActivity(block: Block) { !block.User? && !IsTerminalResponse(block) }

  // ----- Sections as a function of the blocks -----

  function FirstIndex(p: Block -> bool, blocks: seq<Block>): (i: nat)
    ensures i <= |blocks|
    ensures i < |blocks| ==> p(blocks[i])
    ensures forall j :: 0 <= j < i ==> !p(blocks[j])
  {
    if blocks == [] || p(blocks[0]) then 0 else 1 + FirstIndex(p, blocks[1..])
  }

  predicate IsDuration(block: Block) { block.WorkDuration? }

  /** Notices before the first user message do not belong to the work that follows them. */
  function Leading(segment: seq<Block>): (leading: nat)
    ensures leading <= |segment|
  {
    var userIndex := FirstIndex(IsUser, segment);
    if userIndex < |segment| then userIndex else 0
  }

  function AsBlocks(blocks: seq<Block>): (r: seq<Section>)
    ensures |r| == |blocks| && forall i :: 0 <= i < |r| ==> r[i] == BlockSection(blocks[i].id, blocks[i])
  {
    seq(|blocks|, i requires 0 <= i < |blocks| => BlockSection(blocks[i].id, blocks[i]))
  }

  function FirstOf(blocks: seq<Block>): Option<Block> { if blocks == [] then None else Some(blocks[0]) }

  function Completed(segment: seq<Block>, duration: Block): seq<Section>
    requires duration.WorkDuration?
  {
    var work := segment[Leading(segment)..];
    AsBlocks(segment[..Leading(segment)])
      + [CompletedWork(WorkSectionId(FirstOf(work), duration.id), duration.forkTurnId, duration,
                       Filter(IsUser, work), Filter(IsActivity, work), Filter(IsFinal, work))]
  }

  function Unfinished(tail: seq<Block>, active: Option<Id>): seq<Section> {
    var work := tail[Leading(tail)..];
    if active.Some? && Filter(IsFinal, work) != [] then
      AsBlocks(tail[..Leading(tail)])
        + [ActiveWork(WorkSectionId(FirstOf(work), active.value), Filter(IsUser, work), Filter(IsActivity, work), Filter(IsFinal, work))]
    else AsBlocks(tail)
  }

  /** `active` is the identity of the running work, when one is running. */
  function Sections(blocks: seq<Block>, active: Option<Id>): seq<Section> {
    var d := FirstIndex(IsDuration, blocks);
    if d == |blocks| then Unfinished(blocks, active)
    else Completed(blocks[..d], blocks[d]) + Sections(blocks[d + 1..], active)
  }

  lemma FirstIndexIs(p: Block -> bool, blocks: seq<Block>, i: nat)
    requires i <= |blocks| && (i < |blocks| ==> p(blocks[i]))
    requires forall j :: 0 <= j < i ==> !p(blocks[j])
    ensures FirstIndex(p, blocks) == i
  {}

  lemma SectionsUnfold(blocks: seq<Block>, start: nat, index: nat, active: Option<Id>)
    requires start <= index <= |blocks|
    requires forall j :: start <= j < index ==> !IsDuration(blocks[j])
    requires index < |blocks| ==> IsDuration(blocks[index])
    ensures Sections(blocks[start..], active) ==
      if index == |blocks| then Unfinished(blocks[start..], active)
      else Completed(blocks[start..index], blocks[index]) + Sections(blocks[index + 1..], active)
  {
    hide Completed, Unfinished, FirstIndex;
    var rest := blocks[start..];
    FirstIndexIs(IsDuration, rest, index - start);
    assert rest[..index - start] == blocks[start..index];
    assert index < |blocks| ==> rest[index - start + 1..] == blocks[index + 1..];
  }

  ghost predicate NoDuration(blocks: seq<Block>, start: nat, index: nat) {
    start <= index <= |blocks| && forall j :: start <= j < index ==> !IsDuration(blocks[j])
  }

  lemma CloseWork(sections: seq<Section>, blocks: seq<Block>, start: nat, index: nat, active: Option<Id>)
    requires NoDuration(blocks, start, index) && index < |blocks| && IsDuration(blocks[index])
    ensures sections + Completed(blocks[start..index], blocks[index]) + Sections(blocks[index + 1..], active)
         == sections + Sections(blocks[start..], active)
  {
    SectionsUnfold(blocks, start, index, active);
  }

  // ----- What the sections are, work by work -----

  /** Notices that come before the first user message stand in front; without them, or without a user
      message, everything belongs to the work. */
  ghost predicate SplitsAtUser(leading: seq<Block>, work: seq<Block>) {
    && (forall b <- leading :: !b.User?)
    && if leading != [] then work != [] && work[0].User?
       else (work != [] && work[0].User?) || (forall b <- work :: !b.User?)
  }

  /** A work is known by the input of its first message, by its first block, or by its boundary. */
  function WorkId(work: seq<Block>, boundaryId: Id): Id {
    "work-" + if work == [] then boundaryId
              else if work[0].User? && work[0].inputId.Some? then work[0].inputId.value
              else work[0].id
  }

  lemma SplitIs(segment: seq<Block>) returns (leading: seq<Block>, work: seq<Block>)
    ensures leading == segment[..Leading(segment)] && work == segment[Leading(segment)..]
    ensures segment == leading + work && SplitsAtUser(leading, work)
  {
    leading, work := segment[..Leading(segment)], segment[Leading(segment)..];
    assert forall i :: 0 <= i < FirstIndex(IsUser, segment) ==> !IsUser(segment[i]);
  }

  lemma CompletedIs(segment: seq<Block>, duration: Block) returns (leading: seq<Block>, work: seq<Block>)
    requires duration.WorkDuration?
    ensures segment == leading + work && SplitsAtUser(leading, work)
    ensures Completed(segment, duration) ==
      AsBlocks(leading)
      + [CompletedWork(WorkId(work, duration.id), duration.forkTurnId, duration,
                       Filter(IsUser, work), Filter(IsActivity, work), Filter(IsFinal, work))]
  {
    hide Leading, Filter, SplitsAtUser;
    leading, work := SplitIs(segment);
  }

  /** A work that has ended is one section behind one for each notice before its first message. */
  lemma WorkSection(segment: seq<Block>, duration: Block, rest: seq<Block>, active: Option<Id>)
    returns (leading: seq<Block>, work: seq<Block>)
    requires duration.WorkDuration? && forall b <- segment :: !b.WorkDuration?
    ensures segment == leading + work && SplitsAtUser(leading, work)
    ensures Sections(segment + [duration] + rest, active) ==
      AsBlocks(leading)
      + [CompletedWork(WorkId(work, duration.id), duration.forkTurnId, duration,
                       Filter(IsUser, work), Filter(IsActivity, work), Filter(IsFinal, work))]
      + Sections(rest, active)
  {
    hide Sections, Leading, Filter, SplitsAtUser, WorkId;
    var blocks := segment + [duration] + rest;
    leading, work := CompletedIs(segment, duration);
    hide Completed;
    assert blocks[|segment|] == duration && blocks[|segment| + 1..] == rest && blocks[0..|segment|] == segment && blocks[0..] == blocks;
    assert forall j :: 0 <= j < |segment| ==> blocks[j] == segment[j] && segment[j] in segment;
    SectionsUnfold(blocks, 0, |segment|, active);
  }

  /** What has not ended is shown block by block, unless it runs and has come to an answer. */
  lemma TailSections(tail: seq<Block>, active: Option<Id>) returns (leading: seq<Block>, work: seq<Block>)
    requires forall b <- tail :: !b.WorkDuration?
    ensures tail == leading + work && SplitsAtUser(leading, work)
    ensures Sections(tail, active) ==
      if active.Some? && exists b <- work :: b.Text? && b.final then
        AsBlocks(leading)
        + [ActiveWork(WorkId(work, active.value), Filter(IsUser, work), Filter(IsActivity, work), Filter(IsFinal, work))]
      else AsBlocks(tail)
  {
    hide Sections, Leading, Filter;
    leading, work := SplitIs(tail);
    assert tail[0..] == tail;
    SectionsUnfold(tail, 0, |tail|, active);
    SomeFinal(work);
  }

  lemma {:induction false} SomeFinal(work: seq<Block>)
    ensures Filter(IsFinal, work) != [] <==> exists b <- work :: b.Text? && b.final
  {
    if work != [] {
      var init, last := work[..|work| - 1], work[|work| - 1];
      SomeFinal(init);
      FilterInit(IsFinal, work);
      assert work == init + [last];
      assert IsFinal(last) <==> last.Text? && last.final;
    }
  }

  // ----- The loops -----

  method ConversationSections(blocks: seq<Block>, active: Option<Id>) returns (sections: seq<Section>)
    ensures sections == Sections(blocks, active)
  {
    hide Sections, Completed, Unfinished;
    sections := [];
    var segmentStart := 0;
    assert blocks[0..] == blocks;
    for index := 0 to |blocks|
      invariant NoDuration(blocks, segmentStart, index)
      invariant sections + Sections(blocks[segmentStart..], active) == Sections(blocks, active)
    {
      var block := blocks[index];
      if !block.WorkDuration? { continue; }
      CloseWork(sections, blocks, segmentStart, index, active);
      sections := AppendCompletedWork(sections, blocks[segmentStart..index], block);
      segmentStart := index + 1;
    }
    SectionsUnfold(blocks, segmentStart, |blocks|, active);
    sections := AppendTail(sections, blocks[segmentStart..], active);
  }

  method AppendTail(before: seq<Section>, tail: seq<Block>, active: Option<Id>) returns (sections: seq<Section>)
    ensures sections == before + Unfinished(tail, active)
  {
    sections := before;
    var appended := false;
    if active.Some? {
      appended, sections := AppendActiveWork(sections, tail, active.value);
    }
    if !appended {
      sections := AppendBlocks(sections, tail);
    }
  }

  method AppendBlocks(sections: seq<Section>, blocks: seq<Block>) returns (r: seq<Section>)
    ensures r == sections + AsBlocks(blocks)
  {
    r := sections;
    for i := 0 to |blocks|
      invariant r == sections + AsBlocks(blocks)[..i]
    {
      r := r + [BlockSection(blocks[i].id, blocks[i])];
    }
  }

  method AppendCompletedWork(sections: seq<Section>, segment: seq<Block>, duration: Block) returns (r: seq<Section>)
    requires duration.WorkDuration?
    ensures r == sections + Completed(segment, duration)
  {
    var leading, work := segment[..Leading(segment)], segment[Leading(segment)..];
    r := AppendBlocks(sections, leading);
    r := r + [CompletedWork(WorkSectionId(FirstOf(work), duration.id), duration.forkTurnId, duration,
                            Filter(IsUser, work), Filter(IsActivity, work), Filter(IsFinal, work))];
  }

  method AppendActiveWork(sections: seq<Section>, segment: seq<Block>, boundaryId: Id) returns (appended: bool, r: seq<Section>)
    ensures appended <==> Filter(IsFinal, segment[Leading(segment)..]) != []
    ensures r == if appended then sections + Unfinished(segment, Some(boundaryId)) else sections
  {
    var leading, work := segment[..Leading(segment)], segment[Leading(segment)..];
    var finals := Filter(IsFinal, work);
    if finals == [] { return false, sections; }
    r := AppendBlocks(sections, leading);
    r := r + [ActiveWork(WorkSectionId(FirstOf(work), boundaryId), Filter(IsUser, work), Filter(IsActivity, work), finals)];
    appended := true;
  }

  // ----- Sections distribute over cuts between works -----

  ghost predicate EndsWork(blocks: seq<Block>) {
    blocks == [] || blocks[|blocks| - 1].WorkDuration?
  }

  lemma SectionsEmpty()
    ensures Sections([], None) == []
  {
    assert AsBlocks([]) == [];
  }

  /** Cut where a work has ended, a conversation has the sections of its parts. */
  lemma {:induction false} SectionsDistribute(xs: seq<Block>, ys: seq<Block>, active: Option<Id>)
    requires EndsWork(xs)
    ensures Sections(xs + ys, active) == Sections(xs, None) + Sections(ys, active)
    decreases |xs|
  {
    hide Sections;
    if xs == [] {
      assert xs + ys == ys;
      SectionsEmpty();
    } else {
      var d, first := FirstWorkOf(xs, ys, active);
      SectionsDistribute(xs[d + 1..], ys, active);
    }
  }

  lemma FirstWork(xs: seq<Block>, blocks: seq<Block>, d: nat, active: Option<Id>)
    requires xs <= blocks && d < |xs| && d == FirstIndex(IsDuration, xs)
    ensures Sections(blocks, active) == Completed(xs[..d], xs[d]) + Sections(blocks[d + 1..], active)
  {
    hide Completed, Unfinished;
    FirstIndexIs(IsDuration, blocks, d);
    assert blocks[..d] == xs[..d];
  }

  lemma FirstWorkOf(xs: seq<Block>, ys: seq<Block>, active: Option<Id>) returns (d: nat, first: seq<Section>)
    requires xs != [] && EndsWork(xs)
    ensures d < |xs| && EndsWork(xs[d + 1..])
    ensures Sections(xs, None) == first + Sections(xs[d + 1..], None)
    ensures Sections(xs + ys, active) == first + Sections(xs[d + 1..] + ys, active)
  {
    hide Sections, Completed;
    d := FirstIndex(IsDuration, xs);
    assert IsDuration(xs[|xs| - 1]);
    first := Completed(xs[..d], xs[d]);
    FirstWork(xs, xs, d, None);
    FirstWork(xs, xs + ys, d, active);
    assert (xs + ys)[d + 1..] == xs[d + 1..] + ys;
  }

  /** The sections of the earlier part and of the page put together are those of the whole,
      wherever a page may open. */
  lemma PagesKeepSections(blocks: seq<Block>, request: HistoryPaging.Request, end: nat, active: Option<Id>)
    requires end <= |blocks|
    ensures var start := HistoryPaging.WindowStart(blocks, request, end);
      && start <= |blocks|
      && Sections(blocks, active) == Sections(blocks[..start], None) + Sections(blocks[start..], active)
  {
    HistoryPaging.WindowOpensAtWork(blocks, request, end);
    var start := HistoryPaging.WindowStart(blocks, request, end);
    assert blocks == blocks[..start] + blocks[start..];
    SectionsDistribute(blocks[..start], blocks[start..], active);
  }

  // ----- What the sections are made of -----

  ghost predicate AllAre(p: Block -> bool, blocks: seq<Block>) { forall b <- blocks :: p(b) }

  /** Each part of a work holds its own kind of block, and a completed work what its duration
      says of it. */
  ghost predicate Typed(section: Section) {
    match section
    case BlockSection(id, block) => id == block.id
    case ActiveWork(_, users, activity, finals) =>
      AllAre(IsUser, users) && AllAre(IsActivity, activity) && AllAre(IsFinal, finals) && finals != []
    case CompletedWork(_, forkTurnId, duration, users, activity, finals) =>
      && AllAre(IsUser, users) && AllAre(IsActivity, activity) && AllAre(IsFinal, finals)
      && duration.WorkDuration? && forkTurnId == duration.forkTurnId
  }

  ghost predicate AllTyped(sections: seq<Section>) { forall i :: 0 <= i < |sections| ==> Typed(sections[i]) }

  lemma {:induction false} FilterIsTyped(p: Block -> bool, blocks: seq<Block>)
    ensures AllAre(p, Filter(p, blocks))
  {
    if blocks != [] {
      FilterIsTyped(p, blocks[..|blocks| - 1]);
      FilterInit(p, blocks);
    }
  }

  lemma WorkIsTyped(work: seq<Block>)
    ensures AllAre(IsUser, Filter(IsUser, work)) && AllAre(IsActivity, Filter(IsActivity, work)) && AllAre(IsFinal, Filter(IsFinal, work))
  {
    FilterIsTyped(IsUser, work);
    FilterIsTyped(IsActivity, work);
    FilterIsTyped(IsFinal, work);
  }

  lemma CompletedIsTyped(segment: seq<Block>, duration: Block)
    requires duration.WorkDuration?
    ensures AllTyped(Completed(segment, duration))
  {
    WorkIsTyped(segment[Leading(segment)..]);
    hide Leading, AllAre, Filter;
  }

  lemma UnfinishedIsTyped(tail: seq<Block>, active: Option<Id>)
    ensures AllTyped(Unfinished(tail, active))
  {
    WorkIsTyped(tail[Leading(tail)..]);
    hide Leading, AllAre, Filter;
  }

  /** User messages, activity and final answers are kept apart, in every section. */
  lemma {:induction false} SectionsAreTyped(blocks: seq<Block>, active: Option<Id>)
    ensures AllTyped(Sections(blocks, active))
    decreases |blocks|
  {
    hide Completed, Unfinished, Typed;
    var d := FirstIndex(IsDuration, blocks);
    if d == |blocks| {
      UnfinishedIsTyped(blocks, active);
    } else {
      CompletedIsTyped(blocks[..d], blocks[d]);
      SectionsAreTyped(blocks[d + 1..], active);
    }
  }

  // ----- Sections conserve blocks -----

  function BlocksOf(section: Section): seq<Block> {
    match section
    case BlockSection(_, block) => [block]
    case ActiveWork(_, users, activity, finals) => users + activity + finals
    case CompletedWork(_, _, duration, users, activity, finals) => users + activity + finals + [duration]
  }

  function FlattenSections(sections: seq<Section>): seq<Block> { FlatMap(BlocksOf, sections) }

  /** Sectioning moves blocks only across these kinds, never within one. */
  datatype Kind = UserKind | ActivityKind | FinalKind | DurationKind

  predicate IsKind(kind: Kind, block: Block) {
    match kind
    case UserKind => block.User?
    case ActivityKind => !block.User? && !IsTerminalResponse(block) && !block.WorkDuration?
    case FinalKind => IsTerminalResponse(block)
    case DurationKind => block.WorkDuration?
  }

  function Only(kind: Kind, blocks: seq<Block>): seq<Block> { Filter(block => IsKind(kind, block), blocks) }

  function Parts(work: seq<Block>): seq<Block> {
    Filter(IsUser, work) + Filter(IsActivity, work) + Filter(IsFinal, work)
  }

  /** Splitting work into its three parts keeps each kind and its order. */
  lemma WorkKeepsKinds(kind: Kind, work: seq<Block>)
    ensures Only(kind, Parts(work)) == Only(kind, work)
  {
    var p := block => IsKind(kind, block);
    var u, a, f := Filter(IsUser, work), Filter(IsActivity, work), Filter(IsFinal, work);
    FilterConcat(p, u + a, f);
    FilterConcat(p, u, a);
    match kind {
      case UserKind =>
        FilterKeeps(p, IsUser, work);
        FilterDrops(p, IsActivity, work);
        FilterDrops(p, IsFinal, work);
      case FinalKind =>
        FilterDrops(p, IsUser, work);
        FilterDrops(p, IsActivity, work);
        FilterKeeps(p, IsFinal, work);
      case _ =>
        FilterDrops(p, IsUser, work);
        FilterKeeps(p, IsActivity, work);
        FilterDrops(p, IsFinal, work);
    }
  }

  lemma OnlyConcat(kind: Kind, xs: seq<Block>, ys: seq<Block>)
    ensures Only(kind, xs + ys) == Only(kind, xs) + Only(kind, ys)
  {
    FilterConcat(block => IsKind(kind, block), xs, ys);
  }

  lemma OnlyParts(kind: Kind, leading: seq<Block>, work: seq<Block>, rest: seq<Block>)
    ensures Only(kind, leading + (Parts(work) + rest)) == Only(kind, leading + work + rest)
  {
    WorkKeepsKinds(kind, work);
    hide Only, Parts;
    OnlyConcat(kind, leading, Parts(work) + rest);
    OnlyConcat(kind, Parts(work), rest);
    OnlyConcat(kind, leading + work, rest);
    OnlyConcat(kind, leading, work);
  }

  lemma {:induction false} FlattenAsBlocks(blocks: seq<Block>)
    ensures FlattenSections(AsBlocks(blocks)) == blocks
  {
    if blocks != [] {
      var init, last := blocks[..|blocks| - 1], blocks[|blocks| - 1];
      FlattenAsBlocks(init);
      FlatMapSnoc(BlocksOf, AsBlocks(init), BlockSection(last.id, last));
      assert AsBlocks(blocks) == AsBlocks(init) + [BlockSection(last.id, last)];
    }
  }

  lemma FlattenWork(leading: seq<Block>, section: Section)
    ensures FlattenSections(AsBlocks(leading) + [section]) == leading + BlocksOf(section)
  {
    FlattenAsBlocks(leading);
    FlatMapSnoc(BlocksOf, AsBlocks(leading), section);
  }

  lemma CompletedConserves(segment: seq<Block>, duration: Block, kind: Kind)
    requires duration.WorkDuration?
    ensures Only(kind, FlattenSections(Completed(segment, duration))) == Only(kind, segment + [duration])
  {
    hide FlattenSections, Only, Leading;
    var leading, work := segment[..Leading(segment)], segment[Leading(segment)..];
    var sections := Completed(segment, duration);
    var section := sections[|sections| - 1];
    assert sections == AsBlocks(leading) + [section];
    FlattenWork(leading, section);
    assert BlocksOf(section) == Parts(work) + [duration];
    OnlyParts(kind, leading, work, [duration]);
    assert segment == leading + work;
  }

  lemma UnfinishedConserves(tail: seq<Block>, active: Option<Id>, kind: Kind)
    ensures Only(kind, FlattenSections(Unfinished(tail, active))) == Only(kind, tail)
  {
    hide FlattenSections, Only, Leading;
    var leading, work := tail[..Leading(tail)], tail[Leading(tail)..];
    FlattenAsBlocks(tail);
    if active.Some? && Filter(IsFinal, work) != [] {
      var sections := Unfinished(tail, active);
      var section := sections[|sections| - 1];
      assert sections == AsBlocks(leading) + [section];
      FlattenWork(leading, section);
      assert BlocksOf(section) == Parts(work) + [];
      OnlyParts(kind, leading, work, []);
      assert tail == leading + work + [];
    }
  }

  /** Flattened again, the sections hold every block exactly once, and each kind of block
      in its original order. */
  lemma {:induction false} SectionsConserve(blocks: seq<Block>, active: Option<Id>, kind: Kind)
    ensures Only(kind, FlattenSections(Sections(blocks, active))) == Only(kind, blocks)
    decreases |blocks|
  {
    hide Only, FlattenSections, Completed, Unfinished;
    var d := FirstIndex(IsDuration, blocks);
    if d == |blocks| {
      UnfinishedConserves(blocks, active, kind);
    } else {
      var rest := blocks[d + 1..];
      SectionsConserve(rest, active, kind);
      ConserveJoin(Completed(blocks[..d], blocks[d]), blocks[..d] + [blocks[d]], Sections(rest, active), rest, kind) by {
        CompletedConserves(blocks[..d], blocks[d], kind);
      }
      assert blocks == blocks[..d] + [blocks[d]] + rest;
    }
  }

  lemma ConserveJoin(left: seq<Section>, xs: seq<Block>, right: seq<Section>, ys: seq<Block>, kind: Kind)
    requires Only(kind, FlattenSections(left)) == Only(kind, xs)
    requires Only(kind, FlattenSections(right)) == Only(kind, ys)
    ensures Only(kind, FlattenSections(left + right)) == Only(kind, xs + ys)
  {
    FlatMapConcat(BlocksOf, left, right);
    hide Only, FlatMap;
    OnlyConcat(kind, FlattenSections(left), FlattenSections(right));
    OnlyConcat(kind, xs, ys);
  }

  /** The kinds partition all blocks: agreeing on each kind is agreeing as a multiset. */
  lemma {:induction false} KindsPartition(blocks: seq<Block>)
    ensures multiset(blocks) == multiset(Only(UserKind, blocks)) + multiset(Only(ActivityKind, blocks))
      + multiset(Only(FinalKind, blocks)) + multiset(Only(DurationKind, blocks))
  {
    if blocks != [] {
      var init, last := blocks[..|blocks| - 1], blocks[|blocks| - 1];
      KindsPartition(init);
      assert blocks == init + [last];
      OnlySnoc(UserKind, init, last);
      OnlySnoc(ActivityKind, init, last);
      OnlySnoc(FinalKind, init, last);
      OnlySnoc(DurationKind, init, last);
      hide Only;
    }
  }

  lemma OnlySnoc(kind: Kind, blocks: seq<Block>, block: Block)
    ensures Only(kind, blocks + [block]) == if IsKind(kind, block) then Only(kind, blocks) + [block] else Only(kind, blocks)
  {
    FilterSnoc(b => IsKind(kind, b), blocks, block);
  }

  lemma SectionsConserveAll(blocks: seq<Block>, active: Option<Id>)
    ensures multiset(FlattenSections(Sections(blocks, active))) == multiset(blocks)
  {
    var flat := FlattenSections(Sections(blocks, active));
    SectionsConserve(blocks, active, UserKind);
    SectionsConserve(blocks, active, ActivityKind);
    SectionsConserve(blocks, active, FinalKind);
    SectionsConserve(blocks, active, DurationKind);
    KindsPartition(blocks);
    KindsPartition(flat);
  }
}
