/** The blocks a conversation is projected to. */
module Blocks {
  import opened Options

  type Id = string

  datatype Block =
    | User(id: Id, inputId: Option<Id>, btw: Option<Id>)
    | Text(id: Id, final: bool)
    | WorkDuration(id: Id, forkTurnId: Option<Id>)
    | Other(id: Id)

  predicate IsTerminalResponse(block: Block) { block.Text? && block.final }

  function WorkSectionId(firstBlock: Option<Block>, boundaryId: Id): Id {
    "work-" + match firstBlock
              case Some(User(_, Some(inputId), _)) => inputId
              case Some(block) => block.id
              case None => boundaryId
  }
}

/** Long histories cut at work boundaries, sent page by page and glued together again.
    Sets and maps stand for the arrays they travel as. */
module HistoryPaging {
  import opened Options
  import opened Blocks

  datatype StepSnapshot = StepSnapshot(blocks: seq<Block>, rest: nat)

  /** A conversation state; `rest` stands for the fields paging passes through unread. */
  datatype Conversation = Conversation(
    blocks: seq<Block>,
    expanded: set<Id>,
    turnStartBlocks: map<Id, nat>,
    pendingTurnStart: Option<nat>,
    pendingStep: Option<StepSnapshot>,
    rest: nat)

  const WORKS_PER_PAGE := 20
  const JUMP_WORKS_PER_PAGE := 100

  // ----- Where works start -----

  datatype Scan = Scan(starts: seq<nat>, boundary: nat, previousBtw: Option<Id>)

  function ScanBlock(scan: Scan, block: Block, index: nat): Scan {
    match block
    case WorkDuration(_, _) => scan.(boundary := index + 1)
    case User(_, _, btw) =>
      if scan.boundary > 0 && (btw.None? || btw != scan.previousBtw) then Scan(scan.starts + [scan.boundary], 0, btw)
      else scan.(previousBtw := btw)
    case _ => scan
  }

  function ScanAll(blocks: seq<Block>): Scan {
    if blocks == [] then Scan([0], 0, None)
    else ScanBlock(ScanAll(blocks[..|blocks| - 1]), blocks[|blocks| - 1], |blocks| - 1)
  }

  function WorkStarts(blocks: seq<Block>): seq<nat> { ScanAll(blocks).starts }

  /** The loop of `historyWorkStarts`. */
  method HistoryWorkStarts(blocks: seq<Block>) returns (starts: seq<nat>)
    ensures starts == WorkStarts(blocks)
  {
    starts := [0];
    var boundary := 0;
    var previousBtw: Option<Id> := None;
    for index := 0 to |blocks|
      invariant Scan(starts, boundary, previousBtw) == ScanAll(blocks[..index])
    {
      var block := blocks[index];
      assert blocks[..index + 1][..index] == blocks[..index];
      if block.WorkDuration? { boundary := index + 1; }
      if !block.User? { continue; }
      if boundary > 0 && (block.btw.None? || block.btw != previousBtw) {
        starts := starts + [boundary];
        boundary := 0;
      }
      previousBtw := block.btw;
    }
    assert blocks[..|blocks|] == blocks;
  }

  ghost predicate Ascending(starts: seq<nat>) {
    forall i, j :: 0 <= i < j < |starts| ==> starts[i] < starts[j]
  }

  /** Every start but the first follows a work's end, and lies before a later user message. */
  ghost predicate StartsWork(blocks: seq<Block>, start: nat) {
    start == 0 || (start < |blocks| && blocks[start - 1].WorkDuration?)
  }

  ghost predicate GoodScan(blocks: seq<Block>, scan: Scan) {
    && scan.starts != [] && scan.starts[0] == 0
    && Ascending(scan.starts)
    && (forall i :: 0 <= i < |scan.starts| ==> StartsWork(blocks, scan.starts[i]))
    && scan.boundary <= |blocks|
    && (scan.boundary > 0 ==> blocks[scan.boundary - 1].WorkDuration? && scan.starts[|scan.starts| - 1] < scan.boundary)
  }

  lemma {:induction false} ScanIsGood(blocks: seq<Block>)
    ensures GoodScan(blocks, ScanAll(blocks))
  {
    if blocks != [] {
      var k := |blocks| - 1;
      var init := blocks[..k];
      ScanIsGood(init);
      var before, after := ScanAll(init), ScanAll(blocks);
      forall i | 0 <= i < |before.starts| ensures StartsWork(blocks, before.starts[i]) {
        assert StartsWork(init, before.starts[i]);
      }
      assert before.boundary > 0 ==> init[before.boundary - 1] == blocks[before.boundary - 1];
      assert before.starts[|before.starts| - 1] <= |init|;
    }
  }

  function Below(starts: seq<nat>, end: nat): seq<nat> {
    if starts == [] then []
    else Below(starts[..|starts| - 1], end) + (if starts[|starts| - 1] < end then [starts[|starts| - 1]] else [])
  }

  lemma {:induction false} BelowKeeps(starts: seq<nat>, end: nat)
    ensures forall s :: s in Below(starts, end) <==> s in starts && s < end
    ensures Ascending(starts) ==> Ascending(Below(starts, end))
  {
    if starts != [] {
      var init, last := starts[..|starts| - 1], starts[|starts| - 1];
      var b := Below(init, end);
      BelowKeeps(init, end);
      assert starts == init + [last];
      assert Below(starts, end) == b + if last < end then [last] else [];
      hide Below;
      assert forall i :: 0 <= i < |b| ==> b[i] in b;
    }
  }

  function WorkStartAt(starts: seq<nat>, index: int): (start: nat)
    ensures start == 0 || (start in starts && start <= index)
  {
    if starts == [] then 0
    else if starts[|starts| - 1] <= index then starts[|starts| - 1]
    else WorkStartAt(starts[..|starts| - 1], index)
  }

  // ----- One page -----

  /** Options of a page; the empty string counts as absent, as in the original. */
  datatype Request = Request(before: Option<int>, targetId: Option<Id>, from: Option<Id>)

  const LATEST := Request(None, None, None)

  predicate Given(id: Option<Id>) { id.Some? && id.value != "" }

  function FindIndex(blocks: seq<Block>, id: Id): (index: int)
    ensures -1 <= index < |blocks|
    ensures index >= 0 ==> blocks[index].id == id
    ensures forall i :: 0 <= i < (if index < 0 then |blocks| else index) ==> blocks[i].id != id
  {
    if blocks == [] then -1
    else
      var earlier := FindIndex(blocks[..|blocks| - 1], id);
      if earlier >= 0 then earlier else if blocks[|blocks| - 1].id == id then |blocks| - 1 else -1
  }

  /** Where a block named in a request lies, -1 if none is named or it is not there. */
  function Named(blocks: seq<Block>, id: Option<Id>): (index: int)
    ensures -1 <= index < |blocks|
    ensures index >= 0 <==> id.Some? && id.value != "" && exists i :: 0 <= i < |blocks| && blocks[i].id == id.value
    ensures index >= 0 ==> blocks[index].id == id.value && forall i :: 0 <= i < index ==> blocks[i].id != id.value
  {
    if Given(id) then FindIndex(blocks, id.value) else -1
  }

  function Min(a: int, b: int): int { if a < b then a else b }

  function WindowEnd(blocks: seq<Block>, request: Request): int {
    if request.before.Some? then Min(request.before.value, |blocks|) else |blocks|
  }

  function WindowStart(blocks: seq<Block>, request: Request, end: nat): (start: nat) {
    var starts := Below(WorkStarts(blocks), end);
    var size := if Given(request.targetId) then JUMP_WORKS_PER_PAGE else WORKS_PER_PAGE;
    var first := if starts == [] then 0 else starts[if |starts| > size then |starts| - size else 0];
    var restored := Named(blocks, request.from);
    var second := if restored >= 0 then Min(first, WorkStartAt(starts, restored)) else first;
    var target := Named(blocks, request.targetId);
    if second <= target < end then WorkStartAt(starts, target) else second
  }

  function Included(blocks: seq<Block>): set<Id> {
    (set i | 0 <= i < |blocks| :: blocks[i].id) + (set i | 0 <= i < |blocks| :: WorkSectionId(Some(blocks[i]), blocks[i].id))
  }

  /** Where a block lies among those from `start` to `end`, 0 if it is none of them. */
  function IndexWithin(indexes: map<Id, nat>, id: Id, start: nat, end: nat): nat {
    if id in indexes && start <= indexes[id] < end then indexes[id] - start else 0
  }

  /** Where a block lies once `count` blocks are put in front of it, 0 if it has no index. */
  function IndexBehind(indexes: map<Id, nat>, id: Id, count: nat): nat {
    if id in indexes then indexes[id] + count else 0
  }

  function IndexesWithin(indexes: map<Id, nat>, start: nat, end: nat): map<Id, nat> {
    map id | id in indexes && start <= indexes[id] < end :: IndexWithin(indexes, id, start, end)
  }

  function IndexesBehind(indexes: map<Id, nat>, count: nat): map<Id, nat> {
    map id | id in indexes :: IndexBehind(indexes, id, count)
  }

  function Cut(state: Conversation, start: nat, end: nat): Conversation
    requires start <= end <= |state.blocks|
  {
    var blocks := state.blocks[start..end];
    Conversation(
      blocks,
      (set id | id in state.expanded && id in Included(blocks)),
      IndexesWithin(state.turnStartBlocks, start, end),
      if state.pendingTurnStart.Some? && start <= state.pendingTurnStart.value < end
        then Some(state.pendingTurnStart.value - start) else None,
      if end == |state.blocks| && state.pendingStep.Some? then
        var step := state.pendingStep.value;
        Some(step.(blocks := step.blocks[Min(start, |step.blocks|)..]))
      else None,
      state.rest)
  }

  datatype Window = Window(view: Conversation, before: Option<nat>)

  datatype Outcome = Page(window: Window) | InvalidPosition

  function HistoryWindow(state: Conversation, request: Request): Outcome {
    var end := WindowEnd(state.blocks, request);
    if end < 0 then InvalidPosition
    else
      WindowOpensAtWork(state.blocks, request, end);
      var start := WindowStart(state.blocks, request, end);
      Page(Window(Cut(state, start, end), if start > 0 then Some(start) else None))
  }

  function Prepend(current: Conversation, page: Conversation): Conversation {
    var count := |page.blocks|;
    Conversation(
      page.blocks + current.blocks,
      page.expanded + current.expanded,
      page.turnStartBlocks + IndexesBehind(current.turnStartBlocks, count),
      if current.pendingTurnStart.Some? then Some(current.pendingTurnStart.value + count) else None,
      if current.pendingStep.Some? then
        var step := current.pendingStep.value;
        Some(step.(blocks := page.blocks + step.blocks))
      else None,
      current.rest)
  }

  /** Every page opens at a work's start, strictly before its end unless it is empty. */
  lemma WindowOpensAtWork(blocks: seq<Block>, request: Request, end: nat)
    requires end <= |blocks|
    ensures var start := WindowStart(blocks, request, end);
      && start <= end
      && (end > 0 ==> start < end)
      && start in WorkStarts(blocks)
      && StartsWork(blocks, start)
  {
    ScanIsGood(blocks);
    var all := WorkStarts(blocks);
    var starts := Below(all, end);
    BelowKeeps(all, end);
    var start := WindowStart(blocks, request, end);
    assert all[0] in all;
    assert end > 0 ==> 0 in starts;
    assert forall i :: 0 <= i < |starts| ==> starts[i] in starts;
    assert start == 0 || start in starts;
    var i :| 0 <= i < |all| && all[i] == start;
    assert StartsWork(blocks, all[i]);
  }

  // ----- Where a page opens -----

  /** The last user message of a list. */
  ghost predicate IsLastUser(blocks: seq<Block>, p: nat) {
    p < |blocks| && blocks[p].User? && forall i :: p < i < |blocks| ==> !blocks[i].User?
  }

  /** A user message that goes on with the side conversation of the message before it. */
  ghost predicate GoesOn(blocks: seq<Block>, u: nat)
    requires u < |blocks| && blocks[u].User?
  {
    blocks[u].btw.Some? && exists p: nat :: IsLastUser(blocks[..u], p) && blocks[p].btw == blocks[u].btw
  }

  ghost predicate TurnsTo(blocks: seq<Block>, u: nat)
    requires u < |blocks|
  {
    blocks[u].User? && !GoesOn(blocks, u)
  }

  /** Nothing between the end of a work at `start` and `u` ends a work or turns to something else. */
  ghost predicate Quiet(blocks: seq<Block>, start: nat, u: nat)
    requires u <= |blocks|
  {
    && 0 < start <= u && blocks[start - 1].WorkDuration?
    && forall i :: start <= i < u ==> !blocks[i].WorkDuration? && !TurnsTo(blocks, i)
  }

  /** A work that has ended is followed by another one, which begins right behind its end. */
  ghost predicate BeginsWork(blocks: seq<Block>, start: nat) {
    start == 0 || exists u: nat :: u < |blocks| && Quiet(blocks, start, u) && TurnsTo(blocks, u)
  }

  /** The side conversation of the last user message. */
  function LastBtw(blocks: seq<Block>): Option<Id> {
    if blocks == [] then None
    else if blocks[|blocks| - 1].User? then blocks[|blocks| - 1].btw
    else LastBtw(blocks[..|blocks| - 1])
  }

  lemma {:induction false} LastBtwIs(blocks: seq<Block>, p: nat)
    requires IsLastUser(blocks, p)
    ensures LastBtw(blocks) == blocks[p].btw
  {
    if p < |blocks| - 1 {
      LastBtwIs(blocks[..|blocks| - 1], p);
    }
  }

  lemma {:induction false} HasLastUser(blocks: seq<Block>) returns (p: nat)
    requires LastBtw(blocks).Some?
    ensures IsLastUser(blocks, p)
  {
    p := |blocks| - 1;
    if !blocks[p].User? {
      p := HasLastUser(blocks[..p]);
    }
  }

  lemma TurnsToIs(init: seq<Block>, block: Block)
    requires block.User?
    ensures TurnsTo(init + [block], |init|) <==> block.btw.None? || block.btw != LastBtw(init)
  {
    var blocks := init + [block];
    assert blocks[..|init|] == init;
    forall p: nat | IsLastUser(init, p) ensures LastBtw(init) == blocks[p].btw {
      LastBtwIs(init, p);
    }
    if LastBtw(init).Some? {
      var p := HasLastUser(init);
      assert IsLastUser(blocks[..|init|], p);
    }
  }

  /** What holds within a list holds within a longer one. */
  lemma TurnsLonger(init: seq<Block>, block: Block, u: nat)
    requires u < |init|
    ensures TurnsTo(init + [block], u) <==> TurnsTo(init, u)
  {
    assert (init + [block])[..u] == init[..u];
  }

  lemma QuietLonger(init: seq<Block>, block: Block, start: nat, u: nat)
    requires u <= |init|
    ensures Quiet(init + [block], start, u) <==> Quiet(init, start, u)
  {
    hide TurnsTo;
    var blocks := init + [block];
    forall i: nat | i < |init| ensures blocks[i] == init[i] && (TurnsTo(blocks, i) <==> TurnsTo(init, i)) {
      TurnsLonger(init, block, i);
    }
    if Quiet(blocks, start, u) { assert forall i :: start <= i < u ==> !blocks[i].WorkDuration? && !TurnsTo(blocks, i); }
  }

  lemma BeginsLonger(init: seq<Block>, block: Block, start: nat)
    ensures BeginsWork(init + [block], start) <==>
      BeginsWork(init, start) || (Quiet(init, start, |init|) && TurnsTo(init + [block], |init|))
  {
    hide TurnsTo, Quiet;
    var blocks := init + [block];
    forall u: nat | u < |init| ensures TurnsTo(blocks, u) <==> TurnsTo(init, u) { TurnsLonger(init, block, u); }
    forall u: nat | u <= |init| ensures Quiet(blocks, start, u) <==> Quiet(init, start, u) { QuietLonger(init, block, start, u); }
  }

  /** The scan of a list: its work starts, the end that waits for a message, the last side conversation. */
  ghost predicate Scanned(blocks: seq<Block>, scan: Scan) {
    && (forall start: nat :: start in scan.starts <==> BeginsWork(blocks, start))
    && (forall start: nat :: Quiet(blocks, start, |blocks|) <==> start > 0 && start == scan.boundary)
    && scan.previousBtw == LastBtw(blocks)
  }

  lemma ScanStep(init: seq<Block>, scan: Scan, block: Block)
    requires Scanned(init, scan)
    ensures Scanned(init + [block], ScanBlock(scan, block, |init|))
  {
    hide TurnsTo, BeginsWork, Quiet;
    var blocks, next := init + [block], ScanBlock(scan, block, |init|);
    assert blocks[..|init|] == init && blocks[|init|] == block;
    if block.User? { TurnsToIs(init, block); } else { NoTurn(blocks, |init|); }
    forall start: nat ensures start in next.starts <==> BeginsWork(blocks, start) { BeginsLonger(init, block, start); }
    forall start: nat ensures Quiet(blocks, start, |blocks|) <==> start > 0 && start == next.boundary {
      QuietNext(init, block, start);
    }
  }

  lemma NoTurn(blocks: seq<Block>, u: nat)
    requires u < |blocks| && !blocks[u].User?
    ensures !TurnsTo(blocks, u)
  {}

  lemma QuietNext(init: seq<Block>, block: Block, start: nat)
    ensures Quiet(init + [block], start, |init| + 1) <==>
      if block.WorkDuration? then start == |init| + 1
      else Quiet(init, start, |init|) && !TurnsTo(init + [block], |init|)
  {
    hide TurnsTo;
    var blocks := init + [block];
    QuietLonger(init, block, start, |init|);
    assert blocks[|init|] == block;
  }

  /** Where works start, both ways: at the beginning, and right behind every end of a work that a
      user message follows before the next end, unless that message and those before it only go
      on with one side conversation. */
  lemma {:induction false} WorkStartsIff(blocks: seq<Block>, start: nat)
    ensures start in WorkStarts(blocks) <==> BeginsWork(blocks, start)
  {
    ScanIsComplete(blocks);
    hide BeginsWork;
  }

  lemma {:induction false} ScanIsComplete(blocks: seq<Block>)
    ensures Scanned(blocks, ScanAll(blocks))
  {
    if blocks != [] {
      var k := |blocks| - 1;
      ScanIsComplete(blocks[..k]);
      assert blocks[..k] + [blocks[k]] == blocks;
      ScanStep(blocks[..k], ScanAll(blocks[..k]), blocks[k]);
      hide Scanned, ScanBlock;
    }
  }

  /** The latest of some starts that is not after `bound`. */
  ghost predicate IsLatest(starts: seq<nat>, bound: int, start: nat) {
    start in starts && start <= bound && forall s :: s in starts && s <= bound ==> s <= start
  }

  /** How many works start between two positions. */
  ghost function WorksIn(starts: seq<nat>, from: nat, to: nat): nat { |set s | s in starts && from <= s < to| }

  ghost function Elements(starts: seq<nat>): set<nat> { set s | s in starts }

  lemma {:induction false} AscendingCounts(starts: seq<nat>)
    requires Ascending(starts)
    ensures |Elements(starts)| == |starts|
  {
    if starts != [] {
      var init, last := starts[..|starts| - 1], starts[|starts| - 1];
      AscendingCounts(init);
      assert last !in Elements(init);
      assert starts == init + [last];
      assert Elements(starts) == Elements(init) + {last};
    }
  }

  lemma WorksFrom(all: seq<nat>, end: nat, i: nat)
    requires Ascending(all) && i < |Below(all, end)|
    ensures WorksIn(all, Below(all, end)[i], end) == |Below(all, end)| - i
  {
    var starts := Below(all, end);
    BelowKeeps(all, end);
    hide Below;
    AscendingCounts(starts[i..]);
    forall s ensures s in starts[i..] <==> s in all && starts[i] <= s < end {
      if s in starts[i..] { var j :| 0 <= j < |starts[i..]| && starts[i..][j] == s; assert starts[i + j] == s; assert s in starts; }
      if s in starts && starts[i] <= s {
        var j :| 0 <= j < |starts| && starts[j] == s;
        assert j >= i && starts[i..][j - i] == s;
      }
    }
    assert (set s | s in all && starts[i] <= s < end) == Elements(starts[i..]);
  }

  lemma {:induction false} WorkStartAtIsLatest(starts: seq<nat>, index: int)
    requires Ascending(starts) && starts != [] && starts[0] == 0 && index >= 0
    ensures IsLatest(starts, index, WorkStartAt(starts, index))
  {
    var init, last := starts[..|starts| - 1], starts[|starts| - 1];
    assert starts == init + [last];
    if last > index {
      WorkStartAtIsLatest(init, index);
    } else {
      assert forall s | s in starts :: s <= last by {
        forall s | s in starts ensures s <= last { var i :| 0 <= i < |starts| && starts[i] == s; }
      }
    }
  }

  lemma OpensRestored(all: seq<nat>, end: nat, first: nat, restored: int)
    requires first in Below(all, end) && Ascending(all) && restored >= 0
    requires Below(all, end)[0] == 0
    ensures var second := Min(first, WorkStartAt(Below(all, end), restored));
      second in all && IsLatest(all, Min(restored, first), second)
  {
    BelowKeeps(all, end);
    WorkStartAtIsLatest(Below(all, end), restored);
  }

  lemma OpensTarget(all: seq<nat>, end: nat, target: int)
    requires Below(all, end) != [] && Below(all, end)[0] == 0 && Ascending(all) && 0 <= target < end
    ensures IsLatest(all, target, WorkStartAt(Below(all, end), target))
  {
    BelowKeeps(all, end);
    WorkStartAtIsLatest(Below(all, end), target);
  }

  lemma NoneBelow(starts: seq<nat>)
    ensures Below(starts, 0) == []
  {}

  lemma FirstOpens(blocks: seq<Block>, size: nat, end: nat) returns (first: nat)
    requires end <= |blocks| && size > 0
    ensures var all := WorkStarts(blocks); var starts := Below(all, end);
      && first == (if starts == [] then 0 else starts[if |starts| > size then |starts| - size else 0])
      && first in all && (if end == 0 then first == 0 && starts == [] else first < end && first in starts && starts[0] == 0)
      && WorksIn(all, first, end) == Min(size, WorksIn(all, 0, end))
      && Ascending(all) && 0 in all
  {
    ScanIsGood(blocks);
    var all := WorkStarts(blocks);
    var starts := Below(all, end);
    BelowKeeps(all, end);
    hide Below;
    assert all[0] in all;
    first := if starts == [] then 0 else starts[if |starts| > size then |starts| - size else 0];
    if end == 0 {
      NoneBelow(all);
      assert (set s | s in all && 0 <= s < 0) == {};
    } else {
      assert 0 in starts;
      assert starts[0] == 0 by { var i :| 0 <= i < |starts| && starts[i] == 0; }
      assert first in starts;
      WorksFrom(all, end, 0);
      WorksFrom(all, end, if |starts| > size then |starts| - size else 0);
    }
  }

  /** Where a page opens. It takes in 20 works, 100 when a block is looked for, or all there are. If
      a block to restore is found it opens no later than at that block's work, and if the block
      looked for lies between that opening and the end it opens exactly at that block's work. */
  lemma WindowOpens(blocks: seq<Block>, request: Request, end: nat) returns (first: nat, second: nat)
    requires end <= |blocks|
    ensures var starts, start := WorkStarts(blocks), WindowStart(blocks, request, end);
      var restored, target := Named(blocks, request.from), Named(blocks, request.targetId);
      && first in starts && (if end == 0 then first == 0 else first < end)
      && WorksIn(starts, first, end) == Min(if Given(request.targetId) then 100 else 20, WorksIn(starts, 0, end))
      && IsLatest(starts, if restored >= 0 then Min(restored, first) else first, second)
      && IsLatest(starts, if second <= target < end then target else second, start)
  {
    hide Below, WorkStarts, Given, WorksIn, IsLatest, WorkStartAt, Ascending, Named;
    first := FirstOpens(blocks, if Given(request.targetId) then 100 else 20, end);
    var all := WorkStarts(blocks);
    var restored, target := Named(blocks, request.from), Named(blocks, request.targetId);
    second := if restored >= 0 then Min(first, WorkStartAt(Below(all, end), restored)) else first;
    if end > 0 && restored >= 0 { OpensRestored(all, end, first, restored); }
    if end > 0 && second <= target < end { OpensTarget(all, end, target); }
    LatestItself(all, first);
    LatestItself(all, second);
    LatestItself(all, 0);
  }

  lemma LatestItself(starts: seq<nat>, start: nat)
    requires start in starts
    ensures IsLatest(starts, start, start)
  {}

  /** A page asked for without a block to look for: it holds the block to restore if that is before
      its end, opens at the latest start that is neither after that block nor after the opening of
      the page without it, and is never shorter than that page. */
  lemma RestoredPage(blocks: seq<Block>, request: Request, end: nat)
    requires end <= |blocks| && !Given(request.targetId)
    ensures var start, plain := WindowStart(blocks, request, end), WindowStart(blocks, request.(from := None), end);
      var restored := Named(blocks, request.from);
      && start <= plain
      && (restored < 0 ==> start == plain)
      && (restored >= 0 ==> IsLatest(WorkStarts(blocks), Min(restored, plain), start))
      && (0 <= restored < end ==> start <= restored)
  {
    var first, second := WindowOpens(blocks, request, end);
    var first', second' := WindowOpens(blocks, request.(from := None), end);
    WindowOpensAtWork(blocks, request.(from := None), end);
    SameWorks(blocks, first, first', end);
  }

  /** A number of works says where they begin. */
  lemma SameWorks(blocks: seq<Block>, a: nat, b: nat, end: nat)
    requires a in WorkStarts(blocks) && b in WorkStarts(blocks)
    requires WorksIn(WorkStarts(blocks), a, end) == WorksIn(WorkStarts(blocks), b, end)
    requires if end == 0 then a == b else a < end && b < end
    ensures a == b
  {
    if a < b { FewerWorks(WorkStarts(blocks), a, b, end); }
    if b < a { FewerWorks(WorkStarts(blocks), b, a, end); }
  }

  lemma FewerWorks(starts: seq<nat>, a: nat, b: nat, end: nat)
    requires a in starts && a < b && a < end
    ensures WorksIn(starts, b, end) < WorksIn(starts, a, end)
  {
    var more, fewer := set s | s in starts && a <= s < end, set s | s in starts && b <= s < end;
    assert a in more && a !in fewer;
    Fewer(fewer, more);
  }

  lemma Fewer(fewer: set<nat>, more: set<nat>)
    requires fewer < more
    ensures |fewer| < |more|
  {
    assert more == fewer + (more - fewer);
  }

  /** What a page is: refused exactly before the beginning, and otherwise the blocks from its opening
      to the position asked for, or to the end of the conversation if that comes first. */
  lemma PageIs(state: Conversation, request: Request)
    ensures HistoryWindow(state, request) == InvalidPosition <==> request.before.Some? && request.before.value < 0
    ensures HistoryWindow(state, request).Page? ==>
      var blocks, window := state.blocks, HistoryWindow(state, request).window;
      var end := if request.before.Some? && request.before.value < |blocks| then request.before.value else |blocks|;
      var start := WindowStart(blocks, request, end);
      && start <= end && window.view.blocks == blocks[start..end]
      && window.before == if start > 0 then Some(start) else None
  {
    if !(request.before.Some? && request.before.value < 0) {
      WindowOpensAtWork(state.blocks, request, WindowEnd(state.blocks, request));
    }
  }

  // ----- Loading page after page -----

  /** What is loaded once everything from `start` on is, when the first page began at `first`. */
  function Loaded(full: Conversation, start: nat, first: nat): Conversation
    requires start <= first <= |full.blocks|
  {
    Conversation(
      full.blocks[start..],
      (set id | id in full.expanded && id in Included(full.blocks[start..])),
      IndexesWithin(full.turnStartBlocks, start, |full.blocks|),
      if full.pendingTurnStart.Some? && first <= full.pendingTurnStart.value < |full.blocks|
        then Some(full.pendingTurnStart.value - start) else None,
      if full.pendingStep.Some? then
        var step := full.pendingStep.value;
        Some(step.(blocks := full.blocks[start..first] + step.blocks[Min(first, |step.blocks|)..]))
      else None,
      full.rest)
  }

  lemma FirstPage(full: Conversation, request: Request)
    requires request.before.None?
    ensures var first := WindowStart(full.blocks, request, |full.blocks|);
      && first <= |full.blocks|
      && HistoryWindow(full, request) == Page(Window(Loaded(full, first, first), if first > 0 then Some(first) else None))
  {
    WindowOpensAtWork(full.blocks, request, |full.blocks|);
    var first := WindowStart(full.blocks, request, |full.blocks|);
    assert full.blocks[first..|full.blocks|] == full.blocks[first..];
    var cut, loaded := Cut(full, first, |full.blocks|), Loaded(full, first, first);
    assert cut.expanded == loaded.expanded && cut.turnStartBlocks == loaded.turnStartBlocks;
    assert full.blocks[first..first] == [];
    assert cut.pendingStep == loaded.pendingStep by {
      if full.pendingStep.Some? {
        var tail := full.pendingStep.value.blocks[Min(first, |full.pendingStep.value.blocks|)..];
        assert [] + tail == tail;
      }
    }
  }

  lemma IncludedConcat(xs: seq<Block>, ys: seq<Block>)
    ensures Included(xs + ys) == Included(xs) + Included(ys)
  {
    var all := xs + ys;
    forall id | id in Included(xs) + Included(ys) ensures id in Included(all) {
      if i :| 0 <= i < |xs| && (id == xs[i].id || id == WorkSectionId(Some(xs[i]), xs[i].id)) {
        assert all[i] == xs[i];
      } else {
        var i :| 0 <= i < |ys| && (id == ys[i].id || id == WorkSectionId(Some(ys[i]), ys[i].id));
        assert all[|xs| + i] == ys[i];
      }
    }
  }

  lemma PrependExpanded(full: Conversation, page: nat, start: nat)
    requires page <= start <= |full.blocks|
    ensures (set id | id in full.expanded && id in Included(full.blocks[page..start]))
          + (set id | id in full.expanded && id in Included(full.blocks[start..]))
         == (set id | id in full.expanded && id in Included(full.blocks[page..]))
  {
    assert full.blocks[page..start] + full.blocks[start..] == full.blocks[page..];
    IncludedConcat(full.blocks[page..start], full.blocks[start..]);
    hide Included;
  }

  lemma PrependStepBlocks(blocks: seq<Block>, step: seq<Block>, page: nat, start: nat, first: nat)
    requires page <= start <= first <= |blocks|
    ensures blocks[page..start] + (blocks[start..first] + step) == blocks[page..first] + step
    ensures blocks[page..start] + blocks[start..] == blocks[page..]
  {}

  lemma PrependIndexes(indexes: map<Id, nat>, page: nat, start: nat, end: nat)
    requires page <= start <= end
    ensures IndexesWithin(indexes, page, start) + IndexesBehind(IndexesWithin(indexes, start, end), start - page)
         == IndexesWithin(indexes, page, end)
  {}

  /** Prepending the page that ends where the loaded part begins loads just that much more. */
  lemma PrependPage(full: Conversation, page: nat, start: nat, first: nat)
    requires page <= start <= first <= |full.blocks|
    ensures Prepend(Loaded(full, start, first), Cut(full, page, start)) == Loaded(full, page, first)
  {
    hide Included, IndexesWithin, IndexesBehind;
    PrependExpanded(full, page, start);
    PrependIndexes(full.turnStartBlocks, page, start, |full.blocks|);
    PrependStepBlocks(full.blocks, [], page, start, first);
    if full.pendingStep.Some? {
      var tail := full.pendingStep.value.blocks[Min(first, |full.pendingStep.value.blocks|)..];
      PrependStepBlocks(full.blocks, tail, page, start, first);
    }
  }

  /** One more page, whatever its options. */
  function LoadMore(full: Conversation, view: Conversation, start: nat, request: Request): (Conversation, nat)
    requires 0 < start <= |full.blocks|
  {
    var end: nat := start;
    WindowOpensAtWork(full.blocks, request, end);
    var page := WindowStart(full.blocks, request, end);
    (Prepend(view, Cut(full, page, end)), page)
  }

  lemma LoadMoreIsPrependedWindow(full: Conversation, view: Conversation, start: nat, request: Request)
    requires 0 < start <= |full.blocks| && request.before == Some(start)
    ensures var outcome := HistoryWindow(full, request);
      var (more, page) := LoadMore(full, view, start, request);
      && outcome.Page?
      && more == Prepend(view, outcome.window.view)
      && page < start
      && outcome.window.before == (if page > 0 then Some(page) else None)
  {
    WindowOpensAtWork(full.blocks, request, start);
  }

  /** Loads earlier pages until none is left; the start strictly decreases, so this ends.
      Each page may be asked for with its own target. */
  function LoadAll(full: Conversation, view: Conversation, start: nat, targets: nat -> Option<Id>): Conversation
    requires start <= |full.blocks|
    decreases start
  {
    if start == 0 then view
    else
      var request := Request(Some(start), targets(start), None);
      LoadMoreIsPrependedWindow(full, view, start, request);
      var (more, page) := LoadMore(full, view, start, request);
      LoadAll(full, more, page, targets)
  }

  lemma {:induction false} LoadAllLoads(full: Conversation, start: nat, first: nat, targets: nat -> Option<Id>)
    requires start <= first <= |full.blocks|
    ensures LoadAll(full, Loaded(full, start, first), start, targets) == Loaded(full, 0, first)
    decreases start
  {
    if start > 0 {
      var request := Request(Some(start), targets(start), None);
      WindowOpensAtWork(full.blocks, request, start);
      var page := WindowStart(full.blocks, request, start);
      PrependPage(full, page, start, first);
      LoadAllLoads(full, page, first, targets);
    }
  }

  /** What a state must satisfy for its pages to add up to it again, first page from `first`. */
  predicate Reloadable(full: Conversation, first: nat) {
    && full.expanded <= Included(full.blocks)
    && (forall id :: id in full.turnStartBlocks ==> full.turnStartBlocks[id] < |full.blocks|)
    && (full.pendingTurnStart.Some? ==> first <= full.pendingTurnStart.value < |full.blocks|)
    && (full.pendingStep.Some? ==> first <= |full.blocks| && full.blocks[..first] <= full.pendingStep.value.blocks)
  }

  lemma LoadedIffReloadable(full: Conversation, first: nat)
    requires first <= |full.blocks|
    ensures Loaded(full, 0, first) == full <==> Reloadable(full, first)
    ensures Loaded(full, 0, first).blocks == full.blocks
    ensures Loaded(full, 0, first).turnStartBlocks == full.turnStartBlocks
      <==> forall id :: id in full.turnStartBlocks ==> full.turnStartBlocks[id] < |full.blocks|
    ensures Loaded(full, 0, first).expanded == full.expanded <==> full.expanded <= Included(full.blocks)
  {
    var all := Loaded(full, 0, first);
    assert full.blocks[0..] == full.blocks;
    assert full.blocks[0..first] == full.blocks[..first];
    if all.turnStartBlocks == full.turnStartBlocks {
      forall id | id in full.turnStartBlocks ensures full.turnStartBlocks[id] < |full.blocks| {
        assert id in all.turnStartBlocks;
      }
    }
    if full.pendingStep.Some? {
      PrefixRestored(full.blocks[..first], full.pendingStep.value.blocks);
    }
  }

  lemma PrefixRestored(prefix: seq<Block>, blocks: seq<Block>)
    ensures prefix + blocks[Min(|prefix|, |blocks|)..] == blocks <==> prefix <= blocks
  {
    if prefix + blocks[Min(|prefix|, |blocks|)..] == blocks {
      assert blocks[..|prefix|] == prefix;
    }
  }

  /** The paging round trip: the latest window, then every earlier page prepended, rebuilds
      the full blocks always, and the whole state exactly when it is reloadable. */
  lemma PagingRoundTrip(full: Conversation, request: Request, targets: nat -> Option<Id>)
    requires request.before.None?
    ensures HistoryWindow(full, request).Page?
    ensures var first := WindowStart(full.blocks, request, |full.blocks|);
      var view := HistoryWindow(full, request).window.view;
      && first <= |full.blocks|
      && var all := LoadAll(full, view, first, targets);
      && all.blocks == full.blocks
      && (all == full <==> Reloadable(full, first))
  {
    FirstPage(full, request);
    var first := WindowStart(full.blocks, request, |full.blocks|);
    LoadAllLoads(full, first, first, targets);
    LoadedIffReloadable(full, first);
  }

  // ----- Where the pending turn goes -----

  lemma {:induction false} BelowAll(starts: seq<nat>, blocks: seq<Block>)
    requires blocks != []
    requires forall i :: 0 <= i < |starts| ==> StartsWork(blocks, starts[i])
    ensures Below(starts, |blocks|) == starts
  {
    if starts != [] {
      BelowAll(starts[..|starts| - 1], blocks);
      assert starts == starts[..|starts| - 1] + [starts[|starts| - 1]];
    }
  }

  /** Where the latest window opens: at the first of the last works a page holds. */
  function LatestStart(starts: seq<nat>): nat { if |starts| > WORKS_PER_PAGE then starts[|starts| - WORKS_PER_PAGE] else 0 }

  lemma LatestIs(blocks: seq<Block>, end: nat)
    ensures var starts := Below(WorkStarts(blocks), end);
      WindowStart(blocks, LATEST, end) == if starts == [] then 0 else if |starts| > WORKS_PER_PAGE then LatestStart(starts) else starts[0]
  {
    hide WorkStarts, Below, FindIndex, WorkStartAt;
  }

  lemma NoBlocks()
    ensures WorkStarts([]) == [0] && Below([0], 0) == []
  {
    assert [0][..0] == [];
  }

  lemma StartsInside(blocks: seq<Block>)
    requires blocks != []
    ensures Below(WorkStarts(blocks), |blocks|) == WorkStarts(blocks) != []
    ensures WorkStarts(blocks)[0] == 0 && LatestStart(WorkStarts(blocks)) <= |blocks|
  {
    ScanIsGood(blocks);
    BelowAll(WorkStarts(blocks), blocks);
    hide ScanAll, Below;
    var starts := WorkStarts(blocks);
    assert forall i :: 0 <= i < |starts| ==> StartsWork(blocks, starts[i]) && starts[i] <= |blocks|;
  }

  lemma LatestWindow(blocks: seq<Block>)
    ensures WindowStart(blocks, LATEST, |blocks|) == LatestStart(WorkStarts(blocks)) <= |blocks|
  {
    LatestIs(blocks, |blocks|);
    if blocks == [] { NoBlocks(); } else { StartsInside(blocks); }
    hide WindowStart, WorkStarts, Below;
  }

  /** Of any conversation: its pages bring a pending turn back if and only if that begins in the
      works of the latest page, and lose it otherwise, with all blocks there. */
  lemma PendingTurnLostIff(full: Conversation, targets: nat -> Option<Id>)
    requires full.pendingTurnStart.Some?
    ensures var first := LatestStart(WorkStarts(full.blocks));
      && first <= |full.blocks| && HistoryWindow(full, LATEST).Page?
      && var all := LoadAll(full, HistoryWindow(full, LATEST).window.view, first, targets);
      && all.blocks == full.blocks
      && all.pendingTurnStart == if first <= full.pendingTurnStart.value < |full.blocks| then full.pendingTurnStart else None
  {
    var first := LatestStart(WorkStarts(full.blocks));
    LatestWindow(full.blocks);
    FirstPage(full, LATEST);
    LoadAllLoads(full, first, first, targets);
    hide LatestStart;
  }

  // ----- A state that its pages do not add up to -----

  /** `n` works of one message each. */
  function Works(n: nat): seq<Block> {
    if n == 0 then [] else Works(n - 1) + [User("message", None, None)] + [WorkDuration("work", None)]
  }

  function EvenNumbers(n: nat): (numbers: seq<nat>)
    ensures |numbers| == n && forall i :: 0 <= i < n ==> numbers[i] == 2 * i
  {
    if n == 0 then [] else EvenNumbers(n - 1) + [2 * (n - 1)]
  }

  lemma {:induction false} WorksScan(n: nat)
    requires n > 0
    ensures |Works(n)| == 2 * n
    ensures ScanAll(Works(n)) == Scan(EvenNumbers(n), 2 * n, None)
  {
    var before := if n == 1 then [] else Works(n - 1);
    if n > 1 { WorksScan(n - 1); }
    var user, duration := User("message", None, None), WorkDuration("work", None);
    ScanSnoc(before, user);
    ScanSnoc(before + [user], duration);
    assert EvenNumbers(1) == [0];
  }

  lemma ScanSnoc(blocks: seq<Block>, block: Block)
    ensures ScanAll(blocks + [block]) == ScanBlock(ScanAll(blocks), block, |blocks|)
  {
    assert (blocks + [block])[..|blocks|] == blocks;
  }

  /** A turn pending since the first work. */
  function LongConversation(n: nat): Conversation { Conversation(Works(n), {}, map[], Some(0), None, 0) }

  /** Such a conversation is not reloadable: it comes back with all its blocks but without the turn. */
  lemma PendingTurnIsLost(n: nat, targets: nat -> Option<Id>)
    requires n > WORKS_PER_PAGE
    ensures var full := LongConversation(n);
      var first := WindowStart(full.blocks, LATEST, |full.blocks|);
      && first == 2 * (n - WORKS_PER_PAGE) <= |full.blocks| && !Reloadable(full, first)
      && HistoryWindow(full, LATEST).Page?
      && LoadAll(full, HistoryWindow(full, LATEST).window.view, first, targets) == full.(pendingTurnStart := None)
  {
    var full := LongConversation(n);
    WorksScan(n);
    LatestWindow(full.blocks);
    FirstPage(full, LATEST);
    var first := WindowStart(full.blocks, LATEST, |full.blocks|);
    LoadAllLoads(full, first, first, targets);
    assert full.blocks[0..] == full.blocks;
    assert Loaded(full, 0, first).turnStartBlocks == map[];
    assert Loaded(full, 0, first).expanded == {};
  }

  // ----- Pages of a conversation that goes on -----

  ghost predicate SamePrefix(xs: seq<Block>, ys: seq<Block>, end: nat) {
    end <= |xs| && end <= |ys| && xs[..end] == ys[..end]
  }

  lemma {:induction false} StartsBelowStable(blocks: seq<Block>, end: nat)
    requires end <= |blocks| && (end > 0 ==> blocks[end - 1].WorkDuration?)
    ensures ScanAll(blocks).boundary == 0 || ScanAll(blocks).boundary >= end
    ensures end > 0 ==> Below(WorkStarts(blocks), end) == WorkStarts(blocks[..end])
    decreases |blocks|
  {
    if |blocks| == end {
      ScanIsGood(blocks);
      assert blocks[..end] == blocks;
      if end > 0 {
        BelowAll(WorkStarts(blocks), blocks);
      }
    } else {
      var init := blocks[..|blocks| - 1];
      StartsBelowStable(init, end);
      assert init[..end] == blocks[..end];
      var before, after := WorkStarts(init), WorkStarts(blocks);
      if after != before {
        assert after[..|before|] == before;
      }
    }
  }

  lemma {:induction false} FindIndexStable(blocks: seq<Block>, id: Id, end: nat)
    requires end <= |blocks|
    ensures var found := FindIndex(blocks, id);
      FindIndex(blocks[..end], id) == if found < end then found else -1
  {
    if |blocks| == end {
      assert blocks[..end] == blocks;
    } else {
      var init := blocks[..|blocks| - 1];
      FindIndexStable(init, id, end);
      assert init[..end] == blocks[..end];
    }
  }

  lemma WorkStartAtEnd(starts: seq<nat>, index: int, end: nat)
    requires starts != [] && Ascending(starts) && starts[|starts| - 1] <= end <= index
    ensures WorkStartAt(starts, index) == starts[|starts| - 1]
    ensures forall i :: 0 <= i < |starts| ==> starts[i] <= WorkStartAt(starts, index)
  {}

  lemma NamedStable(blocks: seq<Block>, id: Option<Id>, end: nat)
    requires end <= |blocks|
    ensures var found := Named(blocks, id);
      Named(blocks[..end], id) == if found < end then found else -1
  {
    if Given(id) { FindIndexStable(blocks, id.value, end); }
  }

  lemma RestoredStable(starts: seq<nat>, end: nat, first: nat, found: int)
    requires starts != [] && Ascending(starts) && starts[|starts| - 1] <= end
    requires exists i :: 0 <= i < |starts| && starts[i] == first
    ensures end <= found ==> Min(first, WorkStartAt(starts, found)) == first
  {
    if end <= found { WorkStartAtEnd(starts, found, end); }
  }

  /** Where a page opens depends on nothing after the page. */
  lemma WindowStartStable(blocks: seq<Block>, request: Request, end: nat)
    requires 0 < end <= |blocks| && blocks[end - 1].WorkDuration?
    ensures WindowStart(blocks, request, end) == WindowStart(blocks[..end], request, end)
  {
    var prefix := blocks[..end];
    var starts := WorkStarts(prefix);
    assert Below(WorkStarts(blocks), end) == starts == Below(starts, end) by {
      hide ScanAll;
      StartsBelowStable(blocks, end);
      StartsBelowStable(prefix, end);
      assert prefix[..end] == prefix;
    }
    assert starts != [] && Ascending(starts) && starts[|starts| - 1] <= end by {
      ScanIsGood(prefix);
      assert StartsWork(prefix, starts[|starts| - 1]);
    }
    NamedStable(blocks, request.targetId, end);
    NamedStable(blocks, request.from, end);
    var size := if Given(request.targetId) then JUMP_WORKS_PER_PAGE else WORKS_PER_PAGE;
    RestoredStable(starts, end, starts[if |starts| > size then |starts| - size else 0], Named(blocks, request.from));
    hide ScanAll, WorkStarts, FindIndex, WorkStartAt, Below;
  }

  /** Two conversations that agree on all they say of their first `end` blocks, and whose
      unfinished steps do not end there. */
  ghost predicate SameBelow(state: Conversation, later: Conversation, end: nat)
    requires SamePrefix(state.blocks, later.blocks, end)
  {
    && (forall id :: id in Included(state.blocks[..end]) ==> (id in state.expanded <==> id in later.expanded))
    && IndexesWithin(state.turnStartBlocks, 0, end) == IndexesWithin(later.turnStartBlocks, 0, end)
    && (forall index :: index < end ==> (state.pendingTurnStart == Some(index) <==> later.pendingTurnStart == Some(index)))
    && (|state.blocks| == end ==> state.pendingStep.None?)
    && (|later.blocks| == end ==> later.pendingStep.None?)
  }

  lemma CutStable(state: Conversation, later: Conversation, start: nat, end: nat)
    requires SamePrefix(state.blocks, later.blocks, end) && SameBelow(state, later, end)
    requires start <= end
    ensures Cut(state, start, end) == Cut(later, start, end).(rest := state.rest)
  {
    var prefix := state.blocks[..end];
    assert state.blocks[start..end] == prefix[start..] == later.blocks[start..end];
    assert prefix[..start] + prefix[start..] == prefix;
    IncludedConcat(prefix[..start], prefix[start..]);
    var cut, same := Cut(state, start, end), Cut(later, start, end);
    assert cut.expanded == same.expanded by { hide Included; }
    IndexesInsideStable(state.turnStartBlocks, later.turnStartBlocks, start, end);
  }

  lemma IndexesInsideStable(indexes: map<Id, nat>, later: map<Id, nat>, start: nat, end: nat)
    requires IndexesWithin(indexes, 0, end) == IndexesWithin(later, 0, end)
    ensures IndexesWithin(indexes, start, end) == IndexesWithin(later, start, end)
  {
    forall id ensures id in IndexesWithin(indexes, start, end) <==> id in IndexesWithin(later, start, end)
      ensures IndexWithin(indexes, id, start, end) == IndexWithin(later, id, start, end)
    {
      assert id in IndexesWithin(indexes, 0, end) <==> id in IndexesWithin(later, 0, end);
      assert id in IndexesWithin(indexes, 0, end) ==> IndexesWithin(indexes, 0, end)[id] == indexes[id] == later[id];
    }
  }

  /** An older page does not depend on what happened after it: a conversation that went on,
      or was rolled back no further than the page's end, yields the same page, and where it
      says the same of the blocks before that end, the whole view but the fields passed through. */
  lemma PagesAreStable(state: Conversation, later: Conversation, request: Request, end: nat)
    requires request.before == Some(end) && SamePrefix(state.blocks, later.blocks, end)
    requires 0 < end && state.blocks[end - 1].WorkDuration?
    ensures HistoryWindow(state, request).Page? && HistoryWindow(later, request).Page?
    ensures var (page, same) := (HistoryWindow(state, request).window, HistoryWindow(later, request).window);
      && page.view.blocks == same.view.blocks
      && page.before == same.before
      && (SameBelow(state, later, end) ==> page.view == same.view.(rest := state.rest))
  {
    hide WindowStart, SameBelow, IndexesWithin;
    assert state.blocks[..end][end - 1] == later.blocks[..end][end - 1];
    WindowStartStable(state.blocks, request, end);
    WindowStartStable(later.blocks, request, end);
    WindowOpensAtWork(state.blocks, request, end);
    var start := WindowStart(state.blocks, request, end);
    assert state.blocks[start..end] == state.blocks[..end][start..] == later.blocks[start..end];
    if SameBelow(state, later, end) { CutStable(state, later, start, end); }
  }
}
