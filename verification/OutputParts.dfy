/** A tool's output that arrives in parts, each the pipeline's form of its own chunks: the copy's
    drafts, then batch after batch. Whoever shows it appends part to part. */
module OutputParts {
  import opened Options
  import opened Utf16
  import opened ToolOutput
  import opened Runs
  import opened ProgressRuns

  /** The raw stream of each part. */
  function Wholes(parts: seq<seq<Text>>): (r: seq<Text>)
    ensures |r| == |parts| && forall i :: 0 <= i < |r| ==> r[i] == Concat(parts[i])
  {
    seq(|parts|, i requires 0 <= i < |parts| => Concat(parts[i]))
  }

  ghost predicate NoneEmpty(parts: seq<seq<Text>>) { forall i :: 0 <= i < |parts| ==> parts[i] != [] }

  /** What is handed over of each part. */
  function ShownParts(parts: seq<seq<Text>>): (r: seq<Text>)
    requires NoneEmpty(parts)
    ensures |r| == |parts| && forall i :: 0 <= i < |r| ==> r[i] == PipelineFold(parts[i])
  {
    seq(|parts|, i requires 0 <= i < |parts| => PipelineFold(parts[i]))
  }

  /** The tail of a long stream begins with the second half of a pair. */
  predicate CutsPair(stream: Text) { |stream| >= BODY_LIMIT && SplitsPair(stream, |stream| - BODY_LIMIT) }

  /** The last part with any text has been truncated between the halves of a pair. */
  predicate StrayPart(parts: seq<seq<Text>>) {
    parts != [] &&
    var last := parts[|parts| - 1];
    if Concat(last) == [] then StrayPart(parts[..|parts| - 1]) else PipelineTruncates(last) && CutsPair(Concat(last))
  }

  lemma TailLength(stream: Text)
    requires |stream| >= BODY_LIMIT
    ensures |SafeSuffix(stream, BODY_LIMIT)| == if CutsPair(stream) then BODY_LIMIT - 1 else BODY_LIMIT
  {}

  /** Appending a part that carries the marker already. */
  lemma AppendMarked(acc: Text, body: Text)
    requires BODY_LIMIT - 1 <= |body| <= BODY_LIMIT
    ensures Append(acc, MARKER + body) == MARKER + if |body| == BODY_LIMIT then body else LINE_FEED + body
  {
    MarkerTail();
    SuffixOfMarked(body);
    if |body| == BODY_LIMIT - 1 { CutMarked(body); }
    hide MARKER, SafeSuffix;
  }

  lemma AppendStray(acc: Text, body: Text)
    requires |body| == BODY_LIMIT - 1
    ensures Append(acc, MARKER + LINE_FEED + body) == MARKER + LINE_FEED + body
  {
    MarkerTail();
    hide MARKER;
    assert MARKER + (LINE_FEED + body) == MARKER + LINE_FEED + body;
    SuffixOfMarked(LINE_FEED + body);
  }

  lemma PartStep(acc: Text, w: Text, truncated: bool, stray: bool, part: Text, n: Text, cut: bool, strayCut: bool)
    requires if truncated then |w| >= BODY_LIMIT else |w| <= MAX_VISIBLE
    requires stray ==> truncated && |SafeSuffix(w, BODY_LIMIT)| == BODY_LIMIT - 1
    requires if cut then |n| >= BODY_LIMIT else |n| <= MAX_VISIBLE
    requires strayCut ==> cut && |SafeSuffix(n, BODY_LIMIT)| == BODY_LIMIT - 1
    requires n != [] ==> !Low(n[0])
    requires acc == PipelineShown(w, truncated, stray) && part == PipelineShown(n, cut, strayCut)
    ensures var strays := if n == [] then stray else cut && CutsPair(n);
      && Append(acc, part) == PipelineShown(w + n, truncated || |w + n| > MAX_VISIBLE || |n| >= BODY_LIMIT, strays)
      && (strays ==> |SafeSuffix(w + n, BODY_LIMIT)| == BODY_LIMIT - 1)
  {
    if cut {
      TailLength(n);
      SuffixInsideTail(w, n, BODY_LIMIT);
      var body := SafeSuffix(n, BODY_LIMIT);
      hide SafeSuffix, Append, MARKER, CutsPair;
      if strayCut { AppendStray(acc, body); } else { AppendMarked(acc, body); }
      assert MARKER + (LINE_FEED + body) == MARKER + LINE_FEED + body;
    } else {
      PipelineStep(acc, w, truncated, stray, n);
      hide SafeSuffix, Append, MARKER;
    }
  }

  lemma {:induction false} ConcatOpens(chunks: seq<Text>)
    requires OpenOnBoundary(chunks)
    ensures Concat(chunks) != [] ==> !Low(Concat(chunks)[0])
  {
    if chunks != [] {
      ConcatOpens(chunks[..|chunks| - 1]);
    }
  }

  lemma FitsUnlessTruncated(chunks: seq<Text>)
    ensures !Truncates(chunks) ==> |Concat(chunks)| <= MAX_VISIBLE
  {}

  lemma LastPart(parts: seq<seq<Text>>)
    requires NoneEmpty(parts) && parts != []
    ensures var k := |parts| - 1; var init := parts[..k];
      && NoneEmpty(init)
      && Wholes(parts)[..k] == Wholes(init) && Concat(Wholes(parts)) == Concat(Wholes(init)) + Concat(parts[k])
      && FoldAppend(ShownParts(parts)) == Append(FoldAppend(ShownParts(init)), PipelineFold(parts[k]))
  {
    hide PipelineFold, Append;
    var k := |parts| - 1;
    assert Wholes(parts)[..k] == Wholes(parts[..k]);
    assert ShownParts(parts)[..k] == ShownParts(parts[..k]);
  }

  ghost predicate EachOpens(parts: seq<seq<Text>>) { forall i :: 0 <= i < |parts| ==> OpenOnBoundary(parts[i]) }

  /** Part appended to part, in closed form: where the parts were cut matters only through the
      lengths of their streams and a truncation that split a pair. */
  lemma {:induction false} PartsStream(parts: seq<seq<Text>>)
    requires NoneEmpty(parts) && EachOpens(parts)
    ensures FoldAppend(ShownParts(parts)) == PipelineShown(Concat(Wholes(parts)), Truncates(Wholes(parts)), StrayPart(parts))
    ensures Truncates(Wholes(parts)) ==> |Concat(Wholes(parts))| >= BODY_LIMIT
    ensures StrayPart(parts) ==> Truncates(Wholes(parts)) && |SafeSuffix(Concat(Wholes(parts)), BODY_LIMIT)| == BODY_LIMIT - 1
  {
    if parts == [] {
      return;
    }
    hide PipelineFold, PipelineTruncates, Truncates, FoldAppend, Append, SafeSuffix, MARKER, Concat, Stray, CutsPair, PipelineShown;
    var k := |parts| - 1;
    var init, last := parts[..k], parts[k];
    LastPart(parts);
    PartsStream(init);
    PipelineStream(last);
    PipelineFits(last);
    ConcatOpens(last);
    TruncatesStep(Wholes(parts));
    FitsUnlessTruncated(Wholes(init));
    PartStep(FoldAppend(ShownParts(init)), Concat(Wholes(init)), Truncates(Wholes(init)), StrayPart(init),
             PipelineFold(last), Concat(last), PipelineTruncates(last), Stray(last));
  }

  // ----- Against appending the raw chunks -----

  lemma {:induction false} ConcatDistributes(xs: seq<Text>, ys: seq<Text>)
    ensures Concat(xs + ys) == Concat(xs) + Concat(ys)
  {
    if ys == [] {
      assert xs + ys == xs;
    } else {
      var init := ys[..|ys| - 1];
      ConcatDistributes(xs, init);
      assert (xs + ys)[..|xs + ys| - 1] == xs + init;
    }
  }

  lemma {:induction false} ConcatOfParts(parts: seq<seq<Text>>)
    ensures Concat(Wholes(parts)) == Concat(Flatten(parts))
  {
    if parts != [] {
      var k := |parts| - 1;
      ConcatOfParts(parts[..k]);
      assert Wholes(parts)[..k] == Wholes(parts[..k]);
      ConcatDistributes(Flatten(parts[..k]), parts[k]);
    }
  }

  lemma PartsOpen(parts: seq<seq<Text>>)
    requires OpenOnBoundary(Flatten(parts))
    ensures EachOpens(parts)
  {
    hide Flatten;
    forall i | 0 <= i < |parts| ensures OpenOnBoundary(parts[i]) {
      RunAt(parts, i);
      var a := |Flatten(parts[..i])|;
      assert forall j :: 0 <= j < |parts[i]| ==> parts[i][j] == Flatten(parts)[a + j];
    }
  }

  lemma StrayIsSeen(stream: Text, truncated: bool)
    requires |SafeSuffix(stream, BODY_LIMIT)| == BODY_LIMIT - 1
    ensures MARKER + LINE_FEED + SafeSuffix(stream, BODY_LIMIT) != Shown(stream, truncated)
  {
    hide MARKER, SafeSuffix;
    var body := SafeSuffix(stream, BODY_LIMIT);
    assert MARKER + (LINE_FEED + body) == MARKER + LINE_FEED + body;
    SuffixOfMarked(LINE_FEED + body);
  }

  /** However a tool's raw output was cut into parts on its way, what is shown in the end is what
      appending the raw chunks would show, if and only if no part was truncated inside a pair at
      the end and the parts agree with the chunks on whether to truncate. */
  lemma PartsAgreeIff(parts: seq<seq<Text>>)
    requires NoneEmpty(parts) && OpenOnBoundary(Flatten(parts))
    ensures var raw := Flatten(parts);
      && FoldAppend(ShownParts(parts)) == PipelineShown(Concat(raw), Truncates(Wholes(parts)), StrayPart(parts))
      && (FoldAppend(ShownParts(parts)) == FoldAppend(raw) <==>
            !StrayPart(parts) && (Truncates(Wholes(parts)) == Truncates(raw) || Bounded(Concat(raw)) == Concat(raw)))
  {
    var raw := Flatten(parts);
    PartsOpen(parts);
    PartsStream(parts);
    ChunkedStream(raw);
    ConcatOfParts(parts);
    hide Flatten, Truncates, FoldAppend, StrayPart, MARKER, SafeSuffix;
    if StrayPart(parts) { StrayIsSeen(Concat(raw), Truncates(raw)); }
  }

  /** That does make a difference: two short chunks that together fill the body limit are shown
      whole one by one, and as cut where they came merged. */
  lemma MergingCanMatter()
    ensures exists parts ::
      && NoneEmpty(parts) && (forall p <- parts :: AllWellFormed(p))
      && FoldAppend(ShownParts(parts)) != FoldAppend(Flatten(parts))
  {
    var whole: Text := seq(BODY_LIMIT, i => 0x61);
    var part := [whole[..1], whole[1..]];
    PlainIsWellFormed(whole[..1]);
    PlainIsWellFormed(whole[1..]);
    ConcatOfFew(whole, whole[..1], whole[1..]);
    assert OpenOnBoundary(part);
    hide *;
    OnePartCut([part], part, whole);
  }

  lemma OnePartCut(parts: seq<seq<Text>>, part: seq<Text>, whole: Text)
    requires parts == [part] && |part| == 2 && Concat(part) == whole && |whole| == BODY_LIMIT && whole[0] == 0x61
    requires AllWellFormed(part) && OpenOnBoundary(part) && |part[0]| < BODY_LIMIT && |part[1]| < BODY_LIMIT
    ensures NoneEmpty(parts) && (forall p <- parts :: AllWellFormed(p))
    ensures FoldAppend(ShownParts(parts)) != FoldAppend(Flatten(parts))
  {
    hide FoldAppend, PipelineFold, Concat, AllWellFormed, SafeSuffix;
    assert [part][..0] == [] && Flatten(parts) == part;
    PartsAgreeIff(parts);
    ConcatOfParts(parts);
    assert |Wholes(parts)[0]| >= BODY_LIMIT;
    assert Bounded(whole)[0] == 0x5B;
  }

  // ----- The parts of one tool -----

  /** What an element adds to the output of a tool. */
  function OfTool<T>(progressOf: T -> Option<Progress>, tool: nat): T -> seq<Text> {
    x => match progressOf(x)
         case Some(p) => if p.tool == tool then [p.output] else []
         case None => []
  }

  /** The outputs of a tool, as far as it is not read closer what carries them. */
  function OutputsFor<T>(progressOf: T -> Option<Progress>, xs: seq<T>, tool: nat): seq<Text> {
    FlatMap(OfTool(progressOf, tool), xs)
  }

  function Itself(p: Option<Progress>): Option<Progress> { p }

  function RawFor(raw: seq<Option<Progress>>, tool: nat): seq<Text> { OutputsFor(Itself, raw, tool) }

  lemma OutputsForConcat<T>(progressOf: T -> Option<Progress>, xs: seq<T>, ys: seq<T>, tool: nat)
    ensures OutputsFor(progressOf, xs + ys, tool) == OutputsFor(progressOf, xs, tool) + OutputsFor(progressOf, ys, tool)
  {
    FlatMapConcat(OfTool(progressOf, tool), xs, ys);
  }

  lemma OutputsForSnoc<T>(progressOf: T -> Option<Progress>, xs: seq<T>, x: T, tool: nat)
    ensures OutputsFor(progressOf, xs + [x], tool) == OutputsFor(progressOf, xs, tool) + OfTool(progressOf, tool)(x)
  {
    FlatMapSnoc(OfTool(progressOf, tool), xs, x);
  }

  predicate IsOf(p: Option<Progress>, tool: nat) { p.Some? && p.value.tool == tool }

  lemma {:induction false} RawOfAll(raw: seq<Option<Progress>>, tool: nat)
    requires forall i :: 0 <= i < |raw| ==> IsOf(raw[i], tool)
    ensures RawFor(raw, tool) == RawOutputs(raw)
  {
    if raw == [] {
      assert Contents(OfTool(Itself, tool), raw) == [];
    } else {
      hide FlatMap;
      var k := |raw| - 1;
      RawOfAll(raw[..k], tool);
      OutputsForSnoc(Itself, raw[..k], raw[k], tool);
      assert raw == raw[..k] + [raw[k]];
      assert IsOf(raw[k], tool) && Itself(raw[k]) == raw[k];
      assert OfTool(Itself, tool)(raw[k]) == [raw[k].value.output];
      assert RawOutputs(raw) == RawOutputs(raw[..k]) + [raw[k].value.output];
    }
  }

  lemma {:induction false} RawOfNone(raw: seq<Option<Progress>>, tool: nat)
    requires forall i :: 0 <= i < |raw| ==> !IsOf(raw[i], tool)
    ensures RawFor(raw, tool) == []
  {
    if raw == [] {
      assert Contents(OfTool(Itself, tool), raw) == [];
    } else {
      hide FlatMap;
      var k := |raw| - 1;
      RawOfNone(raw[..k], tool);
      OutputsForSnoc(Itself, raw[..k], raw[k], tool);
      assert raw == raw[..k] + [raw[k]];
      assert !IsOf(raw[k], tool) && Itself(raw[k]) == raw[k];
      assert OfTool(Itself, tool)(raw[k]) == [];
    }
  }

  lemma RawOfOneTool(raw: seq<Option<Progress>>, tool: nat)
    requires OneTool(raw)
    ensures RawFor(raw, tool) == if raw != [] && IsOf(raw[0], tool) then RawOutputs(raw) else []
  {
    forall i | 0 <= i < |raw| ensures IsOf(raw[i], tool) == IsOf(raw[0], tool) {
      assert SameTool(raw[0], raw[i]);
    }
    if raw != [] && IsOf(raw[0], tool) { RawOfAll(raw, tool); } else { RawOfNone(raw, tool); }
  }

  ghost predicate PartsOf(parts: seq<seq<Text>>, shown: seq<Text>, raw: seq<Text>) {
    NoneEmpty(parts) && ShownParts(parts) == shown && Flatten(parts) == raw
  }

  lemma PartsAre(parts: seq<seq<Text>>, shown: seq<Text>, raw: seq<Text>)
    requires PartsOf(parts, shown, raw)
    ensures NoneEmpty(parts) && ShownParts(parts) == shown && Flatten(parts) == raw
  {}

  lemma NoParts()
    ensures PartsOf([], [], [])
  {}

  lemma PartsConcat(parts: seq<seq<Text>>, more: seq<seq<Text>>, shown: seq<Text>, shownMore: seq<Text>, raw: seq<Text>, rawMore: seq<Text>)
    requires PartsOf(parts, shown, raw) && PartsOf(more, shownMore, rawMore)
    ensures PartsOf(parts + more, shown + shownMore, raw + rawMore)
  {
    hide PipelineFold, Flatten;
    FlattenConcat(parts, more);
    assert ShownParts(parts + more) == ShownParts(parts) + ShownParts(more);
  }

  lemma OnePart(part: seq<Text>)
    requires part != []
    ensures PartsOf([part], [PipelineFold(part)], part)
  {
    assert [part][..0] == [];
  }

  /** What one merged element shows of a tool is one part, or nothing. */
  lemma PartOfRun<T>(progressOf: T -> Option<Progress>, x: T, raw: seq<Option<Progress>>, tool: nat) returns (parts: seq<seq<Text>>)
    requires raw != [] && OneTool(raw) && progressOf(x) == ShownOf(raw)
    ensures PartsOf(parts, OfTool(progressOf, tool)(x), RawFor(raw, tool))
  {
    hide PipelineFold, OneTool;
    RawOfOneTool(raw, tool);
    if IsOf(raw[0], tool) {
      parts := [RawOutputs(raw)];
      OnePart(RawOutputs(raw));
    } else {
      parts := [];
      NoParts();
    }
  }

  /** The merged elements of the first `j` runs. */
  lemma {:induction false} PartsOfRuns<T>(progressOf: T -> Option<Progress>, runs: seq<seq<T>>, raw: seq<Option<Progress>>, shown: seq<T>, tool: nat, j: nat)
    returns (parts: seq<seq<Text>>)
    requires ShowsRuns(progressOf, runs, raw, shown) && j <= |runs|
    ensures |Flatten(runs[..j])| <= |raw|
    ensures PartsOf(parts, OutputsFor(progressOf, shown[..j], tool), RawFor(raw[..|Flatten(runs[..j])|], tool))
  {
    hide PartsOf, OneTool, ShownOf, OfTool;
    if j == 0 {
      parts := [];
      NoParts();
      assert Contents(OfTool(progressOf, tool), shown[..0]) == [] && Contents(OfTool(Itself, tool), raw[..0]) == [];
    } else {
      parts := PartsOfRuns(progressOf, runs, raw, shown, tool, j - 1);
      hide FlatMap;
      assert ShowsRun(progressOf, runs, raw, shown, j - 1);
      var a, b := |Flatten(runs[..j - 1])|, |Flatten(runs[..j - 1])| + |runs[j - 1]|;
      assert runs[..j][..j - 1] == runs[..j - 1];
      assert |Flatten(runs[..j])| == b;
      var more := PartOfRun(progressOf, shown[j - 1], raw[a..b], tool);
      PartsConcat(parts, more, OutputsFor(progressOf, shown[..j - 1], tool), OfTool(progressOf, tool)(shown[j - 1]),
                  RawFor(raw[..a], tool), RawFor(raw[a..b], tool));
      OutputsForSnoc(progressOf, shown[..j - 1], shown[j - 1], tool);
      OutputsForConcat(Itself, raw[..a], raw[a..b], tool);
      assert shown[..j] == shown[..j - 1] + [shown[j - 1]] && raw[..b] == raw[..a] + raw[a..b];
      parts := parts + more;
    }
  }

  function GroupEach<T>(combine: (T, T) -> Option<T>, segments: seq<seq<T>>): (r: seq<seq<T>>)
    ensures |r| == |segments| && forall i :: 0 <= i < |r| ==> r[i] == Group(combine, segments[i])
  {
    seq(|segments|, i requires 0 <= i < |segments| => Group(combine, segments[i]))
  }

  lemma GroupedParts<T(!new)>(combine: (T, T) -> Option<T>, linked: (T, T) -> bool, progressOf: T -> Option<Progress>,
                              xs: seq<T>, raw: seq<Option<Progress>>, tool: nat) returns (parts: seq<seq<Text>>)
    requires Lawful(combine, linked) && Appends(combine, linked, progressOf) && FromRaw(progressOf, xs, raw)
    ensures PartsOf(parts, OutputsFor(progressOf, Group(combine, xs), tool), RawFor(raw, tool))
  {
    hide Lawful, Appends, PartsOf, ShowsRuns, Group, MergeAll;
    var runs := GroupShowsOutput(combine, linked, progressOf, xs, raw);
    var shown := Group(combine, xs);
    parts := PartsOfRuns(progressOf, runs, raw, shown, tool, |runs|);
    ShowsAll(progressOf, runs, raw, shown);
    assert runs[..|runs|] == runs && shown[..|runs|] == shown && raw[..|raw|] == raw;
  }

  lemma ShowsAll<T>(progressOf: T -> Option<Progress>, runs: seq<seq<T>>, raw: seq<Option<Progress>>, shown: seq<T>)
    requires ShowsRuns(progressOf, runs, raw, shown)
    ensures |shown| == |runs|
  {}

  /** What segment after segment shows of a tool are parts of its raw output, however the
      segments were cut. */
  lemma {:induction false} SegmentedParts<T(!new)>(combine: (T, T) -> Option<T>, linked: (T, T) -> bool, progressOf: T -> Option<Progress>,
                                                   segments: seq<seq<T>>, raw: seq<Option<Progress>>, tool: nat)
    returns (parts: seq<seq<Text>>)
    requires Lawful(combine, linked) && Appends(combine, linked, progressOf) && FromRaw(progressOf, Flatten(segments), raw)
    ensures PartsOf(parts, OutputsFor(progressOf, Flatten(GroupEach(combine, segments)), tool), RawFor(raw, tool))
  {
    hide Lawful, Appends, PartsOf, Group, Shortened, OfTool;
    if segments == [] {
      parts := [];
      NoParts();
      assert Contents(OfTool(progressOf, tool), Flatten(GroupEach(combine, segments))) == [] && Contents(OfTool(Itself, tool), raw) == [];
    } else {
      hide FlatMap;
      var k := |segments| - 1;
      var a := |Flatten(segments[..k])|;
      var before, last := raw[..a], raw[a..];
      assert Flatten(segments) == Flatten(segments[..k]) + segments[k];
      parts := SegmentedParts(combine, linked, progressOf, segments[..k], before, tool);
      var more := GroupedParts(combine, linked, progressOf, segments[k], last, tool);
      var grouped := Flatten(GroupEach(combine, segments[..k]));
      assert GroupEach(combine, segments)[..k] == GroupEach(combine, segments[..k]);
      OutputsForConcat(progressOf, grouped, Group(combine, segments[k]), tool);
      OutputsForConcat(Itself, before, last, tool);
      assert raw == before + last;
      PartsConcat(parts, more, OutputsFor(progressOf, grouped, tool), OutputsFor(progressOf, Group(combine, segments[k]), tool),
                  RawFor(before, tool), RawFor(last, tool));
      parts := parts + more;
    }
  }
}
