/** The bounded tail of a tool's output that the visible timeline keeps. */
module ToolOutput {
  import opened Utf16

  const MAX_VISIBLE := 64 * 1024

  /** "[较早的工具输出已省略]" and a line feed: earlier tool output omitted. */
  const MARKER: Text := [0x5B, 0x8F83, 0x65E9, 0x7684, 0x5DE5, 0x5177, 0x8F93, 0x51FA, 0x5DF2, 0x7701, 0x7565, 0x5D, 0x0A]

  const BODY_LIMIT := 65523

  /** What is shown of a stream that no longer fits. */
  function Bounded(stream: Text): (r: Text)
    ensures |r| <= MAX_VISIBLE
  {
    MARKER + SafeSuffix(stream, BODY_LIMIT)
  }

  function Truncate(output: Text): (r: Text)
    ensures |r| <= MAX_VISIBLE
  {
    if |output| <= MAX_VISIBLE then output else Bounded(output)
  }

  predicate Marked(text: Text) { MARKER <= text }

  function Append(previous: Text, next: Text): (r: Text)
    ensures |r| <= MAX_VISIBLE
  {
    if |next| >= BODY_LIMIT then MARKER + SafeSuffix(next, BODY_LIMIT)
    else
      var previousBody := if Marked(previous) then previous[|MARKER|..] else previous;
      if !Marked(previous) && |previousBody| + |next| <= MAX_VISIBLE then previousBody + next
      else MARKER + SafeSuffix(previousBody, BODY_LIMIT - |next|) + next
  }

  // ----- Algebra of safe suffixes -----

  lemma SuffixThenAppend(w: Text, n: Text, k: nat)
    requires 0 < k
    ensures SafeSuffix(w, k) + n == SafeSuffix(w + n, k + |n|)
  {
    var start := Max(0, |w| - k);
    assert start < |w| || w == [];
    assert SplitsPair(w, start) == SplitsPair(w + n, start);
  }

  /** Where the safe suffix of a text begins. */
  function SuffixStart(w: Text, k: nat): (start: nat)
    ensures start <= |w|
  {
    var start := Max(0, |w| - k);
    if SplitsPair(w, start) then start + 1 else start
  }

  lemma SuffixIsDrop(w: Text, k: nat)
    ensures SafeSuffix(w, k) == w[SuffixStart(w, k)..]
  {}

  lemma SuffixOfSuffix(w: Text, m: nat, k: nat)
    requires k <= m
    ensures SafeSuffix(SafeSuffix(w, m), k) == SafeSuffix(w, k)
  {
    hide SafeSuffix;
    var d := SuffixStart(w, m);
    var body := w[d..];
    var start := Max(0, |body| - k);
    assert SplitsPair(body, start) == (start > 0 && SplitsPair(w, d + start));
    assert SuffixStart(w, k) == d + SuffixStart(body, k);
    SuffixIsDrop(w, m);
    SuffixIsDrop(w, k);
    SuffixIsDrop(body, k);
  }

  lemma SuffixInsideTail(w: Text, n: Text, k: nat)
    requires k <= |n|
    requires n != [] ==> !Low(n[0])
    ensures SafeSuffix(w + n, k) == SafeSuffix(n, k)
  {
    var start := |n| - k;
    if 0 < start {
      assert SplitsPair(w + n, |w| + start) == SplitsPair(n, start);
    }
  }

  lemma SuffixBeyondDrop(w: Text, d: nat, k: nat)
    requires d + k < |w|
    ensures SafeSuffix(w[d..], k) == SafeSuffix(w, k)
  {
    assert SplitsPair(w[d..], |w| - d - k) == SplitsPair(w, |w| - k);
  }

  // ----- Folding a stream chunk by chunk -----

  function Concat(chunks: seq<Text>): Text {
    if chunks == [] then [] else Concat(chunks[..|chunks| - 1]) + chunks[|chunks| - 1]
  }

  function FoldAppend(chunks: seq<Text>): Text {
    if chunks == [] then [] else Append(FoldAppend(chunks[..|chunks| - 1]), chunks[|chunks| - 1])
  }

  /** Once the stream exceeds the limit, or one chunk alone reaches the body limit,
      the output is shown as a tail, for good. */
  predicate Truncates(chunks: seq<Text>) {
    |Concat(chunks)| > MAX_VISIBLE || exists i :: 0 <= i < |chunks| && |chunks[i]| >= BODY_LIMIT
  }

  /** No chunk opens with the second half of a pair; well-formed chunks never do. */
  predicate OpenOnBoundary(chunks: seq<Text>) {
    forall i :: 0 <= i < |chunks| ==> chunks[i] != [] ==> !Low(chunks[i][0])
  }

  predicate AllWellFormed(chunks: seq<Text>) {
    forall i :: 0 <= i < |chunks| ==> WellFormed(chunks[i])
  }

  function Shown(stream: Text, truncated: bool): Text {
    if truncated then Bounded(stream) else stream
  }

  /** One append keeps the closed form. A stream whose own text starts with the marker
      is no exception: cutting its marker off and putting it back changes nothing. */
  lemma AppendKeepsClosedForm(w: Text, truncated: bool, n: Text)
    requires if truncated then |w| >= BODY_LIMIT else |w| <= MAX_VISIBLE
    requires n != [] ==> !Low(n[0])
    ensures Append(Shown(w, truncated), n)
         == Shown(w + n, truncated || |w + n| > MAX_VISIBLE || |n| >= BODY_LIMIT)
  {
    if |n| >= BODY_LIMIT {
      SuffixInsideTail(w, n, BODY_LIMIT);
    } else {
      var k := BODY_LIMIT - |n|;
      SuffixThenAppend(w, n, k);
      var previous := Shown(w, truncated);
      if truncated {
        assert previous[|MARKER|..] == SafeSuffix(w, BODY_LIMIT);
        SuffixOfSuffix(w, BODY_LIMIT, k);
      } else if Marked(w) {
        var body := w[|MARKER|..];
        assert w == MARKER + body;
        if |w + n| <= MAX_VISIBLE {
          assert SafeSuffix(body, k) == body;
        } else {
          SuffixBeyondDrop(w, |MARKER|, k);
        }
      }
      assert MARKER + SafeSuffix(w, k) + n == MARKER + (SafeSuffix(w, k) + n);
    }
  }

  lemma TruncatesStep(chunks: seq<Text>)
    requires chunks != []
    ensures var k := |chunks| - 1;
      Truncates(chunks) <==> Truncates(chunks[..k]) || |Concat(chunks)| > MAX_VISIBLE || |chunks[k]| >= BODY_LIMIT
  {
    var k := |chunks| - 1;
    var init := chunks[..k];
    if i :| 0 <= i < |init| && |init[i]| >= BODY_LIMIT {
      assert |chunks[i]| >= BODY_LIMIT;
    }
    if i :| 0 <= i < |chunks| && |chunks[i]| >= BODY_LIMIT {
      assert i == k || |init[i]| >= BODY_LIMIT;
    }
  }

  /** The result of any chunked stream in closed form. */
  lemma {:induction false} ChunkedStream(chunks: seq<Text>)
    requires OpenOnBoundary(chunks)
    ensures FoldAppend(chunks) == Shown(Concat(chunks), Truncates(chunks))
    ensures Truncates(chunks) ==> |Concat(chunks)| >= BODY_LIMIT
  {
    if chunks != [] {
      var k := |chunks| - 1;
      var init := chunks[..k];
      ChunkedStream(init);
      AppendKeepsClosedForm(Concat(init), Truncates(init), chunks[k]);
      TruncatesStep(chunks);
    }
  }

  lemma {:induction false} ConcatIsWellFormed(chunks: seq<Text>)
    requires AllWellFormed(chunks)
    ensures WellFormed(Concat(chunks))
  {
    if chunks != [] {
      ConcatIsWellFormed(chunks[..|chunks| - 1]);
      ConcatWellFormed(Concat(chunks[..|chunks| - 1]), chunks[|chunks| - 1]);
    }
  }

  /** However a well-formed stream is split, what is shown is the whole of it or the
      marker and its longest well-formed tail that fits, and is itself well-formed. */
  lemma ChunkingInvariance(chunks: seq<Text>)
    requires AllWellFormed(chunks)
    ensures var whole := Concat(chunks); var shown := FoldAppend(chunks);
      && shown == (if Truncates(chunks) then MARKER + SafeSuffix(whole, BODY_LIMIT) else whole)
      && WellFormed(shown)
      && |shown| <= MAX_VISIBLE
  {
    var whole := Concat(chunks);
    ChunkedStream(chunks);
    ConcatIsWellFormed(chunks);
    SafeSuffixIsLongest(whole, BODY_LIMIT);
    assert WellFormed(MARKER) by { MarkerIsWellFormed(); }
    ConcatWellFormed(MARKER, SafeSuffix(whole, BODY_LIMIT));
  }

  lemma {:induction false} PlainIsWellFormed(s: Text)
    requires forall i :: 0 <= i < |s| ==> !High(s[i]) && !Low(s[i])
    ensures WellFormed(s)
  {
    if s != [] {
      PlainIsWellFormed(s[1..]);
    }
  }

  lemma MarkerIsWellFormed()
    ensures WellFormed(MARKER)
  {
    PlainIsWellFormed(MARKER);
  }

  /** Two splits of one stream show the same text exactly when they agree on whether to
      truncate, or the stream happens to spell its own truncation. */
  lemma SplitsAgreeIff(chunks: seq<Text>, others: seq<Text>)
    requires OpenOnBoundary(chunks) && OpenOnBoundary(others)
    requires Concat(chunks) == Concat(others)
    ensures FoldAppend(chunks) == FoldAppend(others)
       <==> Truncates(chunks) == Truncates(others) || Bounded(Concat(chunks)) == Concat(chunks)
  {
    ChunkedStream(chunks);
    ChunkedStream(others);
  }

  /** Between the body limit and the full limit the split does matter: a stream of
      exactly `BODY_LIMIT` units fits, yet is marked as cut when it arrives in one piece. */
  lemma SplitCanMatter()
    ensures exists chunks: seq<Text>, others: seq<Text> ::
      && AllWellFormed(chunks) && AllWellFormed(others)
      && Concat(chunks) == Concat(others)
      && FoldAppend(chunks) != FoldAppend(others)
  {
    var whole: Text := seq(BODY_LIMIT, i => 0x61);
    var chunks := [whole];
    var others := [whole[..1], whole[1..]];
    PlainIsWellFormed(whole);
    PlainIsWellFormed(whole[..1]);
    PlainIsWellFormed(whole[1..]);
    ConcatOfFew(whole, whole[..1], whole[1..]);
    hide Concat, FoldAppend, WellFormed;
    ChunkedStream(chunks);
    ChunkedStream(others);
    assert |chunks[0]| >= BODY_LIMIT;
    assert FoldAppend(chunks)[0] == 0x5B;
    assert FoldAppend(others)[0] == 0x61;
  }

  lemma ConcatOfFew(a: Text, b: Text, c: Text)
    ensures Concat([a]) == a && Concat([b, c]) == b + c
  {
    assert [a][..0] == [] && [b, c][..1] == [b] && [b][..0] == [];
  }

  // ----- The pipeline truncates each chunk before it appends it -----

  lemma MarkerTail()
    ensures |MARKER| == 13 && MARKER[11] == 0x5D && MARKER[12] == 0x0A
    ensures MAX_VISIBLE == BODY_LIMIT + |MARKER|
  {}

  /** The body limit applied to text that already carries the marker: an unsplit cut gives
      the body back, a split one takes the marker's line feed along. */
  lemma SuffixOfMarked(t: Text)
    requires BODY_LIMIT - 1 <= |t| <= BODY_LIMIT
    ensures |SafeSuffix(MARKER + t, BODY_LIMIT)| == BODY_LIMIT
    ensures |t| == BODY_LIMIT ==> SafeSuffix(MARKER + t, BODY_LIMIT) == t
  {
    MarkerTail();
    hide MARKER;
    var cut := MARKER + t;
    var start := |cut| - BODY_LIMIT;
    assert cut[start - 1] == MARKER[start - 1];
    assert !SplitsPair(cut, start);
    assert |t| == BODY_LIMIT ==> cut[start..] == t;
  }

  /** Truncating a chunk first is harmless exactly when the chunk fits or its cut falls
      between characters; otherwise the marker's own line feed slips into the body. */
  lemma TruncateThenAppend(previous: Text, n: Text)
    ensures Append(previous, Truncate(n)) == Append(previous, n)
       <==> |n| <= MAX_VISIBLE || !SplitsPair(n, |n| - BODY_LIMIT)
  {
    MarkerTail();
    hide MARKER;
    if |n| > MAX_VISIBLE {
      var t := SafeSuffix(n, BODY_LIMIT);
      assert |t| == (if SplitsPair(n, |n| - BODY_LIMIT) then BODY_LIMIT - 1 else BODY_LIMIT);
      SuffixOfMarked(t);
      hide SafeSuffix;
      assert Append(previous, n) == MARKER + t;
      assert Append(previous, Bounded(n)) == MARKER + SafeSuffix(Bounded(n), BODY_LIMIT);
    }
  }

  function PipelineFold(chunks: seq<Text>): Text
    requires chunks != []
  {
    if |chunks| == 1 then Truncate(chunks[0])
    else Append(PipelineFold(chunks[..|chunks| - 1]), Truncate(chunks[|chunks| - 1]))
  }

  /** In the pipeline the first chunk is compacted, not appended, so it alone may fill
      the whole limit without being marked. */
  predicate PipelineTruncates(chunks: seq<Text>) {
    |Concat(chunks)| > MAX_VISIBLE || exists i :: 0 < i < |chunks| && |chunks[i]| >= BODY_LIMIT
  }

  lemma PipelineTruncatesStep(chunks: seq<Text>)
    requires |chunks| > 1
    ensures var k := |chunks| - 1;
      PipelineTruncates(chunks) <==> PipelineTruncates(chunks[..k]) || |Concat(chunks)| > MAX_VISIBLE || |chunks[k]| >= BODY_LIMIT
  {
    var k := |chunks| - 1;
    var init := chunks[..k];
    assert forall i :: 0 < i < k ==> init[i] == chunks[i];
  }

  lemma PipelineFirst(chunk: Text)
    ensures Concat([chunk]) == chunk
    ensures PipelineFold([chunk]) == Shown(chunk, PipelineTruncates([chunk]))
  {
    assert [chunk][..0] == [];
    assert Concat([chunk]) == Concat([]) + chunk;
  }

  /** The first truncation of a chunk has split a pair, so that the second takes the marker's
      line feed into the body, and no text has come since to push it out again. */
  predicate Stray(chunks: seq<Text>) {
    |chunks| > 1 &&
    var n := chunks[|chunks| - 1];
    if n == [] then Stray(chunks[..|chunks| - 1]) else |n| > MAX_VISIBLE && SplitsPair(n, |n| - BODY_LIMIT)
  }

  const LINE_FEED: Text := [0x0A]

  function PipelineShown(stream: Text, truncated: bool, stray: bool): Text {
    if stray then MARKER + LINE_FEED + SafeSuffix(stream, BODY_LIMIT) else Shown(stream, truncated)
  }

  lemma PipelineNext(acc: Text, w: Text, truncated: bool, n: Text)
    requires if truncated then |w| >= BODY_LIMIT else |w| <= MAX_VISIBLE
    requires acc == Shown(w, truncated)
    requires n != [] ==> !Low(n[0])
    requires |n| <= MAX_VISIBLE || !SplitsPair(n, |n| - BODY_LIMIT)
    ensures Append(acc, Truncate(n)) == Shown(w + n, truncated || |w + n| > MAX_VISIBLE || |n| >= BODY_LIMIT)
  {
    TruncateThenAppend(acc, n);
    AppendKeepsClosedForm(w, truncated, n);
  }

  lemma SuffixAfterPlain(u: Text, t: Text, k: nat)
    requires |u| == 1 && !High(u[0]) && k <= |t|
    ensures SafeSuffix(u + t, k) == SafeSuffix(t, k)
  {
    var start := |t| - k;
    assert SplitsPair(u + t, start + 1) == SplitsPair(t, start);
  }

  lemma CutMarked(t: Text)
    requires |t| == BODY_LIMIT - 1
    ensures SafeSuffix(MARKER + t, BODY_LIMIT) == LINE_FEED + t
  {
    MarkerTail();
    hide MARKER;
    var cut := MARKER + t;
    assert !SplitsPair(cut, 12);
    assert cut[12..] == MARKER[12..] + t && MARKER[12..] == LINE_FEED;
  }

  /** A chunk too long, cut between the halves of a pair. */
  lemma StrayBegins(acc: Text, w: Text, n: Text)
    requires n != [] && !Low(n[0]) && |n| > MAX_VISIBLE && SplitsPair(n, |n| - BODY_LIMIT)
    ensures Append(acc, Truncate(n)) == MARKER + LINE_FEED + SafeSuffix(w + n, BODY_LIMIT)
    ensures |SafeSuffix(w + n, BODY_LIMIT)| == BODY_LIMIT - 1
  {
    MarkerTail();
    SuffixInsideTail(w, n, BODY_LIMIT);
    var t := SafeSuffix(n, BODY_LIMIT);
    assert |t| == BODY_LIMIT - 1;
    CutMarked(t);
    hide MARKER, SafeSuffix;
    assert Truncate(n) == MARKER + t;
    assert MARKER + (LINE_FEED + t) == MARKER + LINE_FEED + t;
  }

  /** The stray line feed stays while nothing comes, and goes with the next text. */
  lemma StrayGoesOn(w: Text, n: Text)
    requires |SafeSuffix(w, BODY_LIMIT)| == BODY_LIMIT - 1 && |w| >= BODY_LIMIT
    ensures var acc := MARKER + LINE_FEED + SafeSuffix(w, BODY_LIMIT);
      && (n == [] ==> Append(acc, Truncate(n)) == acc)
      && (n != [] ==> Append(acc, Truncate(n)) == Append(Shown(w, true), Truncate(n)))
  {
    MarkerTail();
    hide MARKER;
    var s := SafeSuffix(w, BODY_LIMIT);
    var acc, m := MARKER + LINE_FEED + s, Truncate(n);
    assert acc == MARKER + (LINE_FEED + s) && acc[|MARKER|..] == LINE_FEED + s;
    assert Shown(w, true)[|MARKER|..] == s;
    if n == [] {
      assert SafeSuffix(LINE_FEED + s, BODY_LIMIT) == LINE_FEED + s;
      assert acc + [] == acc;
    } else if |m| < BODY_LIMIT {
      SuffixAfterPlain(LINE_FEED, s, BODY_LIMIT - |m|);
    }
  }

  /** The whole pipeline, compaction included, in closed form for every stream. */
  lemma {:induction false} PipelineStream(chunks: seq<Text>)
    requires chunks != [] && OpenOnBoundary(chunks)
    ensures PipelineFold(chunks) == PipelineShown(Concat(chunks), PipelineTruncates(chunks), Stray(chunks))
    ensures PipelineTruncates(chunks) ==> |Concat(chunks)| >= BODY_LIMIT
    ensures Stray(chunks) ==> PipelineTruncates(chunks) && |SafeSuffix(Concat(chunks), BODY_LIMIT)| == BODY_LIMIT - 1
  {
    hide *;
    var k := |chunks| - 1;
    if k == 0 {
      PipelineOne(chunks);
    } else {
      var init, n := chunks[..k], chunks[k];
      PipelineUnfold(chunks);
      PipelineStream(init);
      PipelineTruncatesStep(chunks);
      PipelineFits(init);
      PipelineLong(Concat(init), PipelineTruncates(init), n);
      PipelineStep(PipelineFold(init), Concat(init), PipelineTruncates(init), Stray(init), n);
    }
  }

  lemma PipelineOne(chunks: seq<Text>)
    requires |chunks| == 1
    ensures PipelineFold(chunks) == PipelineShown(Concat(chunks), PipelineTruncates(chunks), Stray(chunks))
    ensures PipelineTruncates(chunks) ==> |Concat(chunks)| >= BODY_LIMIT
    ensures !Stray(chunks)
  {
    assert chunks == [chunks[0]];
    PipelineFirst(chunks[0]);
  }

  lemma PipelineUnfold(chunks: seq<Text>)
    requires |chunks| > 1 && OpenOnBoundary(chunks)
    ensures var init, n := chunks[..|chunks| - 1], chunks[|chunks| - 1];
      && OpenOnBoundary(init) && (n != [] ==> !Low(n[0]))
      && PipelineFold(chunks) == Append(PipelineFold(init), Truncate(n))
      && Concat(chunks) == Concat(init) + n
      && Stray(chunks) == if n == [] then Stray(init) else |n| > MAX_VISIBLE && SplitsPair(n, |n| - BODY_LIMIT)
  {
    hide Append, Truncate, SplitsPair;
  }

  lemma PipelineFits(chunks: seq<Text>)
    ensures !PipelineTruncates(chunks) ==> |Concat(chunks)| <= MAX_VISIBLE
  {}

  /** How long the stream is when it is truncated. */
  lemma PipelineLong(w: Text, truncated: bool, n: Text)
    requires truncated ==> |w| >= BODY_LIMIT
    ensures truncated || |w + n| > MAX_VISIBLE || |n| >= BODY_LIMIT ==> |w + n| >= BODY_LIMIT
    ensures |n| > MAX_VISIBLE ==> |n| >= BODY_LIMIT
  {}

  lemma PipelineStep(acc: Text, w: Text, truncated: bool, stray: bool, n: Text)
    requires if truncated then |w| >= BODY_LIMIT else |w| <= MAX_VISIBLE
    requires acc == PipelineShown(w, truncated, stray) && (n != [] ==> !Low(n[0]))
    requires stray ==> truncated && |SafeSuffix(w, BODY_LIMIT)| == BODY_LIMIT - 1
    ensures var strays := if n == [] then stray else |n| > MAX_VISIBLE && SplitsPair(n, |n| - BODY_LIMIT);
      && Append(acc, Truncate(n)) == PipelineShown(w + n, truncated || |w + n| > MAX_VISIBLE || |n| >= BODY_LIMIT, strays)
      && (strays ==> |SafeSuffix(w + n, BODY_LIMIT)| == BODY_LIMIT - 1)
      && (strays ==> truncated || |w + n| > MAX_VISIBLE || |n| >= BODY_LIMIT)
  {
    hide SafeSuffix, Append, Truncate, MARKER;
    assert n == [] ==> w + n == w;
    if n != [] && |n| > MAX_VISIBLE && SplitsPair(n, |n| - BODY_LIMIT) {
      StrayBegins(acc, w, n);
    } else {
      PipelineNext(Shown(w, truncated), w, truncated, n);
      if stray {
        StrayGoesOn(w, n);
      }
    }
  }

  /** The pipeline shows what appending the raw chunks to nothing would, exactly when there is no
      stray line feed and the length of the first chunk makes no difference: a first chunk that
      fits the limit but not the body is shown whole by the one and as cut by the other. */
  lemma PipelineAgreesIff(chunks: seq<Text>)
    requires chunks != [] && OpenOnBoundary(chunks)
    ensures PipelineFold(chunks) == FoldAppend(chunks) <==>
      !Stray(chunks) && (PipelineTruncates(chunks) == Truncates(chunks) || Bounded(Concat(chunks)) == Concat(chunks))
    ensures PipelineTruncates(chunks) != Truncates(chunks) <==>
      |chunks[0]| >= BODY_LIMIT && |Concat(chunks)| <= MAX_VISIBLE && (forall i :: 0 < i < |chunks| ==> |chunks[i]| < BODY_LIMIT)
  {
    PipelineStream(chunks);
    ChunkedStream(chunks);
  }
}
