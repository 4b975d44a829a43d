/** What merging shows of the output of tools: each run of progress of one tool becomes the
    bounded tail of its raw chunks, whatever carries them. */
module ProgressRuns {
  import opened Options
  import opened Utf16
  import opened ToolOutput
  import opened Runs

  /** Progress of a tool: which one, and its output. */
  datatype Progress = Progress(tool: nat, output: Text)

  function Shortened(raw: Option<Progress>): Option<Progress> {
    match raw
    case Some(p) => Some(Progress(p.tool, Truncate(p.output)))
    case None => None
  }

  function RawOutputs(raw: seq<Option<Progress>>): (outputs: seq<Text>)
    ensures |outputs| == |raw| && forall i :: 0 <= i < |raw| ==> outputs[i] == if raw[i].Some? then raw[i].value.output else []
  {
    seq(|raw|, i requires 0 <= i < |raw| => if raw[i].Some? then raw[i].value.output else [])
  }

  function Joined(a: Option<Progress>, b: Option<Progress>): Option<Progress> {
    if a.Some? && b.Some? then Some(Progress(a.value.tool, Append(a.value.output, b.value.output))) else None
  }

  predicate SameTool(a: Option<Progress>, b: Option<Progress>) {
    (a.Some? <==> b.Some?) && (a.Some? ==> a.value.tool == b.value.tool)
  }

  /** Combining appends output, and linked elements are progress of one tool or no progress. */
  ghost predicate Appends<T(!new)>(combine: (T, T) -> Option<T>, linked: (T, T) -> bool, progressOf: T -> Option<Progress>) {
    && (forall a, b :: linked(a, b) ==> SameTool(progressOf(a), progressOf(b)))
    && (forall a, b :: combine(a, b).Some? ==> progressOf(combine(a, b).value) == Joined(progressOf(a), progressOf(b)))
  }

  ghost predicate FromRaw<T>(progressOf: T -> Option<Progress>, xs: seq<T>, raw: seq<Option<Progress>>) {
    |xs| == |raw| && forall i :: 0 <= i < |xs| ==> progressOf(xs[i]) == Shortened(raw[i])
  }

  /** All of one tool, or no progress at all. */
  ghost predicate OneTool(raw: seq<Option<Progress>>) { forall i :: 0 <= i < |raw| ==> SameTool(raw[0], raw[i]) }

  lemma {:induction false} RunIsOneTool<T(!new)>(combine: (T, T) -> Option<T>, linked: (T, T) -> bool, progressOf: T -> Option<Progress>,
                                                 run: seq<T>, raw: seq<Option<Progress>>)
    requires Appends(combine, linked, progressOf) && IsRun(linked, run) && FromRaw(progressOf, run, raw)
    ensures OneTool(raw)
  {
    hide Truncate;
    var k := |run| - 1;
    if k > 0 {
      RunIsOneTool(combine, linked, progressOf, run[..k], raw[..k]);
      assert raw[..k][0] == raw[0] && raw[..k][k - 1] == raw[k - 1];
      assert linked(run[k - 1], run[k]);
      assert SameTool(raw[k - 1], raw[k]);
      forall i | 0 <= i < |raw| ensures SameTool(raw[0], raw[i]) {
        if i < k { assert raw[..k][i] == raw[i]; }
      }
    }
  }

  /** What one run shows. */
  function ShownOf(raw: seq<Option<Progress>>): Option<Progress>
    requires raw != []
  {
    if raw[0].Some? then Some(Progress(raw[0].value.tool, PipelineFold(RawOutputs(raw)))) else None
  }

  lemma ShownUnfolds(raw: seq<Option<Progress>>)
    requires raw != [] && OneTool(raw)
    ensures |raw| == 1 ==> ShownOf(raw) == Shortened(raw[0])
    ensures |raw| > 1 ==> ShownOf(raw) == Joined(ShownOf(raw[..|raw| - 1]), Shortened(raw[|raw| - 1]))
  {
    hide PipelineFold, Append, Truncate;
    var k := |raw| - 1;
    PipelineUnfolds(RawOutputs(raw));
    assert RawOutputs(raw)[..k] == RawOutputs(raw[..k]);
    assert SameTool(raw[0], raw[k]);
  }

  lemma {:induction false} MergedProgress<T(!new)>(combine: (T, T) -> Option<T>, linked: (T, T) -> bool, progressOf: T -> Option<Progress>,
                                                   run: seq<T>, raw: seq<Option<Progress>>)
    requires Lawful(combine, linked) && Appends(combine, linked, progressOf)
    requires IsRun(linked, run) && FromRaw(progressOf, run, raw)
    ensures OneTool(raw) && progressOf(Merge(combine, run)) == ShownOf(raw)
  {
    hide Shortened, Joined, ShownOf, SameTool;
    var k := |run| - 1;
    RunIsOneTool(combine, linked, progressOf, run, raw);
    ShownUnfolds(raw);
    if k > 0 {
      MergedProgress(combine, linked, progressOf, run[..k], raw[..k]);
      assert linked(run[k - 1], run[k]);
      MergeLinksLikeLast(combine, linked, run[..k]);
      assert combine(Merge(combine, run[..k]), run[k]).Some?;
    }
  }

  lemma PipelineUnfolds(outputs: seq<Text>)
    requires outputs != []
    ensures |outputs| == 1 ==> PipelineFold(outputs) == Truncate(outputs[0])
    ensures |outputs| > 1 ==> PipelineFold(outputs) == Append(PipelineFold(outputs[..|outputs| - 1]), Truncate(outputs[|outputs| - 1]))
  {}

  lemma RunAt<T>(runs: seq<seq<T>>, j: nat)
    requires j < |runs|
    ensures var a := |Flatten(runs[..j])|;
      a + |runs[j]| <= |Flatten(runs)| && Flatten(runs)[a..a + |runs[j]|] == runs[j]
  {
    var one := [runs[j]];
    assert one[..0] == [] && Flatten(one) == runs[j];
    assert runs == runs[..j] + (one + runs[j + 1..]);
    FlattenConcat(runs[..j], one + runs[j + 1..]);
    FlattenConcat(one, runs[j + 1..]);
  }

  /** The `j`-th merged element stands for the raw chunks of the `j`-th run. */
  ghost predicate ShowsRun<T>(progressOf: T -> Option<Progress>, runs: seq<seq<T>>, raw: seq<Option<Progress>>, shown: seq<T>, j: nat)
    requires j < |runs| == |shown|
  {
    var a, b := |Flatten(runs[..j])|, |Flatten(runs[..j])| + |runs[j]|;
    a < b <= |raw| && OneTool(raw[a..b]) && progressOf(shown[j]) == ShownOf(raw[a..b])
  }

  ghost predicate ShowsRuns<T>(progressOf: T -> Option<Progress>, runs: seq<seq<T>>, raw: seq<Option<Progress>>, shown: seq<T>) {
    |runs| == |shown| && forall j :: 0 <= j < |runs| ==> ShowsRun(progressOf, runs, raw, shown, j)
  }

  /** Grouping shows of every run of one tool's progress what the chunk pipeline shows of its
      raw outputs; progress is neither lost nor mixed with anything else. */
  lemma GroupShowsOutput<T(!new)>(combine: (T, T) -> Option<T>, linked: (T, T) -> bool, progressOf: T -> Option<Progress>,
                                  xs: seq<T>, raw: seq<Option<Progress>>)
    returns (runs: seq<seq<T>>)
    requires Lawful(combine, linked) && Appends(combine, linked, progressOf) && FromRaw(progressOf, xs, raw)
    ensures MaximalRuns(linked, xs, runs) && Group(combine, xs) == MergeAll(combine, runs)
    ensures ShowsRuns(progressOf, runs, raw, Group(combine, xs))
  {
    runs := GroupMergesRuns(combine, linked, xs);
    forall j | 0 <= j < |runs| ensures ShowsRun(progressOf, runs, raw, Group(combine, xs), j) {
      RunShows(combine, linked, progressOf, xs, raw, runs, j);
    }
  }

  lemma RunShows<T(!new)>(combine: (T, T) -> Option<T>, linked: (T, T) -> bool, progressOf: T -> Option<Progress>,
                          xs: seq<T>, raw: seq<Option<Progress>>, runs: seq<seq<T>>, j: nat)
    requires Lawful(combine, linked) && Appends(combine, linked, progressOf) && FromRaw(progressOf, xs, raw)
    requires MaximalRuns(linked, xs, runs) && Group(combine, xs) == MergeAll(combine, runs) && j < |runs|
    ensures ShowsRun(progressOf, runs, raw, Group(combine, xs), j)
  {
    hide Lawful, Appends, MaximalRuns, Flatten, Group, MergeAll, IsRun, Shortened, OneTool, ShownOf, Merge;
    var a, b := |Flatten(runs[..j])|, |Flatten(runs[..j])| + |runs[j]|;
    RunIsStretch(combine, linked, xs, runs, j);
    assert FromRaw(progressOf, runs[j], raw[a..b]);
    MergedProgress(combine, linked, progressOf, runs[j], raw[a..b]);
  }

  lemma RunIsStretch<T(!new)>(combine: (T, T) -> Option<T>, linked: (T, T) -> bool, xs: seq<T>, runs: seq<seq<T>>, j: nat)
    requires MaximalRuns(linked, xs, runs) && j < |runs| && Group(combine, xs) == MergeAll(combine, runs)
    ensures var a, b := |Flatten(runs[..j])|, |Flatten(runs[..j])| + |runs[j]|;
      a < b <= |xs| && runs[j] == xs[a..b] && IsRun(linked, runs[j])
    ensures |Group(combine, xs)| == |runs| && Group(combine, xs)[j] == Merge(combine, runs[j])
  {
    RunAt(runs, j);
    assert IsRun(linked, runs[j]);
  }
}
