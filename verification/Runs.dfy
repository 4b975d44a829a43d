/** Streaming against batch: folding a combining push over a list one element at a time,
    and cutting the list into maximal runs and merging each run once. */
module Runs {
  import opened Options

  function Flatten<T>(xss: seq<seq<T>>): seq<T> {
    if xss == [] then [] else Flatten(xss[..|xss| - 1]) + xss[|xss| - 1]
  }

  /** The streaming step: combine with the last element when that is possible. */
  function Push<T>(combine: (T, T) -> Option<T>, acc: seq<T>, x: T): (r: seq<T>)
    ensures r != []
  {
    if acc == [] then [x]
    else match combine(acc[|acc| - 1], x)
      case Some(merged) => acc[..|acc| - 1] + [merged]
      case None => acc + [x]
  }

  function Group<T>(combine: (T, T) -> Option<T>, xs: seq<T>): (r: seq<T>)
    ensures r == [] <==> xs == []
  {
    if xs == [] then [] else Push(combine, Group(combine, xs[..|xs| - 1]), xs[|xs| - 1])
  }

  /** Combining is possible exactly between linked elements, and a combined element
      links onwards as its later half did. */
  ghost predicate Lawful<T(!new)>(combine: (T, T) -> Option<T>, linked: (T, T) -> bool) {
    && (forall a, b :: combine(a, b).Some? <==> linked(a, b))
    && (forall a, b, c :: combine(a, b).Some? ==> (linked(combine(a, b).value, c) <==> linked(b, c)))
  }

  /** A nonempty stretch whose neighbours are all linked. */
  ghost predicate IsRun<T>(linked: (T, T) -> bool, run: seq<T>) {
    run != [] && forall i :: 0 < i < |run| ==> linked(run[i - 1], run[i])
  }

  /** `runs` cuts `xs` into runs that cannot be made longer. */
  ghost predicate MaximalRuns<T>(linked: (T, T) -> bool, xs: seq<T>, runs: seq<seq<T>>) {
    && Flatten(runs) == xs
    && (forall i :: 0 <= i < |runs| ==> IsRun(linked, runs[i]))
    && (forall i :: 0 < i < |runs| ==> Breaks(linked, runs[i - 1], runs[i]))
  }

  ghost predicate Breaks<T>(linked: (T, T) -> bool, left: seq<T>, right: seq<T>) {
    left != [] && right != [] && !linked(left[|left| - 1], right[0])
  }

  function Merge<T>(combine: (T, T) -> Option<T>, run: seq<T>): T
    requires run != []
  {
    if |run| == 1 then run[0]
    else match combine(Merge(combine, run[..|run| - 1]), run[|run| - 1])
      case Some(merged) => merged
      case None => run[0]
  }

  function MergeAll<T>(combine: (T, T) -> Option<T>, runs: seq<seq<T>>): (r: seq<T>)
    requires forall i :: 0 <= i < |runs| ==> runs[i] != []
    ensures |r| == |runs|
    ensures forall i :: 0 <= i < |runs| ==> r[i] == Merge(combine, runs[i])
  {
    if runs == [] then [] else MergeAll(combine, runs[..|runs| - 1]) + [Merge(combine, runs[|runs| - 1])]
  }

  lemma {:induction false} MergeLinksLikeLast<T(!new)>(combine: (T, T) -> Option<T>, linked: (T, T) -> bool, run: seq<T>)
    requires Lawful(combine, linked) && IsRun(linked, run)
    ensures forall x :: linked(Merge(combine, run), x) <==> linked(run[|run| - 1], x)
  {
    if |run| > 1 {
      var init := run[..|run| - 1];
      MergeLinksLikeLast(combine, linked, init);
      assert linked(init[|init| - 1], run[|run| - 1]);
      assert combine(Merge(combine, init), run[|run| - 1]).Some?;
    }
  }

  lemma ExtendLastRun<T(!new)>(combine: (T, T) -> Option<T>, linked: (T, T) -> bool, xs: seq<T>, runs: seq<seq<T>>, x: T)
    requires Lawful(combine, linked) && MaximalRuns(linked, xs, runs) && runs != []
    requires var last := runs[|runs| - 1]; last != [] && linked(last[|last| - 1], x)
    ensures var l := |runs| - 1; var longer := runs[..l] + [runs[l] + [x]];
      && MaximalRuns(linked, xs + [x], longer)
      && Push(combine, MergeAll(combine, runs), x) == MergeAll(combine, longer)
  {
    var l := |runs| - 1;
    var last := runs[l];
    var longer := runs[..l] + [last + [x]];
    assert longer[..l] == runs[..l];
    assert Flatten(longer) == Flatten(runs[..l]) + (last + [x]) == Flatten(runs) + [x];
    assert IsRun(linked, last + [x]) by { assert IsRun(linked, last); }
    forall i | 0 < i < |longer| ensures Breaks(linked, longer[i - 1], longer[i]) {
      assert Breaks(linked, runs[i - 1], runs[i]);
    }
    MergeLinksLikeLast(combine, linked, last);
    assert (last + [x])[..|last|] == last;
  }

  lemma StartNewRun<T(!new)>(combine: (T, T) -> Option<T>, linked: (T, T) -> bool, xs: seq<T>, runs: seq<seq<T>>, x: T)
    requires Lawful(combine, linked) && MaximalRuns(linked, xs, runs)
    requires runs != [] ==> var last := runs[|runs| - 1]; last != [] && !linked(last[|last| - 1], x)
    ensures MaximalRuns(linked, xs + [x], runs + [[x]])
    ensures Push(combine, MergeAll(combine, runs), x) == MergeAll(combine, runs + [[x]])
  {
    var more := runs + [[x]];
    assert more[..|runs|] == runs;
    forall i | 0 < i < |more| ensures Breaks(linked, more[i - 1], more[i]) {
      if i < |runs| {
        assert Breaks(linked, runs[i - 1], runs[i]);
      }
    }
    if runs != [] {
      MergeLinksLikeLast(combine, linked, runs[|runs| - 1]);
    }
  }

  /** Pushing element by element produces the merges of the maximal runs. */
  lemma {:induction false} GroupMergesRuns<T(!new)>(combine: (T, T) -> Option<T>, linked: (T, T) -> bool, xs: seq<T>)
    returns (runs: seq<seq<T>>)
    requires Lawful(combine, linked)
    ensures MaximalRuns(linked, xs, runs)
    ensures Group(combine, xs) == MergeAll(combine, runs)
  {
    if xs == [] {
      return [];
    }
    var k := |xs| - 1;
    runs := GroupMergesRuns(combine, linked, xs[..k]);
    assert xs == xs[..k] + [xs[k]];
    if runs != [] && linked(runs[|runs| - 1][|runs[|runs| - 1]| - 1], xs[k]) {
      ExtendLastRun(combine, linked, xs[..k], runs, xs[k]);
      runs := runs[..|runs| - 1] + [runs[|runs| - 1] + [xs[k]]];
    } else {
      StartNewRun(combine, linked, xs[..k], runs, xs[k]);
      runs := runs + [[xs[k]]];
    }
  }

  lemma {:induction false} FlattenConcat<T>(xss: seq<seq<T>>, yss: seq<seq<T>>)
    ensures Flatten(xss + yss) == Flatten(xss) + Flatten(yss)
  {
    if yss == [] {
      assert xss + yss == xss;
    } else {
      var k := |yss| - 1;
      FlattenConcat(xss, yss[..k]);
      assert (xss + yss)[..|xss| + k] == xss + yss[..k];
    }
  }

  // ----- Content that combining concatenates -----

  function Contents<T, A>(content: T -> seq<A>, xs: seq<T>): (r: seq<seq<A>>)
    ensures |r| == |xs| && forall i :: 0 <= i < |xs| ==> r[i] == content(xs[i])
  {
    seq(|xs|, i requires 0 <= i < |xs| => content(xs[i]))
  }

  function FlatMap<T, A>(content: T -> seq<A>, xs: seq<T>): seq<A> { Flatten(Contents(content, xs)) }

  ghost predicate Concatenates<T(!new), A>(combine: (T, T) -> Option<T>, content: T -> seq<A>) {
    forall a, b :: combine(a, b).Some? ==> content(combine(a, b).value) == content(a) + content(b)
  }

  lemma FlatMapConcat<T, A>(content: T -> seq<A>, xs: seq<T>, ys: seq<T>)
    ensures FlatMap(content, xs + ys) == FlatMap(content, xs) + FlatMap(content, ys)
  {
    assert Contents(content, xs + ys) == Contents(content, xs) + Contents(content, ys);
    FlattenConcat(Contents(content, xs), Contents(content, ys));
  }

  lemma FlatMapSnoc<T, A>(content: T -> seq<A>, xs: seq<T>, x: T)
    ensures FlatMap(content, xs + [x]) == FlatMap(content, xs) + content(x)
  {
    assert Contents(content, xs + [x]) == Contents(content, xs) + [content(x)];
    assert (Contents(content, xs) + [content(x)])[..|xs|] == Contents(content, xs);
  }

  lemma PushKeepsContent<T(!new), A>(combine: (T, T) -> Option<T>, content: T -> seq<A>, acc: seq<T>, x: T)
    requires Concatenates(combine, content)
    ensures FlatMap(content, Push(combine, acc, x)) == FlatMap(content, acc) + content(x)
  {
    if acc != [] && combine(acc[|acc| - 1], x).Some? {
      var init, last := acc[..|acc| - 1], acc[|acc| - 1];
      var merged := combine(last, x).value;
      FlatMapSnoc(content, init, merged);
      FlatMapSnoc(content, init, last);
      assert acc == init + [last];
      assert FlatMap(content, init) + (content(last) + content(x)) == FlatMap(content, acc) + content(x);
    } else {
      FlatMapSnoc(content, acc, x);
      assert acc == [] ==> acc + [x] == [x];
    }
  }

  /** Grouping neither loses, repeats nor reorders content. */
  lemma {:induction false} GroupKeepsContent<T(!new), A>(combine: (T, T) -> Option<T>, content: T -> seq<A>, xs: seq<T>)
    requires Concatenates(combine, content)
    ensures FlatMap(content, Group(combine, xs)) == FlatMap(content, xs)
  {
    if xs != [] {
      GroupKeepsContent(combine, content, xs[..|xs| - 1]);
      FlatMapSnoc(content, xs[..|xs| - 1], xs[|xs| - 1]);
      assert xs == xs[..|xs| - 1] + [xs[|xs| - 1]];
      PushKeepsContent(combine, content, Group(combine, xs[..|xs| - 1]), xs[|xs| - 1]);
    }
  }

  lemma LastRunIsLinked<T>(linked: (T, T) -> bool, xs: seq<T>, runs: seq<seq<T>>)
    requires MaximalRuns(linked, xs, runs) && runs != []
    ensures var r := runs[|runs| - 1];
      r != [] && xs == Flatten(runs[..|runs| - 1]) + r
      && forall i :: |xs| - |r| < i < |xs| ==> linked(xs[i - 1], xs[i])
  {
    var r := runs[|runs| - 1];
    var a := Flatten(runs[..|runs| - 1]);
    assert IsRun(linked, r);
    forall i | |xs| - |r| < i < |xs| ensures linked(xs[i - 1], xs[i]) {
      assert xs[i - 1] == r[i - 1 - |a|] && xs[i] == r[i - |a|];
    }
  }

  lemma LastRunBreaks<T>(linked: (T, T) -> bool, xs: seq<T>, runs: seq<seq<T>>)
    requires MaximalRuns(linked, xs, runs) && runs != []
    ensures var k := |xs| - |runs[|runs| - 1]|;
      k > 0 ==> !linked(xs[k - 1], xs[k])
  {
    var l := |runs| - 1;
    LastRunIsLinked(linked, xs, runs);
    if l > 0 {
      var p := runs[l - 1];
      assert Breaks(linked, p, runs[l]);
      assert runs[..l][..l - 1] == runs[..l - 1];
      assert Flatten(runs[..l]) == Flatten(runs[..l - 1]) + p;
    } else {
      assert runs[..0] == [];
    }
  }

  lemma PrefixOfRuns<T>(linked: (T, T) -> bool, xs: seq<T>, runs: seq<seq<T>>)
    requires MaximalRuns(linked, xs, runs) && runs != []
    ensures MaximalRuns(linked, Flatten(runs[..|runs| - 1]), runs[..|runs| - 1])
  {
    var l := |runs| - 1;
    forall i | 0 < i < l ensures Breaks(linked, runs[..l][i - 1], runs[..l][i]) {
      assert Breaks(linked, runs[i - 1], runs[i]);
    }
  }

  /** There is only one way to cut a list into maximal runs. */
  lemma {:induction false} MaximalRunsUnique<T>(linked: (T, T) -> bool, xs: seq<T>, runs: seq<seq<T>>, others: seq<seq<T>>)
    requires MaximalRuns(linked, xs, runs) && MaximalRuns(linked, xs, others)
    ensures runs == others
    decreases |runs|
  {
    if runs == [] || others == [] {
      if runs != [] { LastRunIsLinked(linked, xs, runs); }
      if others != [] { LastRunIsLinked(linked, xs, others); }
    } else {
      var r, o := runs[|runs| - 1], others[|others| - 1];
      var a, b := Flatten(runs[..|runs| - 1]), Flatten(others[..|others| - 1]);
      LastRunIsLinked(linked, xs, runs);
      LastRunIsLinked(linked, xs, others);
      LastRunBreaks(linked, xs, runs);
      LastRunBreaks(linked, xs, others);
      assert |r| == |o|;
      assert a == xs[..|a|] && b == xs[..|b|] && r == xs[|a|..] && o == xs[|b|..];
      PrefixOfRuns(linked, xs, runs);
      PrefixOfRuns(linked, xs, others);
      MaximalRunsUnique(linked, a, runs[..|runs| - 1], others[..|others| - 1]);
    }
  }
}
