/** Keeping the elements of a list that meet a condition. */
module Filters {
  function Filter<T>(p: T -> bool, xs: seq<T>): seq<T> {
    if xs == [] then []
    else Filter(p, xs[..|xs| - 1]) + (if p(xs[|xs| - 1]) then [xs[|xs| - 1]] else [])
  }

  lemma FilterSnoc<T>(p: T -> bool, xs: seq<T>, x: T)
    ensures Filter(p, xs + [x]) == if p(x) then Filter(p, xs) + [x] else Filter(p, xs)
  {
    assert (xs + [x])[..|xs|] == xs;
  }

  lemma FilterInit<T>(p: T -> bool, xs: seq<T>)
    requires xs != []
    ensures xs == xs[..|xs| - 1] + [xs[|xs| - 1]]
    ensures var init, last := xs[..|xs| - 1], xs[|xs| - 1];
      Filter(p, xs) == if p(last) then Filter(p, init) + [last] else Filter(p, init)
  {}

  lemma {:induction false} FilterConcat<T>(p: T -> bool, xs: seq<T>, ys: seq<T>)
    ensures Filter(p, xs + ys) == Filter(p, xs) + Filter(p, ys)
  {
    if ys == [] {
      assert xs + ys == xs;
    } else {
      var init, last := ys[..|ys| - 1], ys[|ys| - 1];
      FilterInit(p, ys);
      FilterConcat(p, xs, init);
      FilterSnoc(p, xs + init, last);
      assert xs + ys == xs + init + [last];
    }
  }

  /** A weaker condition first makes no difference. */
  lemma {:induction false} FilterKeeps<T(!new)>(p: T -> bool, q: T -> bool, xs: seq<T>)
    requires forall x :: p(x) ==> q(x)
    ensures Filter(p, Filter(q, xs)) == Filter(p, xs)
  {
    if xs != [] {
      var init, last := xs[..|xs| - 1], xs[|xs| - 1];
      FilterInit(p, xs);
      FilterInit(q, xs);
      FilterKeeps(p, q, init);
      FilterSnoc(p, Filter(q, init), last);
    }
  }

  lemma {:induction false} FilterDrops<T(!new)>(p: T -> bool, q: T -> bool, xs: seq<T>)
    requires forall x :: p(x) ==> !q(x)
    ensures Filter(p, Filter(q, xs)) == []
  {
    if xs != [] {
      var init, last := xs[..|xs| - 1], xs[|xs| - 1];
      FilterInit(q, xs);
      FilterDrops(p, q, init);
      FilterSnoc(p, Filter(q, init), last);
    }
  }
}
