/** Order-preserving selection over sequences: `Array.prototype.filter`. */
module Sequences {

  /** `r` can be obtained from `xs` by deleting elements, keeping the order. */
  predicate IsSublist<T(==)>(r: seq<T>, xs: seq<T>)
    decreases |xs|
  {
    r == [] ||
    (xs != [] &&
     ((r[|r| - 1] == xs[|xs| - 1] && IsSublist(r[..|r| - 1], xs[..|xs| - 1])) ||
      IsSublist(r, xs[..|xs| - 1])))
  }

  /** `xs.filter(p)`: the elements of `xs` that satisfy `p`, in their order. */
  function Filter<T(==,!new)>(xs: seq<T>, p: T -> bool): (r: seq<T>)
    ensures |r| <= |xs|
    ensures forall i :: 0 <= i < |r| ==> p(r[i])
    decreases |xs|
  {
    if |xs| == 0 then []
    else
      var f := Filter(xs[..|xs| - 1], p);
      if p(xs[|xs| - 1]) then f + [xs[|xs| - 1]] else f
  }

  /** The selected elements are exactly the elements that satisfy `p`. */
  lemma {:induction false} FilterMembers<T(!new)>(xs: seq<T>, p: T -> bool)
    ensures forall x :: x in Filter(xs, p) <==> x in xs && p(x)
    decreases |xs|
  {
    if |xs| > 0 {
      var init, last := xs[..|xs| - 1], xs[|xs| - 1];
      assert xs == init + [last];
      FilterMembers(init, p);
    }
  }

  /** The selection keeps the order of `xs`. */
  lemma {:induction false} FilterSublist<T(!new)>(xs: seq<T>, p: T -> bool)
    ensures IsSublist(Filter(xs, p), xs)
    decreases |xs|
  {
    if |xs| > 0 {
      var init, last := xs[..|xs| - 1], xs[|xs| - 1];
      var f := Filter(init, p);
      FilterSublist(init, p);
      if p(last) {
        assert (f + [last])[..|f + [last]| - 1] == f;
      }
    }
  }

  /** A property every element of `xs` has, every selected element has. */
  lemma {:induction false} FilterKeeps<T(!new)>(xs: seq<T>, p: T -> bool, q: T -> bool)
    requires forall i :: 0 <= i < |xs| ==> q(xs[i])
    ensures forall i :: 0 <= i < |Filter(xs, p)| ==> q(Filter(xs, p)[i])
    decreases |xs|
  {
    if |xs| > 0 {
      var init := xs[..|xs| - 1];
      assert forall i :: 0 <= i < |init| ==> init[i] == xs[i];
      FilterKeeps(init, p, q);
    }
  }

  /** Filtering a one-element extension extends the result by at most that element. */
  lemma FilterSnoc<T(!new)>(xs: seq<T>, x: T, p: T -> bool)
    ensures Filter(xs + [x], p) == Filter(xs, p) + (if p(x) then [x] else [])
  {
    assert (xs + [x])[..|xs|] == xs;
  }

  /** Filtering distributes over concatenation. */
  lemma {:induction false} FilterConcat<T(!new)>(xs: seq<T>, ys: seq<T>, p: T -> bool)
    ensures Filter(xs + ys, p) == Filter(xs, p) + Filter(ys, p)
    decreases |ys|
  {
    if |ys| == 0 {
      assert xs + ys == xs;
    } else {
      var init, last := ys[..|ys| - 1], ys[|ys| - 1];
      assert ys == init + [last];
      assert xs + ys == (xs + init) + [last];
      FilterSnoc(xs + init, last, p);
      FilterSnoc(init, last, p);
      FilterConcat(xs, init, p);
    }
  }

  /** Predicates that agree on every element select the same sublist. */
  lemma {:induction false} FilterExt<T(!new)>(xs: seq<T>, p: T -> bool, q: T -> bool)
    requires forall i :: 0 <= i < |xs| ==> p(xs[i]) == q(xs[i])
    ensures Filter(xs, p) == Filter(xs, q)
    decreases |xs|
  {
    if |xs| > 0 {
      var init := xs[..|xs| - 1];
      assert forall i :: 0 <= i < |init| ==> init[i] == xs[i];
      FilterExt(init, p, q);
    }
  }

  /** Predicates that agree everywhere select the same sublist of any sequence. */
  lemma FilterSame<T(!new)>(xs: seq<T>, p: T -> bool, q: T -> bool)
    requires forall x :: p(x) == q(x)
    ensures Filter(xs, p) == Filter(xs, q)
  {
    FilterExt(xs, p, q);
  }

  /** A predicate every element satisfies selects everything. */
  lemma {:induction false} FilterAll<T(!new)>(xs: seq<T>, p: T -> bool)
    requires forall i :: 0 <= i < |xs| ==> p(xs[i])
    ensures Filter(xs, p) == xs
    decreases |xs|
  {
    if |xs| > 0 {
      var init := xs[..|xs| - 1];
      assert forall i :: 0 <= i < |init| ==> init[i] == xs[i];
      FilterAll(init, p);
    }
  }

  /** A predicate no element satisfies selects nothing. */
  lemma {:induction false} FilterNone<T(!new)>(xs: seq<T>, p: T -> bool)
    requires forall i :: 0 <= i < |xs| ==> !p(xs[i])
    ensures Filter(xs, p) == []
    decreases |xs|
  {
    if |xs| > 0 {
      var init := xs[..|xs| - 1];
      assert forall i :: 0 <= i < |init| ==> init[i] == xs[i];
      FilterNone(init, p);
    }
  }

}
