/**
 * The two loop shapes the response processor uses over a list: a filter
 * that appends the items a test accepts, and an accumulation. In both, an
 * exception raised for one item ends the loop and propagates.
 */
module Filtering {
  import opened Errors
  import opened Sorting

  /** The items of `xs` that `keep` accepts, in order; the first exception
    * `keep` raises instead. */
  function FilterResult<X(==)>(xs: seq<X>, keep: X -> Result<bool>): (r: Result<seq<X>>)
    ensures r.Ok? ==> |r.value| <= |xs|
  {
    if xs == [] then Ok([])
    else
      var kept :- FilterResult(xs[..|xs| - 1], keep);
      var k :- keep(xs[|xs| - 1]);
      Ok(if k then kept + [xs[|xs| - 1]] else kept)
  }

  /** Once a prefix has raised, the whole loop raises the same exception. */
  lemma {:induction false} FilterResultErrExtends<X>(xs: seq<X>, i: nat, keep: X -> Result<bool>)
    requires i <= |xs| && FilterResult(xs[..i], keep).Err?
    ensures FilterResult(xs, keep) == FilterResult(xs[..i], keep)
    decreases |xs|
  {
    if i < |xs| {
      var ys := xs[..|xs| - 1];
      assert ys[..i] == xs[..i];
      FilterResultErrExtends(ys, i, keep);
    } else {
      assert xs[..i] == xs;
    }
  }

  /** A filter that finishes keeps an order-preserving subsequence, holding
    * exactly the items the test accepts. */
  lemma {:induction false} FilterResultMeaning<X>(xs: seq<X>, keep: X -> Result<bool>)
    requires FilterResult(xs, keep).Ok?
    ensures IsSubsequence(FilterResult(xs, keep).value, xs)
    ensures forall x :: x in xs ==> keep(x).Ok?
    ensures forall x :: x in xs ==> (x in FilterResult(xs, keep).value <==> keep(x) == Ok(true))
    ensures forall x :: x in FilterResult(xs, keep).value ==> x in xs
    decreases |xs|
  {
    if xs != [] {
      var ys := xs[..|xs| - 1];
      var last := xs[|xs| - 1];
      FilterResultMeaning(ys, keep);
      var kept := FilterResult(ys, keep).value;
      SubsequenceStep(kept, ys, last);
      assert xs == ys + [last];
      forall x | x in xs ensures keep(x).Ok? && (x in FilterResult(xs, keep).value <==> keep(x) == Ok(true)) {
        if x != last {
          assert x in ys;
        }
      }
    }
  }

  /** A filter whose test never raises finishes. */
  lemma {:induction false} FilterResultTotal<X>(xs: seq<X>, keep: X -> Result<bool>)
    requires forall x :: x in xs ==> keep(x).Ok?
    ensures FilterResult(xs, keep).Ok?
    decreases |xs|
  {
    if xs != [] {
      var ys := xs[..|xs| - 1];
      forall x | x in ys ensures keep(x).Ok? {
        assert x in xs;
      }
      FilterResultTotal(ys, keep);
      assert xs[|xs| - 1] in xs;
    }
  }

  /** An accumulation: `step` applied to each item in turn, from `init`;
    * the first exception `step` raises instead. */
  function FoldResult<S, X>(xs: seq<X>, init: S, step: (S, X) -> Result<S>): Result<S>
  {
    if xs == [] then Ok(init)
    else
      var acc :- FoldResult(xs[..|xs| - 1], init, step);
      step(acc, xs[|xs| - 1])
  }

  /** Once a prefix has raised, the whole accumulation raises the same exception. */
  lemma {:induction false} FoldResultErrExtends<S, X>(xs: seq<X>, i: nat, init: S, step: (S, X) -> Result<S>)
    requires i <= |xs| && FoldResult(xs[..i], init, step).Err?
    ensures FoldResult(xs, init, step) == FoldResult(xs[..i], init, step)
    decreases |xs|
  {
    if i < |xs| {
      var ys := xs[..|xs| - 1];
      assert ys[..i] == xs[..i];
      FoldResultErrExtends(ys, i, init, step);
    } else {
      assert xs[..i] == xs;
    }
  }
}
