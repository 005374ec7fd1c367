/** Shared value types and sequence counting. */
module Wrappers {
  datatype Option<+T> = None | Some(value: T)

  /** Number of elements of xs that satisfy p. */
  function CountIf<T>(xs: seq<T>, p: T -> bool): nat {
    if xs == [] then 0 else (if p(xs[0]) then 1 else 0) + CountIf(xs[1..], p)
  }

  lemma {:induction false} CountIfAppend<T>(xs: seq<T>, ys: seq<T>, p: T -> bool)
    ensures CountIf(xs + ys, p) == CountIf(xs, p) + CountIf(ys, p)
  {
    if xs == [] {
      assert xs + ys == ys;
    } else {
      assert (xs + ys)[1..] == xs[1..] + ys;
      CountIfAppend(xs[1..], ys, p);
    }
  }

  lemma CountIfSnoc<T>(xs: seq<T>, x: T, p: T -> bool)
    ensures CountIf(xs + [x], p) == CountIf(xs, p) + if p(x) then 1 else 0
  {
    CountIfAppend(xs, [x], p);
    assert [x][1..] == [];
  }

  lemma CountIfUpdate<T>(xs: seq<T>, i: nat, x: T, p: T -> bool)
    requires i < |xs|
    ensures CountIf(xs[i := x], p) + (if p(xs[i]) then 1 else 0) == CountIf(xs, p) + if p(x) then 1 else 0
  {
    assert xs == xs[..i] + [xs[i]] + xs[i + 1..];
    assert xs[i := x] == xs[..i] + [x] + xs[i + 1..];
    CountIfSnoc(xs[..i], xs[i], p);
    CountIfSnoc(xs[..i], x, p);
    CountIfAppend(xs[..i] + [xs[i]], xs[i + 1..], p);
    CountIfAppend(xs[..i] + [x], xs[i + 1..], p);
  }

  /** Sum of a weight over the elements of xs. */
  function Total<T>(xs: seq<T>, weight: T -> nat): nat {
    if xs == [] then 0 else Total(xs[..|xs| - 1], weight) + weight(xs[|xs| - 1])
  }

  lemma TotalSnoc<T>(xs: seq<T>, x: T, weight: T -> nat)
    ensures Total(xs + [x], weight) == Total(xs, weight) + weight(x)
  {
    assert (xs + [x])[..|xs + [x]| - 1] == xs;
  }

  lemma {:induction false} TotalUpdate<T>(xs: seq<T>, i: nat, x: T, weight: T -> nat)
    requires i < |xs|
    ensures Total(xs[i := x], weight) + weight(xs[i]) == Total(xs, weight) + weight(x)
  {
    var n := |xs| - 1;
    if i == n {
      assert xs[i := x][..n] == xs[..n];
    } else {
      assert xs[i := x][..n] == xs[..n][i := x];
      TotalUpdate(xs[..n], i, x, weight);
    }
  }
}
