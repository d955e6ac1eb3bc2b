/** Definitions shared by the models. */
module Prelude {

  datatype Option<+T> = None | Some(value: T)

  datatype Result<+T, +E> = Ok(value: T) | Err(error: E)

  function Max(x: int, y: int): int {
    if x < y then y else x
  }

  function MaxReal(x: real, y: real): real {
    if x < y then y else x
  }

  function MinReal(x: real, y: real): real {
    if x < y then x else y
  }

  // ----- sums -----

  /** The sum of `f` over a sequence. */
  function Sum<T>(f: T -> nat, xs: seq<T>): nat {
    if xs == [] then 0 else Sum(f, xs[..|xs| - 1]) + f(xs[|xs| - 1])
  }

  lemma SumAppend<T>(f: T -> nat, xs: seq<T>, x: T)
    ensures Sum(f, xs + [x]) == Sum(f, xs) + f(x)
  {
    assert (xs + [x])[..|xs|] == xs;
  }

  lemma {:induction false} SumUpdate<T>(f: T -> nat, xs: seq<T>, i: nat, x: T)
    requires i < |xs|
    ensures Sum(f, xs[i := x]) + f(xs[i]) == Sum(f, xs) + f(x)
    ensures f(xs[i]) <= Sum(f, xs)
    decreases |xs|
  {
    var n := |xs| - 1;
    if i < n {
      SumUpdate(f, xs[..n], i, x);
      assert xs[i := x][..n] == xs[..n][i := x];
    } else {
      assert xs[i := x][..n] == xs[..n];
    }
  }

  lemma {:induction false} SumTail<T>(f: T -> nat, xs: seq<T>)
    requires xs != []
    ensures Sum(f, xs) == f(xs[0]) + Sum(f, xs[1..])
    decreases |xs|
  {
    var n := |xs| - 1;
    if n > 0 {
      SumTail(f, xs[..n]);
      assert xs[1..][..n - 1] == xs[..n][1..];
    }
  }

  lemma {:induction false} SumAtMost<T>(f: T -> nat, g: T -> nat, xs: seq<T>)
    requires forall i :: 0 <= i < |xs| ==> f(xs[i]) <= g(xs[i])
    ensures Sum(f, xs) <= Sum(g, xs)
    decreases |xs|
  {
    if xs != [] {
      SumAtMost(f, g, xs[..|xs| - 1]);
    }
  }

  lemma {:induction false} SumZero<T>(f: T -> nat, xs: seq<T>)
    requires forall i :: 0 <= i < |xs| ==> f(xs[i]) == 0
    ensures Sum(f, xs) == 0
    decreases |xs|
  {
    if xs != [] {
      SumZero(f, xs[..|xs| - 1]);
    }
  }
}
