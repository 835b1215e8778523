/** Small datatypes and counting lemmas shared by the protocol models. */
module Prelude {

  datatype Option<+T> = None | Some(value: T)

  datatype Result<+T> = Ok(value: T) | Err(error: string)

  /** The sum of `f` over the elements of a sequence. */
  function Sum<T>(xs: seq<T>, f: T -> nat): (n: nat)
  {
    if xs == [] then 0 else Sum(xs[..|xs| - 1], f) + f(xs[|xs| - 1])
  }

  lemma {:induction false} SumAppend<T>(xs: seq<T>, x: T, f: T -> nat)
    ensures Sum(xs + [x], f) == Sum(xs, f) + f(x)
  {
    assert (xs + [x])[..|xs|] == xs;
  }

  /** Replacing one element changes the sum by the difference of the two values. */
  lemma {:induction false} SumUpdate<T>(xs: seq<T>, k: nat, x: T, f: T -> nat)
    requires k < |xs|
    ensures Sum(xs, f) >= f(xs[k])
    ensures Sum(xs[k := x], f) == Sum(xs, f) - f(xs[k]) + f(x)
  {
    var n := |xs| - 1;
    if k == n {
      assert xs[k := x][..n] == xs[..n];
    } else {
      SumUpdate(xs[..n], k, x, f);
      assert xs[k := x][..n] == xs[..n][k := x];
    }
  }

  /** A positive sum has an element that contributes to it. */
  lemma {:induction false} SumPositive<T>(xs: seq<T>, f: T -> nat) returns (k: nat)
    requires Sum(xs, f) > 0
    ensures k < |xs| && f(xs[k]) > 0
  {
    var n := |xs| - 1;
    if f(xs[n]) > 0 {
      k := n;
    } else {
      k := SumPositive(xs[..n], f);
    }
  }
}
