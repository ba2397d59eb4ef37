/** Sums of a weight over a sequence, and how they change with one element. */
module Tallies {

  function Tally<T>(xs: seq<T>, f: T -> nat): nat {
    if xs == [] then 0 else f(xs[0]) + Tally(xs[1..], f)
  }

  lemma {:induction false} Replace<T>(xs: seq<T>, i: nat, x: T, f: T -> nat)
    requires i < |xs|
    ensures Tally(xs[i := x], f) == Tally(xs, f) - f(xs[i]) + f(x)
    decreases |xs|
  {
    if i > 0 {
      Replace(xs[1..], i - 1, x, f);
      assert xs[i := x][1..] == xs[1..][i - 1 := x];
    }
  }

  lemma {:induction false} Append<T>(xs: seq<T>, x: T, f: T -> nat)
    ensures Tally(xs + [x], f) == Tally(xs, f) + f(x)
    decreases |xs|
  {
    if xs != [] {
      Append(xs[1..], x, f);
      assert (xs + [x])[1..] == xs[1..] + [x];
    } else {
      assert [x][1..] == [];
    }
  }

  lemma {:induction false} AtMostTally<T>(xs: seq<T>, i: nat, f: T -> nat)
    requires i < |xs|
    ensures f(xs[i]) <= Tally(xs, f)
    decreases |xs|
  {
    if i > 0 {
      AtMostTally(xs[1..], i - 1, f);
    }
  }

  /** A positive tally has a positive element. */
  lemma {:induction false} Witness<T>(xs: seq<T>, f: T -> nat) returns (i: nat)
    requires Tally(xs, f) > 0
    ensures i < |xs| && f(xs[i]) > 0
    decreases |xs|
  {
    if f(xs[0]) > 0 {
      i := 0;
    } else {
      i := Witness(xs[1..], f);
      i := i + 1;
    }
  }
}
