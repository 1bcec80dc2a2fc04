/** Sums of an integer measure over a finite sequence. */
module Counting {

  function Sum<T>(xs: seq<T>, f: T -> int): int {
    if xs == [] then 0 else f(xs[0]) + Sum(xs[1..], f)
  }

  lemma {:induction false} SumUpdate<T>(xs: seq<T>, k: nat, x: T, f: T -> int)
    requires k < |xs|
    ensures Sum(xs[k := x], f) == Sum(xs, f) - f(xs[k]) + f(x)
  {
    if k == 0 {
      assert xs[k := x][1..] == xs[1..];
    } else {
      assert xs[k := x][1..] == xs[1..][k - 1 := x];
      SumUpdate(xs[1..], k - 1, x, f);
    }
  }

  lemma {:induction false} SumOrdered<T>(xs: seq<T>, f: T -> int, g: T -> int)
    requires forall x :: x in xs ==> f(x) <= g(x)
    ensures Sum(xs, f) <= Sum(xs, g)
  {
    if xs != [] {
      SumOrdered(xs[1..], f, g);
    }
  }

  /** A sum of non-negative terms is at least any one of them. */
  lemma {:induction false} SumCovers<T>(xs: seq<T>, f: T -> int, k: nat)
    requires k < |xs|
    requires forall x :: x in xs ==> 0 <= f(x)
    ensures f(xs[k]) <= Sum(xs, f)
  {
    if k > 0 {
      SumCovers(xs[1..], f, k - 1);
    } else {
      SumNonNegative(xs[1..], f);
    }
  }

  lemma {:induction false} SumNonNegative<T>(xs: seq<T>, f: T -> int)
    requires forall x :: x in xs ==> 0 <= f(x)
    ensures 0 <= Sum(xs, f)
  {
    if xs != [] {
      SumNonNegative(xs[1..], f);
    }
  }

  lemma {:induction false} SumAtMostLength<T>(xs: seq<T>, f: T -> int)
    requires forall x :: x in xs ==> f(x) <= 1
    ensures Sum(xs, f) <= |xs|
  {
    if xs != [] {
      SumAtMostLength(xs[1..], f);
    }
  }

  lemma {:induction false} SumOfSums<T>(xs: seq<T>, f: T -> int, g: T -> int, h: T -> int)
    requires forall x :: x in xs ==> h(x) == f(x) + g(x)
    ensures Sum(xs, h) == Sum(xs, f) + Sum(xs, g)
  {
    if xs != [] {
      SumOfSums(xs[1..], f, g, h);
    }
  }
}
