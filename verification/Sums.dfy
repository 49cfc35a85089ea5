/** Sums and flattenings over sequences, the two folds in which every history and every
    total of the model is expressed. */
module Sums {

  ghost function Sum<T>(xs: seq<T>, f: T -> int): int
  {
    if xs == [] then 0 else Sum(xs[..|xs| - 1], f) + f(xs[|xs| - 1])
  }

  ghost function Flat<A, B>(xs: seq<A>, f: A -> seq<B>): seq<B>
  {
    if xs == [] then [] else Flat(xs[..|xs| - 1], f) + f(xs[|xs| - 1])
  }

  lemma SumAppend<T>(xs: seq<T>, x: T, f: T -> int)
    ensures Sum(xs + [x], f) == Sum(xs, f) + f(x)
  {
    assert (xs + [x])[..|xs|] == xs;
  }

  lemma {:induction false} FlatConcat<A, B>(xs: seq<A>, ys: seq<A>, f: A -> seq<B>)
    ensures Flat(xs + ys, f) == Flat(xs, f) + Flat(ys, f)
    decreases |ys|
  {
    if ys == [] {
      assert xs + ys == xs;
    } else {
      var front := ys[..|ys| - 1];
      assert (xs + ys)[..|xs + ys| - 1] == xs + front;
      FlatConcat(xs, front, f);
    }
  }

  lemma {:induction false} SumConcat<T>(xs: seq<T>, ys: seq<T>, f: T -> int)
    ensures Sum(xs + ys, f) == Sum(xs, f) + Sum(ys, f)
    decreases |ys|
  {
    if ys == [] {
      assert xs + ys == xs;
    } else {
      var front := ys[..|ys| - 1];
      assert (xs + ys)[..|xs + ys| - 1] == xs + front;
      SumConcat(xs, front, f);
    }
  }

  lemma {:induction false} FlatNothing<A, B>(xs: seq<A>, f: A -> seq<B>)
    requires forall x | x in xs :: f(x) == []
    ensures Flat(xs, f) == []
  {
    if xs != [] {
      FlatNothing(xs[..|xs| - 1], f);
    }
  }

  lemma FlatAppend<A, B>(xs: seq<A>, x: A, f: A -> seq<B>)
    ensures Flat(xs + [x], f) == Flat(xs, f) + f(x)
  {
    assert (xs + [x])[..|xs|] == xs;
  }

  lemma FlatOne<A, B>(xs: seq<A>, f: A -> seq<B>)
    requires |xs| <= 1
    ensures Flat(xs, f) == if xs == [] then [] else f(xs[0])
  {
    if xs != [] {
      assert Flat(xs[..0], f) == [];
    }
  }

  lemma SumOne<T>(xs: seq<T>, f: T -> int)
    requires |xs| <= 1
    ensures Sum(xs, f) == if xs == [] then 0 else f(xs[0])
  {
    if xs != [] {
      assert Sum(xs[..0], f) == 0;
    }
  }

  lemma {:induction false} SumCons<T>(xs: seq<T>, f: T -> int)
    requires xs != []
    ensures Sum(xs, f) == f(xs[0]) + Sum(xs[1..], f)
  {
    if |xs| == 1 {
      assert xs == [xs[0]];
      assert Sum(xs[..0], f) == 0;
    } else {
      SumCons(xs[..|xs| - 1], f);
      assert xs[1..][..|xs| - 2] == xs[..|xs| - 1][1..];
    }
  }

  lemma {:induction false} SumUpdate<T>(xs: seq<T>, i: nat, x: T, f: T -> int)
    requires i < |xs|
    ensures Sum(xs[i := x], f) == Sum(xs, f) - f(xs[i]) + f(x)
  {
    var n := |xs| - 1;
    if i == n {
      assert xs[i := x][..n] == xs[..n];
    } else {
      SumUpdate(xs[..n], i, x, f);
      assert xs[i := x][..n] == xs[..n][i := x];
    }
  }

  lemma {:induction false} SumMonotone<T>(xs: seq<T>, f: T -> int, g: T -> int)
    requires forall x | x in xs :: f(x) <= g(x)
    ensures Sum(xs, f) <= Sum(xs, g)
  {
    if xs != [] {
      SumMonotone(xs[..|xs| - 1], f, g);
    }
  }

  /** Two weights that together stay below a third have sums that stay below its sum. */
  lemma {:induction false} SumPair<T>(xs: seq<T>, f: T -> int, g: T -> int, h: T -> int)
    requires forall x | x in xs :: f(x) + g(x) <= h(x)
    ensures Sum(xs, f) + Sum(xs, g) <= Sum(xs, h)
  {
    if xs != [] {
      SumPair(xs[..|xs| - 1], f, g, h);
    }
  }

  lemma {:induction false} SumSplit<T>(xs: seq<T>, f: T -> int, g: T -> int, h: T -> int)
    requires forall x | x in xs :: f(x) + g(x) == h(x)
    ensures Sum(xs, f) + Sum(xs, g) == Sum(xs, h)
  {
    if xs != [] {
      SumSplit(xs[..|xs| - 1], f, g, h);
    }
  }

  lemma {:induction false} SumAtLeast<T>(xs: seq<T>, i: nat, f: T -> int)
    requires i < |xs|
    requires forall x | x in xs :: 0 <= f(x)
    ensures f(xs[i]) <= Sum(xs, f)
  {
    var n := |xs| - 1;
    if i < n {
      SumAtLeast(xs[..n], i, f);
    } else {
      SumNonNegative(xs[..n], f);
    }
  }

  lemma {:induction false} SumAtLeastTwo<T>(xs: seq<T>, i: nat, j: nat, f: T -> int)
    requires i < j < |xs|
    requires forall x | x in xs :: 0 <= f(x)
    ensures f(xs[i]) + f(xs[j]) <= Sum(xs, f)
  {
    var n := |xs| - 1;
    if j < n {
      SumAtLeastTwo(xs[..n], i, j, f);
    } else {
      SumAtLeast(xs[..n], i, f);
    }
  }

  lemma {:induction false} SumNonNegative<T>(xs: seq<T>, f: T -> int)
    requires forall x | x in xs :: 0 <= f(x)
    ensures 0 <= Sum(xs, f)
  {
    if xs != [] {
      SumNonNegative(xs[..|xs| - 1], f);
    }
  }

  lemma {:induction false} SumZero<T>(xs: seq<T>, f: T -> int)
    requires forall x | x in xs :: f(x) == 0
    ensures Sum(xs, f) == 0
  {
    if xs != [] {
      SumZero(xs[..|xs| - 1], f);
    }
  }

  /** A sum of zeros and ones is at most the length. */
  lemma {:induction false} SumAtMostLength<T>(xs: seq<T>, f: T -> int)
    requires forall x | x in xs :: 0 <= f(x) <= 1
    ensures 0 <= Sum(xs, f) <= |xs|
  {
    if xs != [] {
      SumAtMostLength(xs[..|xs| - 1], f);
    }
  }

  /** A positive sum has a positive summand. */
  lemma {:induction false} SumPositive<T>(xs: seq<T>, f: T -> int) returns (i: nat)
    requires 0 < Sum(xs, f)
    ensures i < |xs| && 0 < f(xs[i])
  {
    var n := |xs| - 1;
    if 0 < f(xs[n]) {
      i := n;
    } else {
      i := SumPositive(xs[..n], f);
    }
  }
}
