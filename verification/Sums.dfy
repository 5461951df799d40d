/** Sums of integer weights over a sequence, the one notion of "total" used by every other module. */
module Sums {

  function Sum<T>(xs: seq<T>, w: T -> int): int {
    if |xs| == 0 then 0 else Sum(xs[..|xs| - 1], w) + w(xs[|xs| - 1])
  }

  lemma {:induction false} SumPush<T>(xs: seq<T>, x: T, w: T -> int)
    ensures Sum(xs + [x], w) == Sum(xs, w) + w(x)
  {
    assert (xs + [x])[..|xs|] == xs;
  }

  lemma {:induction false} SumConcat<T>(xs: seq<T>, ys: seq<T>, w: T -> int)
    ensures Sum(xs + ys, w) == Sum(xs, w) + Sum(ys, w)
  {
    if |ys| == 0 {
      assert xs + ys == xs;
    } else {
      var front := ys[..|ys| - 1];
      SumConcat(xs, front, w);
      assert (xs + ys)[..|xs + ys| - 1] == xs + front;
    }
  }

  lemma {:induction false} SumUpdate<T>(xs: seq<T>, i: nat, x: T, w: T -> int)
    requires i < |xs|
    ensures Sum(xs[i := x], w) == Sum(xs, w) - w(xs[i]) + w(x)
  {
    assert xs == xs[..i] + [xs[i]] + xs[i + 1..];
    assert xs[i := x] == xs[..i] + [x] + xs[i + 1..];
    SumConcat(xs[..i] + [xs[i]], xs[i + 1..], w);
    SumConcat(xs[..i] + [x], xs[i + 1..], w);
    SumPush(xs[..i], xs[i], w);
    SumPush(xs[..i], x, w);
  }

  lemma {:induction false} SumZero<T>(xs: seq<T>, w: T -> int)
    requires forall i :: 0 <= i < |xs| ==> w(xs[i]) == 0
    ensures Sum(xs, w) == 0
  {
    if |xs| > 0 {
      SumZero(xs[..|xs| - 1], w);
    }
  }

  /** Pointwise smaller weights give a smaller total, also when they weigh the elements differently. */
  lemma {:induction false} SumLeq<T>(xs: seq<T>, v: T -> int, w: T -> int)
    requires forall i :: 0 <= i < |xs| ==> v(xs[i]) <= w(xs[i])
    ensures Sum(xs, v) <= Sum(xs, w)
  {
    if |xs| > 0 {
      SumLeq(xs[..|xs| - 1], v, w);
    }
  }

  /** Position by position, one total is at most the other. */
  lemma {:induction false} SumAcross<T, U>(xs: seq<T>, ys: seq<U>, v: T -> int, w: U -> int)
    requires |xs| == |ys| && forall i :: 0 <= i < |xs| ==> v(xs[i]) <= w(ys[i])
    ensures Sum(xs, v) <= Sum(ys, w)
  {
    if |xs| > 0 {
      SumAcross(xs[..|xs| - 1], ys[..|ys| - 1], v, w);
    }
  }

  /** Of two weights, one nowhere above the other, the totals agree exactly when the weights do. */
  lemma {:induction false} SumEqualIff<T>(xs: seq<T>, v: T -> int, w: T -> int)
    requires forall i :: 0 <= i < |xs| ==> v(xs[i]) <= w(xs[i])
    ensures Sum(xs, v) <= Sum(xs, w)
    ensures Sum(xs, v) == Sum(xs, w) <==> forall i :: 0 <= i < |xs| ==> v(xs[i]) == w(xs[i])
  {
    if |xs| > 0 {
      SumEqualIff(xs[..|xs| - 1], v, w);
      assert forall i :: 0 <= i < |xs| - 1 ==> xs[..|xs| - 1][i] == xs[i];
    }
  }

  /** With no negative weight, every single weight is at most the total. */
  lemma {:induction false} SumAtLeast<T>(xs: seq<T>, i: nat, w: T -> int)
    requires i < |xs|
    requires forall k :: 0 <= k < |xs| ==> w(xs[k]) >= 0
    ensures w(xs[i]) <= Sum(xs, w)
  {
    var rest := xs[..|xs| - 1];
    if i < |rest| {
      SumAtLeast(rest, i, w);
    } else {
      SumNonNegative(rest, w);
    }
  }

  lemma {:induction false} SumNonNegative<T>(xs: seq<T>, w: T -> int)
    requires forall k :: 0 <= k < |xs| ==> w(xs[k]) >= 0
    ensures Sum(xs, w) >= 0
  {
    if |xs| > 0 {
      SumNonNegative(xs[..|xs| - 1], w);
    }
  }

  lemma {:induction false} SumAdd<T>(xs: seq<T>, u: T -> int, v: T -> int, w: T -> int)
    requires forall i :: 0 <= i < |xs| ==> u(xs[i]) == v(xs[i]) + w(xs[i])
    ensures Sum(xs, u) == Sum(xs, v) + Sum(xs, w)
  {
    if |xs| > 0 {
      SumAdd(xs[..|xs| - 1], u, v, w);
    }
  }

  lemma {:induction false} SumTakeOut<T>(xs: seq<T>, i: nat, w: T -> int)
    requires i < |xs|
    ensures Sum(xs, w) == Sum(xs[..i] + xs[i + 1..], w) + w(xs[i])
    ensures multiset(xs) == multiset(xs[..i] + xs[i + 1..]) + multiset{xs[i]}
  {
    assert xs == xs[..i] + [xs[i]] + xs[i + 1..];
    SumConcat(xs[..i] + [xs[i]], xs[i + 1..], w);
    SumPush(xs[..i], xs[i], w);
    SumConcat(xs[..i], xs[i + 1..], w);
  }

  /** Fewer elements, none of negative weight, make a smaller total, in whatever order they come. */
  lemma {:induction false} SumSub<T>(xs: seq<T>, ys: seq<T>, w: T -> int)
    requires multiset(xs) <= multiset(ys)
    requires forall y :: y in multiset(ys) ==> w(y) >= 0
    ensures Sum(xs, w) <= Sum(ys, w)
    decreases |xs|
  {
    if |xs| == 0 {
      forall k | 0 <= k < |ys| ensures w(ys[k]) >= 0 {
        assert ys[k] in multiset(ys);
      }
      SumNonNegative(ys, w);
    } else {
      var n := |xs| - 1;
      assert xs == xs[..n] + [xs[n]];
      assert xs[n] in multiset(xs);
      var i :| 0 <= i < |ys| && ys[i] == xs[n];
      SumTakeOut(ys, i, w);
      assert multiset(xs[..n]) == multiset(xs) - multiset{xs[n]};
      SumSub(xs[..n], ys[..i] + ys[i + 1..], w);
    }
  }

  /** The total does not depend on the order. */
  lemma {:induction false} SumReorder<T>(xs: seq<T>, ys: seq<T>, w: T -> int)
    requires multiset(xs) == multiset(ys)
    ensures Sum(xs, w) == Sum(ys, w)
    decreases |xs|
  {
    if |xs| == 0 {
      assert |ys| == |multiset(ys)| == 0;
    } else {
      var n := |xs| - 1;
      assert xs == xs[..n] + [xs[n]];
      assert xs[n] in multiset(xs);
      var i :| 0 <= i < |ys| && ys[i] == xs[n];
      SumTakeOut(ys, i, w);
      assert multiset(xs[..n]) == multiset(xs) - multiset{xs[n]};
      SumReorder(xs[..n], ys[..i] + ys[i + 1..], w);
    }
  }

  lemma {:induction false} SubsetSize<T>(a: set<T>, b: set<T>)
    requires a <= b
    ensures |a| <= |b|
  {
    if a != {} {
      var x :| x in a;
      SubsetSize(a - {x}, b - {x});
    }
  }
}
