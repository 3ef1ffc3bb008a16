/** Sums of finite sequences of reals (the `reduce((sum, x) => sum + x, 0)`
    the component applies to weights, percentages and amounts), and the facts
    about them that the allocation relies on. */
module Sums {

  function Sum(xs: seq<real>): real
  {
    if xs == [] then 0.0 else xs[0] + Sum(xs[1..])
  }

  predicate AllNonNegative(xs: seq<real>)
  {
    forall i :: 0 <= i < |xs| ==> xs[i] >= 0.0
  }

  /** A sum of non-negative terms is non-negative, and positive exactly when
      one of its terms is. */
  lemma {:induction false} SumNonNegative(xs: seq<real>)
    requires AllNonNegative(xs)
    ensures Sum(xs) >= 0.0
    ensures Sum(xs) > 0.0 <==> exists i :: 0 <= i < |xs| && xs[i] > 0.0
  {
    if xs != [] {
      SumNonNegative(xs[1..]);
      if exists i :: 0 <= i < |xs[1..]| && xs[1..][i] > 0.0 {
        var i :| 0 <= i < |xs[1..]| && xs[1..][i] > 0.0;
        assert xs[i + 1] > 0.0;
      }
      if exists i :: 0 <= i < |xs| && xs[i] > 0.0 {
        var i :| 0 <= i < |xs| && xs[i] > 0.0;
        if i > 0 {
          assert xs[1..][i - 1] > 0.0;
        }
      }
    }
  }

  /** Every non-negative term is at most the sum. */
  lemma {:induction false} TermWithinSum(xs: seq<real>, i: nat)
    requires AllNonNegative(xs) && i < |xs|
    ensures xs[i] <= Sum(xs)
  {
    SumNonNegative(xs[1..]);
    if i > 0 {
      TermWithinSum(xs[1..], i - 1);
    }
  }

  /** Scaling every term by 100 / t scales the sum the same way. */
  lemma {:induction false} SumScaled(xs: seq<real>, ys: seq<real>, t: real)
    requires t != 0.0 && |ys| == |xs|
    requires forall i :: 0 <= i < |xs| ==> ys[i] == (xs[i] / t) * 100.0
    ensures Sum(ys) == (Sum(xs) / t) * 100.0
  {
    if xs != [] {
      SumScaled(xs[1..], ys[1..], t);
      ScaledAdd(xs[0], Sum(xs[1..]), t);
    }
  }

  /** Taking the share `b * p / 100` of every term takes that share of the sum. */
  lemma {:induction false} SumShares(ps: seq<real>, ys: seq<real>, b: real)
    requires |ys| == |ps|
    requires forall i :: 0 <= i < |ps| ==> ys[i] == (b * ps[i]) / 100.0
    ensures Sum(ys) == (b * Sum(ps)) / 100.0
  {
    if ps != [] {
      SumShares(ps[1..], ys[1..], b);
      ShareAdd(b, ps[0], Sum(ps[1..]));
    }
  }

  /** A sum of zeros is zero. */
  lemma {:induction false} SumOfZeros(xs: seq<real>)
    requires forall i :: 0 <= i < |xs| ==> xs[i] == 0.0
    ensures Sum(xs) == 0.0
  {
    if xs != [] {
      SumOfZeros(xs[1..]);
    }
  }

  lemma ScaledAdd(x: real, y: real, t: real)
    requires t != 0.0
    ensures (x / t) * 100.0 + (y / t) * 100.0 == ((x + y) / t) * 100.0
  {
  }

  lemma ShareAdd(b: real, p: real, q: real)
    ensures (b * p) / 100.0 + (b * q) / 100.0 == (b * (p + q)) / 100.0
  {
  }
}
