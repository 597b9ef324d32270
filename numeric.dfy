/** Arithmetic helpers shared by the feature engine and the backtester: sums and
    means of real sequences (numpy's sum/mean on float arrays, without rounding). */
module Numeric {

  /** Sum of a sequence, accumulated left to right. */
  function Sum(xs: seq<real>): real
  {
    if xs == [] then 0.0 else Sum(xs[..|xs| - 1]) + xs[|xs| - 1]
  }

  /** Arithmetic mean of a non-empty sequence. */
  function Mean(xs: seq<real>): real
    requires |xs| > 0
  {
    Sum(xs) / (|xs| as real)
  }

  function Abs(x: real): (r: real)
    ensures r >= 0.0
    ensures r == x || r == -x
  {
    if x < 0.0 then -x else x
  }

  predicate AllNonNegative(xs: seq<real>)
  {
    forall i :: 0 <= i < |xs| ==> xs[i] >= 0.0
  }

  lemma {:induction false} SumNonNegative(xs: seq<real>)
    requires AllNonNegative(xs)
    ensures Sum(xs) >= 0.0
  {
    if xs != [] {
      SumNonNegative(xs[..|xs| - 1]);
    }
  }

  /** With no negative entry, the first entry never exceeds the total. */
  lemma {:induction false} SumAtLeastFirst(xs: seq<real>)
    requires |xs| > 0 && AllNonNegative(xs)
    ensures Sum(xs) >= xs[0]
  {
    if |xs| > 1 {
      var init := xs[..|xs| - 1];
      assert init[0] == xs[0];
      SumAtLeastFirst(init);
    }
  }

  /** A sequence of n copies of c sums to n * c. */
  lemma {:induction false} SumConstant(xs: seq<real>, c: real)
    requires forall i :: 0 <= i < |xs| ==> xs[i] == c
    ensures Sum(xs) == (|xs| as real) * c
  {
    if xs != [] {
      SumConstant(xs[..|xs| - 1], c);
    }
  }

  /** The sign of a product with a positive factor is the sign of the other factor. */
  lemma FactorSign(x: real, d: real)
    requires d > 0.0
    ensures x * d > 0.0 ==> x > 0.0
    ensures x * d < 0.0 ==> x < 0.0
    ensures x * d == 0.0 ==> x == 0.0
  {
  }

  /** Dividing by a quotient: 1 / (a / b) == b / a. */
  lemma Reciprocal(a: real, b: real)
    requires a != 0.0 && b != 0.0
    ensures 1.0 / (a / b) == b / a
  {
  }

  /** Cancelling a common non-zero factor. */
  lemma Cancel(k: real, d: real)
    requires k != 0.0 && d != 0.0
    ensures (k * d) / k == d
    ensures k / (k * d) == 1.0 / d
  {
  }
}
