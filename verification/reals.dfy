/**
 Finite sums over sequences of reals, the one piece of arithmetic shared by
 the likelihood engine (probability mass over states) and the posterior
 estimator (probability mass over models).
 */
module Reals {

  /** Sum of all entries, accumulated from the front as numpy's `np.sum` and the
      drivers' `denominator +=` loops do. */
  function Sum(s: seq<real>): real
  {
    if |s| == 0 then 0.0 else Sum(s[..|s| - 1]) + s[|s| - 1]
  }

  /** Inner product `Σ a[i] * b[i]`, as `np.dot` of two vectors. */
  function Dot(a: seq<real>, b: seq<real>): real
    requires |a| == |b|
  {
    if |a| == 0 then 0.0 else Dot(a[..|a| - 1], b[..|b| - 1]) + a[|a| - 1] * b[|b| - 1]
  }

  predicate NonNegative(s: seq<real>)
  {
    forall i :: 0 <= i < |s| ==> s[i] >= 0.0
  }

  lemma SumAppend(s: seq<real>, x: real)
    ensures Sum(s + [x]) == Sum(s) + x
  {
    assert (s + [x])[..|s|] == s;
  }

  /** A sum of non-negative entries is non-negative. */
  lemma {:induction false} SumNonNegative(s: seq<real>)
    requires NonNegative(s)
    ensures Sum(s) >= 0.0
  {
    if |s| > 0 {
      SumNonNegative(s[..|s| - 1]);
    }
  }

  /** Every entry of a non-negative sequence is bounded by the sum. */
  lemma {:induction false} EntryAtMostSum(s: seq<real>, k: int)
    requires NonNegative(s)
    requires 0 <= k < |s|
    ensures s[k] <= Sum(s)
  {
    var init := s[..|s| - 1];
    if k == |s| - 1 {
      SumNonNegative(init);
    } else {
      EntryAtMostSum(init, k);
    }
  }

  /** Multiplying every entry by the same factor multiplies the sum by it. */
  lemma {:induction false} SumScaled(s: seq<real>, t: seq<real>, c: real)
    requires |s| == |t|
    requires forall i :: 0 <= i < |s| ==> t[i] == s[i] * c
    ensures Sum(t) == Sum(s) * c
  {
    if |s| > 0 {
      var n := |s| - 1;
      SumScaled(s[..n], t[..n], c);
      calc {
        Sum(t);
        Sum(t[..n]) + t[n];
        Sum(s[..n]) * c + s[n] * c;
        (Sum(s[..n]) + s[n]) * c;
      }
    }
  }

  /** Each entry rescaled by `num / den`, computed as `(x * num) / den`. */
  function Rescale(s: seq<real>, num: real, den: real): (r: seq<real>)
    requires den != 0.0
    ensures |r| == |s|
    ensures forall i :: 0 <= i < |s| ==> r[i] == s[i] * (num / den)
  {
    seq(|s|, i requires 0 <= i < |s| => s[i] * num / den)
  }

  /** A mixture with strictly positive weights of a non-negative vector with
      positive total mass is strictly positive. */
  lemma {:induction false} DotPositive(p: seq<real>, w: seq<real>)
    requires |p| == |w|
    requires NonNegative(p)
    requires forall i :: 0 <= i < |w| ==> w[i] > 0.0
    requires Sum(p) > 0.0
    ensures Dot(p, w) > 0.0
  {
    var n := |p| - 1;
    var p', w' := p[..n], w[..n];
    if Sum(p') > 0.0 {
      DotPositive(p', w');
      assert p[n] * w[n] >= 0.0;
    } else {
      DotNonNegative(p', w');
      assert p[n] > 0.0;
      assert p[n] * w[n] > 0.0;
    }
  }

  /** A mixture with non-negative weights of a non-negative vector is non-negative. */
  lemma {:induction false} DotNonNegative(p: seq<real>, w: seq<real>)
    requires |p| == |w|
    requires NonNegative(p) && NonNegative(w)
    ensures Dot(p, w) >= 0.0
  {
    if |p| > 0 {
      var n := |p| - 1;
      DotNonNegative(p[..n], w[..n]);
      assert p[n] * w[n] >= 0.0;
    }
  }

  /** The sum of the pointwise products is the inner product. */
  lemma {:induction false} SumOfProducts(a: seq<real>, b: seq<real>, t: seq<real>)
    requires |a| == |b| == |t|
    requires forall i :: 0 <= i < |t| ==> t[i] == a[i] * b[i]
    ensures Sum(t) == Dot(a, b)
  {
    if |t| > 0 {
      var n := |t| - 1;
      SumOfProducts(a[..n], b[..n], t[..n]);
    }
  }

  lemma NonNegativeProduct(a: real, b: real)
    requires a >= 0.0 && b >= 0.0
    ensures a * b >= 0.0
  {
  }

  lemma PositiveProduct(a: real, b: real)
    requires a > 0.0 && b > 0.0
    ensures a * b > 0.0
  {
  }

  lemma QuotientPositive(x: real, k: real)
    requires x > 0.0 && k > 0.0
    ensures x / k > 0.0
  {
  }

  /** A product of two positive counts (of grid points, of models) is positive. */
  lemma PositiveCount(a: nat, b: nat)
    requires a > 0 && b > 0
    ensures a * b > 0
  {
  }
}
