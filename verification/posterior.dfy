/**
 The sequential Bayesian update shared by the grid-search drivers
 (`ddm_test.py`, `addm_test_individual.py`, `individual_posteriors.py`).

 A finite list of candidate models carries a posterior. For each trial, with
 `likelihoods[i]` the likelihood of that trial under model `i`, the drivers
 compute `denominator = Σ posterior[i] * likelihoods[i]`. A denominator of
 exactly zero skips the trial; otherwise every posterior becomes
 `likelihoods[i] * posterior[i] / denominator`.

 The update is first stated on vectors (`Update`, `Fold`) and then on the
 dictionaries the scripts keep (`ObserveTrial`, `ObserveTrials`).
 */
module Posterior {
  import opened Reals
  import opened Seqs

  /** A probability vector: non-negative entries summing to one. */
  predicate IsDistribution(p: seq<real>)
  {
    NonNegative(p) && Sum(p) == 1.0
  }

  /** Every trial gives every model a likelihood, one per model. */
  predicate Rows(prior: seq<real>, trials: seq<seq<real>>)
  {
    forall t :: 0 <= t < |trials| ==> |trials[t]| == |prior|
  }

  predicate AllNonNegative(trials: seq<seq<real>>)
  {
    forall t :: 0 <= t < |trials| ==> NonNegative(trials[t])
  }

  /** The normalising constant of one trial, `Σ posterior[i] * likelihoods[i]`. */
  function Denominator(post: seq<real>, lik: seq<real>): real
    requires |post| == |lik|
  {
    Dot(post, lik)
  }

  /** One trial of the grid search. A zero denominator leaves the posterior
      as it was; otherwise the new posterior is proportional to likelihood
      times prior and sums to one. */
  function Update(post: seq<real>, lik: seq<real>): (r: seq<real>)
    requires |post| == |lik|
    ensures |r| == |post|
    ensures Denominator(post, lik) == 0.0 ==> r == post
    ensures Denominator(post, lik) != 0.0 ==> Sum(r) == 1.0
    ensures forall i :: 0 <= i < |r| && post[i] == 0.0 ==> r[i] == 0.0
    ensures NonNegative(post) && NonNegative(lik) ==> NonNegative(r)
  {
    var den := Denominator(post, lik);
    if den == 0.0 then post
    else
      var r := Divide(post, lik, den);
      NormalisedSum(post, lik, r, den);
      UpdatedEntries(post, lik, r, den);
      DenominatorSign(post, lik);
      r
  }

  /** `likelihood * prior / denominator` for every model. */
  function Divide(post: seq<real>, lik: seq<real>, den: real): (r: seq<real>)
    requires |post| == |lik| && den != 0.0
    ensures |r| == |post|
    ensures forall i :: 0 <= i < |r| ==> r[i] == lik[i] * post[i] / den
  {
    seq(|post|, i requires 0 <= i < |post| => lik[i] * post[i] / den)
  }

  /** Entry by entry, the new posteriors times the denominator are likelihood
      times prior; hence zero stays zero and signs are kept. */
  lemma UpdatedEntries(post: seq<real>, lik: seq<real>, r: seq<real>, den: real)
    requires |post| == |lik| == |r|
    requires den != 0.0
    requires forall i :: 0 <= i < |r| ==> r[i] == lik[i] * post[i] / den
    ensures forall i :: 0 <= i < |r| && post[i] == 0.0 ==> r[i] == 0.0
    ensures den > 0.0 && NonNegative(post) && NonNegative(lik) ==> NonNegative(r)
  {
    forall i | 0 <= i < |r|
      ensures post[i] == 0.0 ==> r[i] == 0.0
      ensures den > 0.0 && post[i] >= 0.0 && lik[i] >= 0.0 ==> r[i] >= 0.0
    {
      Entry(r[i], lik[i], post[i], den);
    }
  }

  /** Non-negative posteriors and likelihoods give a non-negative denominator. */
  lemma DenominatorSign(post: seq<real>, lik: seq<real>)
    requires |post| == |lik|
    ensures NonNegative(post) && NonNegative(lik) ==> Denominator(post, lik) >= 0.0
  {
    if NonNegative(post) && NonNegative(lik) {
      DotNonNegative(post, lik);
    }
  }

  lemma Entry(x: real, l: real, p: real, den: real)
    requires den != 0.0 && x == l * p / den
    ensures p == 0.0 ==> x == 0.0
    ensures l >= 0.0 && p >= 0.0 && den > 0.0 ==> x >= 0.0
  {
  }

  function Products(a: seq<real>, b: seq<real>): (t: seq<real>)
    requires |a| == |b|
    ensures |t| == |a|
    ensures forall i :: 0 <= i < |a| ==> t[i] == a[i] * b[i]
  {
    seq(|a|, i requires 0 <= i < |a| => a[i] * b[i])
  }

  /** The new posteriors sum to one. */
  lemma NormalisedSum(post: seq<real>, lik: seq<real>, r: seq<real>, den: real)
    requires |post| == |lik| == |r|
    requires den == Dot(post, lik) && den != 0.0
    requires forall i :: 0 <= i < |r| ==> r[i] == lik[i] * post[i] / den
    ensures Sum(r) == 1.0
  {
    var t := Products(post, lik);
    var c := 1.0 / den;
    ScaledTerms(post, lik, r, den, t, c);
    SumOfProducts(post, lik, t);
    SumScaled(t, r, c);
    Reciprocal(den, c);
    calc {
      Sum(r);
      Sum(t) * c;
      den * c;
      1.0;
    }
  }

  lemma ScaledTerms(post: seq<real>, lik: seq<real>, r: seq<real>, den: real, t: seq<real>, c: real)
    requires |post| == |lik| == |r| == |t|
    requires den != 0.0 && c == 1.0 / den
    requires forall i :: 0 <= i < |r| ==> r[i] == lik[i] * post[i] / den
    requires forall i :: 0 <= i < |r| ==> t[i] == post[i] * lik[i]
    ensures forall i :: 0 <= i < |r| ==> r[i] == t[i] * c
  {
    forall i | 0 <= i < |r|
      ensures r[i] == t[i] * c
    {
      QuotientAsScale(lik[i], post[i], den);
    }
  }

  lemma QuotientAsScale(a: real, b: real, den: real)
    requires den != 0.0
    ensures a * b / den == b * a * (1.0 / den)
  {
  }

  lemma Reciprocal(n: real, c: real)
    requires n != 0.0 && c == 1.0 / n
    ensures n * c == 1.0
    ensures n > 0.0 ==> c > 0.0
  {
  }

  /** A trial that is not skipped multiplies the posterior ratio of two models
      by their likelihood ratio. */
  lemma UpdateRatio(post: seq<real>, lik: seq<real>, i: int, j: int)
    requires |post| == |lik|
    requires 0 <= i < |post| && 0 <= j < |post|
    requires Denominator(post, lik) != 0.0
    requires post[j] != 0.0 && lik[j] != 0.0
    ensures Update(post, lik)[j] != 0.0
    ensures Update(post, lik)[i] / Update(post, lik)[j] == (lik[i] / lik[j]) * (post[i] / post[j])
  {
    UpdateIsDivide(post, lik);
    DivideRatio(post, lik, Denominator(post, lik), i, j);
  }

  lemma DivideRatio(post: seq<real>, lik: seq<real>, den: real, i: int, j: int)
    requires |post| == |lik| && den != 0.0
    requires 0 <= i < |post| && 0 <= j < |post|
    requires post[j] != 0.0 && lik[j] != 0.0
    ensures Divide(post, lik, den)[j] != 0.0
    ensures Divide(post, lik, den)[i] / Divide(post, lik, den)[j] == (lik[i] / lik[j]) * (post[i] / post[j])
  {
    var x, y := Divide(post, lik, den)[i], Divide(post, lik, den)[j];
    DivideEntry(post, lik, den, i, x);
    DivideEntry(post, lik, den, j, y);
    RatioEntry(x, y, lik[i], lik[j], post[i], post[j], den);
  }

  lemma UpdateIsDivide(post: seq<real>, lik: seq<real>)
    requires |post| == |lik| && Denominator(post, lik) != 0.0
    ensures Update(post, lik) == Divide(post, lik, Denominator(post, lik))
  {
  }

  lemma DivideEntry(post: seq<real>, lik: seq<real>, den: real, i: int, x: real)
    requires |post| == |lik| && den != 0.0 && 0 <= i < |post|
    requires x == Divide(post, lik, den)[i]
    ensures x == lik[i] * post[i] / den
  {
  }

  lemma RatioEntry(x: real, y: real, li: real, lj: real, pi: real, pj: real, den: real)
    requires den != 0.0 && lj != 0.0 && pj != 0.0
    requires x == li * pi / den && y == lj * pj / den
    ensures y != 0.0
    ensures x / y == (li / lj) * (pi / pj)
  {
    NonZeroProduct(lj, pj);
    RatioOfQuotients(li * pi, lj * pj, den);
    SplitRatio(li, pi, lj, pj);
  }

  lemma NonZeroProduct(a: real, b: real)
    requires a != 0.0 && b != 0.0
    ensures a * b != 0.0
  {
  }

  lemma RatioOfQuotients(a: real, b: real, den: real)
    requires b != 0.0 && den != 0.0
    ensures b / den != 0.0
    ensures (a / den) / (b / den) == a / b
  {
  }

  lemma SplitRatio(a: real, b: real, c: real, d: real)
    requires c != 0.0 && d != 0.0
    ensures (a * b) / (c * d) == (a / c) * (b / d)
  {
  }

  /** The posterior after the trials in index order, each trial's posterior
      the prior of the next. A model at zero stays at zero, and a probability
      vector stays one when all likelihoods are non-negative. */
  function Fold(prior: seq<real>, trials: seq<seq<real>>): (r: seq<real>)
    requires Rows(prior, trials)
    ensures |r| == |prior|
    ensures forall i :: 0 <= i < |r| && prior[i] == 0.0 ==> r[i] == 0.0
    ensures IsDistribution(prior) && AllNonNegative(trials) ==> IsDistribution(r)
    decreases |trials|
  {
    if |trials| == 0 then prior
    else Update(Fold(prior, trials[..|trials| - 1]), trials[|trials| - 1])
  }

  /** Folding two runs of trials one after the other is folding their
      concatenation: the posterior is never reset between them. */
  lemma {:induction false} FoldAppend(prior: seq<real>, a: seq<seq<real>>, b: seq<seq<real>>)
    requires Rows(prior, a) && Rows(prior, b)
    ensures Rows(prior, a + b)
    ensures Fold(prior, a + b) == Fold(Fold(prior, a), b)
    decreases |b|
  {
    if |b| == 0 {
      assert a + b == a;
    } else {
      var b' := b[..|b| - 1];
      assert (a + b)[..|a + b| - 1] == a + b';
      FoldAppend(prior, a, b');
    }
  }

  /** The posterior dictionary read in the order of the model list. */
  function Values<M>(post: map<M, real>, models: seq<M>): (v: seq<real>)
    requires forall i :: 0 <= i < |models| ==> models[i] in post
    ensures |v| == |models|
    ensures forall i :: 0 <= i < |models| ==> v[i] == post[models[i]]
  {
    seq(|models|, i requires 0 <= i < |models| => post[models[i]])
  }

  /** The prior the drivers build while enumerating the models:
      `posteriors[model] = 1. / numModels`, with `numModels` the length of
      the model list. */
  function UniformPrior<M(!new)>(models: seq<M>): (post: map<M, real>)
    ensures forall m :: m in post <==> m in models
    ensures forall m :: m in post ==> post[m] == 1.0 / |models| as real
    ensures |models| > 0 ==> IsDistribution(Values(post, models))
  {
    var post := map m | m in models :: 1.0 / |models| as real;
    UniformSum(Values(post, models));
    post
  }

  /** `n` entries of `1 / n` form a probability vector. */
  lemma UniformSum(v: seq<real>)
    requires forall i :: 0 <= i < |v| ==> v[i] == 1.0 / |v| as real
    ensures |v| > 0 ==> IsDistribution(v)
  {
    if |v| > 0 {
      var c := 1.0 / |v| as real;
      SumConstant(v, c);
      Reciprocal(|v| as real, c);
    }
  }

  lemma {:induction false} SumConstant(s: seq<real>, c: real)
    requires forall i :: 0 <= i < |s| ==> s[i] == c
    ensures Sum(s) == |s| as real * c
  {
    if |s| > 0 {
      SumConstant(s[..|s| - 1], c);
    }
  }

  /** One trial on the posterior dictionary, as the drivers write it: the
      denominator loop over the model list, then, unless the denominator is
      zero, the update loop. With a model list without repetitions this is
      `Update` on the posteriors listed in model order. */
  method ObserveTrial<M>(post: map<M, real>, models: seq<M>, lik: seq<real>) returns (r: map<M, real>)
    requires |lik| == |models|
    requires forall i :: 0 <= i < |models| ==> models[i] in post
    ensures r.Keys == post.Keys
    ensures Denominator(Values(post, models), lik) == 0.0 ==> r == post
    ensures Distinct(models) ==> Values(r, models) == Update(Values(post, models), lik)
  {
    var denominator := TotalEvidence(post, models, lik);
    if denominator == 0.0 {
      return post;
    }
    r := Reweight(post, models, lik, denominator);
  }

  /** The denominator loop: `Σ posteriors[models[i]] * likelihoods[i]`. */
  method TotalEvidence<M>(post: map<M, real>, models: seq<M>, lik: seq<real>) returns (denominator: real)
    requires |lik| == |models|
    requires forall i :: 0 <= i < |models| ==> models[i] in post
    ensures denominator == Denominator(Values(post, models), lik)
  {
    ghost var before := Values(post, models);
    denominator := 0.0;
    var i := 0;
    while i < |models|
      invariant 0 <= i <= |models|
      invariant denominator == Dot(before[..i], lik[..i])
    {
      assert before[..i + 1][..i] == before[..i] && lik[..i + 1][..i] == lik[..i];
      denominator := denominator + post[models[i]] * lik[i];
      i := i + 1;
    }
    assert before[..i] == before && lik[..i] == lik;
  }

  /** The update loop: each model in list order takes its likelihood times its
      current posterior over the denominator. */
  method Reweight<M>(post: map<M, real>, models: seq<M>, lik: seq<real>, denominator: real)
    returns (r: map<M, real>)
    requires |lik| == |models| && denominator != 0.0
    requires forall i :: 0 <= i < |models| ==> models[i] in post
    ensures r.Keys == post.Keys
    ensures Distinct(models) ==> Values(r, models) == Divide(Values(post, models), lik, denominator)
  {
    ghost var before := Values(post, models);
    ghost var after := Divide(before, lik, denominator);
    r := post;
    var i := 0;
    while i < |models|
      invariant 0 <= i <= |models|
      invariant r.Keys == post.Keys
      invariant Distinct(models) ==> forall j :: 0 <= j < i ==> r[models[j]] == after[j]
      invariant Distinct(models) ==> forall j :: i <= j < |models| ==> r[models[j]] == before[j]
    {
      var prior := r[models[i]];
      r := r[models[i] := lik[i] * prior / denominator];
      i := i + 1;
    }
  }

  /** The trials one after the other on the posterior dictionary. */
  method ObserveTrials<M>(post: map<M, real>, models: seq<M>, trials: seq<seq<real>>)
    returns (r: map<M, real>)
    requires forall i :: 0 <= i < |models| ==> models[i] in post
    requires forall t :: 0 <= t < |trials| ==> |trials[t]| == |models|
    ensures r.Keys == post.Keys
    ensures Distinct(models) ==> Values(r, models) == Fold(Values(post, models), trials)
  {
    r := post;
    var t := 0;
    while t < |trials|
      invariant 0 <= t <= |trials|
      invariant r.Keys == post.Keys
      invariant Distinct(models) ==> Values(r, models) == Fold(Values(post, models), trials[..t])
    {
      assert trials[..t + 1][..t] == trials[..t];
      r := ObserveTrial(r, models, trials[t]);
      t := t + 1;
    }
    assert trials[..t] == trials;
  }
}
