/**
 The parameter-recovery test of `ddm_test.py`: a grid of DDM models over
 `(d, sigma)`, a uniform prior over the grid, and the trial-by-trial
 posterior update over the likelihood lists computed for each model.

 The artificial trials and the likelihood lists come from the `DDM` class,
 which is not part of this model; the likelihood lists are an input here.
 */
module DdmTest {
  import opened Reals
  import opened Seqs
  import opened Posterior

  /** The key of a model, `model.params`. */
  datatype DdmParams = DdmParams(d: real, sigma: real)

  /** One row of the grid: a fixed `d` with every `sigma`. */
  function GridRow(d: real, rangeSigma: seq<real>): (row: seq<DdmParams>)
    ensures |row| == |rangeSigma|
    ensures forall j :: 0 <= j < |row| ==> row[j] == DdmParams(d, rangeSigma[j])
  {
    seq(|rangeSigma|, j requires 0 <= j < |rangeSigma| => DdmParams(d, rangeSigma[j]))
  }

  function GridRows(rangeD: seq<real>, rangeSigma: seq<real>): (rows: seq<seq<DdmParams>>)
    ensures |rows| == |rangeD|
    ensures forall i :: 0 <= i < |rangeD| ==> rows[i] == GridRow(rangeD[i], rangeSigma)
  {
    seq(|rangeD|, i requires 0 <= i < |rangeD| => GridRow(rangeD[i], rangeSigma))
  }

  /** The model list of the nested loops `for d in range_d: for sigma in
      range_sigma`: one model per pair, `d` the outer index. */
  function ModelGrid(rangeD: seq<real>, rangeSigma: seq<real>): (models: seq<DdmParams>)
    ensures |models| == |rangeD| * |rangeSigma|
  {
    FlattenLength(GridRows(rangeD, rangeSigma), |rangeSigma|);
    Flatten(GridRows(rangeD, rangeSigma))
  }

  /** The grid holds exactly the pairs of a `d` from `range_d` and a `sigma`
      from `range_sigma`. */
  lemma GridMembers(rangeD: seq<real>, rangeSigma: seq<real>)
    ensures forall m :: m in ModelGrid(rangeD, rangeSigma) <==> m.d in rangeD && m.sigma in rangeSigma
  {
    var rows, models := GridRows(rangeD, rangeSigma), ModelGrid(rangeD, rangeSigma);
    forall m
      ensures m in models <==> m.d in rangeD && m.sigma in rangeSigma
    {
      if m in models {
        var k :| 0 <= k < |models| && models[k] == m;
        var i, j := FlattenMember(rows, k);
      }
      if m.d in rangeD && m.sigma in rangeSigma {
        var i :| 0 <= i < |rangeD| && rangeD[i] == m.d;
        var j :| 0 <= j < |rangeSigma| && rangeSigma[j] == m.sigma;
        FlattenHas(rows, i, j);
      }
    }
  }

  /** Ranges without repetitions give a model list without repetitions, so
      the posterior dictionary has one key per model. */
  lemma GridDistinct(rangeD: seq<real>, rangeSigma: seq<real>)
    requires Distinct(rangeD) && Distinct(rangeSigma)
    ensures Distinct(ModelGrid(rangeD, rangeSigma))
  {
    FlattenDistinct(GridRows(rangeD, rangeSigma));
  }

  /** Grid order: the pair `(rangeD[i], rangeSigma[j])` is model number
      `i * len(range_sigma) + j`. */
  lemma GridOrder(rangeD: seq<real>, rangeSigma: seq<real>, i: nat, j: nat)
    requires i < |rangeD| && j < |rangeSigma|
    ensures i * |rangeSigma| + j < |ModelGrid(rangeD, rangeSigma)|
    ensures ModelGrid(rangeD, rangeSigma)[i * |rangeSigma| + j] == DdmParams(rangeD[i], rangeSigma[j])
  {
    FlattenIndex(GridRows(rangeD, rangeSigma), |rangeSigma|, i, j);
  }

  /** `numModels = len(range_d) * len(range_sigma)` and every prior is
      `1 / numModels`; with non-empty ranges the prior is a probability
      vector over the grid. */
  lemma GridPrior(rangeD: seq<real>, rangeSigma: seq<real>)
    ensures var models := ModelGrid(rangeD, rangeSigma);
            forall m :: m in UniformPrior(models) ==>
              UniformPrior(models)[m] == 1.0 / (|rangeD| * |rangeSigma|) as real
    ensures var models := ModelGrid(rangeD, rangeSigma);
            |rangeD| > 0 && |rangeSigma| > 0 ==> IsDistribution(Values(UniformPrior(models), models))
  {
    var models := ModelGrid(rangeD, rangeSigma);
    if |rangeD| > 0 && |rangeSigma| > 0 {
      PositiveCount(|rangeD|, |rangeSigma|);
    }
  }

  /** The likelihood of trial `t` under each model, in model order:
      `likelihoods[model.params][t]`. */
  function TrialLikelihoods(models: seq<DdmParams>, likelihoods: map<DdmParams, seq<real>>, numTrials: nat)
    : (trials: seq<seq<real>>)
    requires forall i :: 0 <= i < |models| ==> models[i] in likelihoods && |likelihoods[models[i]]| == numTrials
    ensures |trials| == numTrials
    ensures forall t :: 0 <= t < numTrials ==> |trials[t]| == |models|
    ensures forall t, i :: 0 <= t < numTrials && 0 <= i < |models| ==> trials[t][i] == likelihoods[models[i]][t]
  {
    seq(numTrials, t requires 0 <= t < numTrials =>
          seq(|models|, i requires 0 <= i < |models| => likelihoods[models[i]][t]))
  }

  /** The grid search of `main`: the models in grid order, a uniform prior,
      then trials `0 .. numTrials - 1` in order. With ranges free of
      repetitions the final posterior is the trial-by-trial `Fold` of the
      prior, and a probability vector when the likelihoods are non-negative. */
  method EstimatePosteriors(rangeD: seq<real>, rangeSigma: seq<real>,
                            likelihoods: map<DdmParams, seq<real>>, numTrials: nat)
    returns (models: seq<DdmParams>, posteriors: map<DdmParams, real>)
    requires forall m :: m in ModelGrid(rangeD, rangeSigma) ==> m in likelihoods && |likelihoods[m]| == numTrials
    ensures models == ModelGrid(rangeD, rangeSigma)
    ensures forall m :: m in posteriors <==> m in models
    ensures Distinct(rangeD) && Distinct(rangeSigma) ==>
              Values(posteriors, models) ==
              Fold(Values(UniformPrior(models), models), TrialLikelihoods(models, likelihoods, numTrials))
    ensures Distinct(rangeD) && Distinct(rangeSigma) && |models| > 0 &&
            (forall m :: m in likelihoods ==> NonNegative(likelihoods[m])) ==>
              IsDistribution(Values(posteriors, models))
  {
    models := ModelGrid(rangeD, rangeSigma);
    if Distinct(rangeD) && Distinct(rangeSigma) {
      GridDistinct(rangeD, rangeSigma);
    }
    var trials := TrialLikelihoods(models, likelihoods, numTrials);
    posteriors := ObserveTrials(UniformPrior(models), models, trials);
    assert (forall m :: m in likelihoods ==> NonNegative(likelihoods[m])) ==> AllNonNegative(trials) by {
      if forall m :: m in likelihoods ==> NonNegative(likelihoods[m]) {
        forall t | 0 <= t < |trials|
          ensures NonNegative(trials[t])
        {
          forall i | 0 <= i < |models|
            ensures trials[t][i] >= 0.0
          {
            assert NonNegative(likelihoods[models[i]]);
          }
        }
      }
    }
  }
}
