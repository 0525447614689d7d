/**
 The parameter-recovery test of `addm_test_individual.py`: a grid of aDDM
 models over `(d, theta, sigma)`, a uniform prior over the grid, and the
 trial-by-trial posterior update.

 The artificial trials and their likelihoods come from the `addm` module,
 which is not part of this model; the likelihood of trial `t` under a model
 is an input function here. The trial conditions the simulation uses are
 those of module `TrialConditions`.
 */
module AddmTestIndividual {
  import opened Reals
  import opened Seqs
  import opened Posterior

  /** A model, the tuple `(d, theta, sigma)`. */
  datatype AddmParams = AddmParams(d: real, theta: real, sigma: real)

  /** The innermost loop: fixed `d` and `theta`, every `sigma`. */
  function SigmaRow(d: real, theta: real, rangeSigma: seq<real>): (row: seq<AddmParams>)
    ensures |row| == |rangeSigma|
    ensures forall k :: 0 <= k < |row| ==> row[k] == AddmParams(d, theta, rangeSigma[k])
  {
    seq(|rangeSigma|, k requires 0 <= k < |rangeSigma| => AddmParams(d, theta, rangeSigma[k]))
  }

  function ThetaRows(d: real, rangeTheta: seq<real>, rangeSigma: seq<real>): (rows: seq<seq<AddmParams>>)
    ensures |rows| == |rangeTheta|
    ensures forall j :: 0 <= j < |rows| ==> rows[j] == SigmaRow(d, rangeTheta[j], rangeSigma)
  {
    seq(|rangeTheta|, j requires 0 <= j < |rangeTheta| => SigmaRow(d, rangeTheta[j], rangeSigma))
  }

  /** The two inner loops for a fixed `d`. */
  function ThetaBlock(d: real, rangeTheta: seq<real>, rangeSigma: seq<real>): (block: seq<AddmParams>)
    ensures |block| == |rangeTheta| * |rangeSigma|
  {
    FlattenLength(ThetaRows(d, rangeTheta, rangeSigma), |rangeSigma|);
    Flatten(ThetaRows(d, rangeTheta, rangeSigma))
  }

  function Blocks(rangeD: seq<real>, rangeTheta: seq<real>, rangeSigma: seq<real>): (blocks: seq<seq<AddmParams>>)
    ensures |blocks| == |rangeD|
    ensures forall i :: 0 <= i < |blocks| ==> blocks[i] == ThetaBlock(rangeD[i], rangeTheta, rangeSigma)
  {
    seq(|rangeD|, i requires 0 <= i < |rangeD| => ThetaBlock(rangeD[i], rangeTheta, rangeSigma))
  }

  /** The model list of `for d in range_d: for theta in range_theta: for
      sigma in range_sigma: models.append((d, theta, sigma))`. */
  function ModelGrid(rangeD: seq<real>, rangeTheta: seq<real>, rangeSigma: seq<real>): seq<AddmParams>
  {
    Flatten(Blocks(rangeD, rangeTheta, rangeSigma))
  }

  /** One model per triple: `numModels = len(range_d) * len(range_theta) *
      len(range_sigma)`. */
  lemma GridSize(rangeD: seq<real>, rangeTheta: seq<real>, rangeSigma: seq<real>)
    ensures |ModelGrid(rangeD, rangeTheta, rangeSigma)| == |rangeD| * |rangeTheta| * |rangeSigma|
  {
    FlattenLength(Blocks(rangeD, rangeTheta, rangeSigma), |rangeTheta| * |rangeSigma|);
    MulAssociative(|rangeD|, |rangeTheta|, |rangeSigma|);
  }

  lemma MulAssociative(a: nat, b: nat, c: nat)
    ensures a * (b * c) == a * b * c
  {
  }

  lemma IndexArithmetic(i: nat, j: nat, k: nat, nt: nat, ns: nat)
    ensures (i * nt + j) * ns + k == i * (nt * ns) + (j * ns + k)
  {
    assert (i * nt + j) * ns == i * nt * ns + j * ns;
  }

  /** Grid order, `d` outermost and `sigma` innermost: the triple
      `(rangeD[i], rangeTheta[j], rangeSigma[k])` is model number
      `(i * len(range_theta) + j) * len(range_sigma) + k`. */
  lemma GridOrder(rangeD: seq<real>, rangeTheta: seq<real>, rangeSigma: seq<real>, i: nat, j: nat, k: nat, n: nat)
    requires i < |rangeD| && j < |rangeTheta| && k < |rangeSigma|
    requires n == (i * |rangeTheta| + j) * |rangeSigma| + k
    ensures n < |ModelGrid(rangeD, rangeTheta, rangeSigma)| &&
            ModelGrid(rangeD, rangeTheta, rangeSigma)[n] == AddmParams(rangeD[i], rangeTheta[j], rangeSigma[k])
  {
    var nt, ns := |rangeTheta|, |rangeSigma|;
    FlattenIndex(ThetaRows(rangeD[i], rangeTheta, rangeSigma), ns, j, k);
    FlattenIndex(Blocks(rangeD, rangeTheta, rangeSigma), nt * ns, i, j * ns + k);
    IndexArithmetic(i, j, k, nt, ns);
  }

  /** A model of the grid takes each parameter from its range. */
  lemma GridMember(rangeD: seq<real>, rangeTheta: seq<real>, rangeSigma: seq<real>, m: AddmParams)
    requires m in ModelGrid(rangeD, rangeTheta, rangeSigma)
    ensures m.d in rangeD && m.theta in rangeTheta && m.sigma in rangeSigma
  {
    var blocks, models := Blocks(rangeD, rangeTheta, rangeSigma), ModelGrid(rangeD, rangeTheta, rangeSigma);
    var x :| 0 <= x < |models| && models[x] == m;
    var i, y := FlattenMember(blocks, x);
    var rows := ThetaRows(rangeD[i], rangeTheta, rangeSigma);
    var j, k := FlattenMember(rows, y);
    assert rows[j][k] == AddmParams(rangeD[i], rangeTheta[j], rangeSigma[k]);
  }

  /** Every triple drawn from the ranges is a model of the grid. */
  lemma GridHas(rangeD: seq<real>, rangeTheta: seq<real>, rangeSigma: seq<real>, i: nat, j: nat, k: nat)
    requires i < |rangeD| && j < |rangeTheta| && k < |rangeSigma|
    ensures AddmParams(rangeD[i], rangeTheta[j], rangeSigma[k]) in ModelGrid(rangeD, rangeTheta, rangeSigma)
  {
    var blocks, rows := Blocks(rangeD, rangeTheta, rangeSigma), ThetaRows(rangeD[i], rangeTheta, rangeSigma);
    FlattenHas(rows, j, k);
    var y :| 0 <= y < |blocks[i]| && blocks[i][y] == AddmParams(rangeD[i], rangeTheta[j], rangeSigma[k]);
    FlattenHas(blocks, i, y);
  }

  /** The grid holds exactly the triples drawn from the three ranges. */
  lemma GridMembers(rangeD: seq<real>, rangeTheta: seq<real>, rangeSigma: seq<real>)
    ensures forall m :: m in ModelGrid(rangeD, rangeTheta, rangeSigma) <==>
              m.d in rangeD && m.theta in rangeTheta && m.sigma in rangeSigma
  {
    forall m
      ensures m in ModelGrid(rangeD, rangeTheta, rangeSigma) <==>
              m.d in rangeD && m.theta in rangeTheta && m.sigma in rangeSigma
    {
      if m in ModelGrid(rangeD, rangeTheta, rangeSigma) {
        GridMember(rangeD, rangeTheta, rangeSigma, m);
      }
      if m.d in rangeD && m.theta in rangeTheta && m.sigma in rangeSigma {
        var i :| 0 <= i < |rangeD| && rangeD[i] == m.d;
        var j :| 0 <= j < |rangeTheta| && rangeTheta[j] == m.theta;
        var k :| 0 <= k < |rangeSigma| && rangeSigma[k] == m.sigma;
        GridHas(rangeD, rangeTheta, rangeSigma, i, j, k);
      }
    }
  }

  /** Every model of the block for `d` has that `d`. */
  lemma BlockMembers(d: real, rangeTheta: seq<real>, rangeSigma: seq<real>)
    ensures forall y :: 0 <= y < |ThetaBlock(d, rangeTheta, rangeSigma)| ==>
              ThetaBlock(d, rangeTheta, rangeSigma)[y].d == d
    ensures Distinct(rangeTheta) && Distinct(rangeSigma) ==> Distinct(ThetaBlock(d, rangeTheta, rangeSigma))
  {
    var rows := ThetaRows(d, rangeTheta, rangeSigma);
    forall y | 0 <= y < |ThetaBlock(d, rangeTheta, rangeSigma)|
      ensures ThetaBlock(d, rangeTheta, rangeSigma)[y].d == d
    {
      var j, k := FlattenMember(rows, y);
    }
    if Distinct(rangeTheta) && Distinct(rangeSigma) {
      FlattenDistinct(rows);
    }
  }

  /** Ranges without repetitions give a model list without repetitions. */
  lemma GridDistinct(rangeD: seq<real>, rangeTheta: seq<real>, rangeSigma: seq<real>)
    requires Distinct(rangeD) && Distinct(rangeTheta) && Distinct(rangeSigma)
    ensures Distinct(ModelGrid(rangeD, rangeTheta, rangeSigma))
  {
    var blocks: seq<seq<AddmParams>> := Blocks(rangeD, rangeTheta, rangeSigma);
    forall i | 0 <= i < |blocks|
      ensures Distinct(blocks[i])
      ensures forall y :: 0 <= y < |blocks[i]| ==> blocks[i][y].d == rangeD[i]
    {
      BlockMembers(rangeD[i], rangeTheta, rangeSigma);
    }
    FlattenDistinct(blocks);
  }

  /** `numModels` is the product of the three range lengths and every prior
      is `1 / numModels`; with non-empty ranges the prior is a probability
      vector over the grid. */
  lemma GridPrior(rangeD: seq<real>, rangeTheta: seq<real>, rangeSigma: seq<real>)
    ensures |ModelGrid(rangeD, rangeTheta, rangeSigma)| == |rangeD| * |rangeTheta| * |rangeSigma|
    ensures var models := ModelGrid(rangeD, rangeTheta, rangeSigma);
            forall m :: m in UniformPrior(models) ==> UniformPrior(models)[m] == 1.0 / |models| as real
    ensures var models := ModelGrid(rangeD, rangeTheta, rangeSigma);
            |rangeD| > 0 && |rangeTheta| > 0 && |rangeSigma| > 0 ==>
              IsDistribution(Values(UniformPrior(models), models))
  {
    GridSize(rangeD, rangeTheta, rangeSigma);
    if |rangeD| > 0 && |rangeTheta| > 0 && |rangeSigma| > 0 {
      PositiveCount(|rangeD|, |rangeTheta|);
      PositiveCount(|rangeD| * |rangeTheta|, |rangeSigma|);
    }
  }

  /** `likelihoods = pool.map(...)` over `listParams`, built in model order:
      the likelihood of trial `t` under `models[i]` sits at index `i`. */
  function TrialLikelihoods(models: seq<AddmParams>, numTrials: nat, likelihood: (nat, AddmParams) -> real)
    : (trials: seq<seq<real>>)
    ensures |trials| == numTrials
    ensures forall t :: 0 <= t < numTrials ==> |trials[t]| == |models|
    ensures forall t, i :: 0 <= t < numTrials && 0 <= i < |models| ==> trials[t][i] == likelihood(t, models[i])
  {
    seq(numTrials, t requires 0 <= t < numTrials =>
          seq(|models|, i requires 0 <= i < |models| => likelihood(t, models[i])))
  }

  /** The grid search of `main` over trials numbered `0 .. numTrials - 1`
      in order. With ranges free of repetitions the final posterior is the
      trial-by-trial `Fold` of the uniform prior, and a probability vector
      when the likelihoods are non-negative. */
  method EstimatePosteriors(rangeD: seq<real>, rangeTheta: seq<real>, rangeSigma: seq<real>,
                            numTrials: nat, likelihood: (nat, AddmParams) -> real)
    returns (models: seq<AddmParams>, posteriors: map<AddmParams, real>)
    ensures models == ModelGrid(rangeD, rangeTheta, rangeSigma)
    ensures forall m :: m in posteriors <==> m in models
    ensures Distinct(rangeD) && Distinct(rangeTheta) && Distinct(rangeSigma) ==>
              Values(posteriors, models) ==
              Fold(Values(UniformPrior(models), models), TrialLikelihoods(models, numTrials, likelihood))
    ensures Distinct(rangeD) && Distinct(rangeTheta) && Distinct(rangeSigma) && |models| > 0 &&
            (forall t: nat, m: AddmParams :: likelihood(t, m) >= 0.0) ==>
              IsDistribution(Values(posteriors, models))
  {
    models := ModelGrid(rangeD, rangeTheta, rangeSigma);
    if Distinct(rangeD) && Distinct(rangeTheta) && Distinct(rangeSigma) {
      GridDistinct(rangeD, rangeTheta, rangeSigma);
    }
    var trials := TrialLikelihoods(models, numTrials, likelihood);
    posteriors := ObserveTrials(UniformPrior(models), models, trials);
    assert (forall t: nat, m: AddmParams :: likelihood(t, m) >= 0.0) ==> AllNonNegative(trials) by {
      if forall t: nat, m: AddmParams :: likelihood(t, m) >= 0.0 {
        forall t | 0 <= t < |trials|
          ensures NonNegative(trials[t])
        {
          forall i | 0 <= i < |models|
            ensures trials[t][i] >= 0.0
          {
            assert trials[t][i] == likelihood(t, models[i]);
          }
        }
      }
    }
  }
}
