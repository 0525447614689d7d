/**
 The posterior estimation of `individual_posteriors.py`: the aDDM grid of
 module `AddmTestIndividual` over three fixed ranges, a uniform prior, and
 the trial-by-trial update over the trials of every subject in turn.

 The subjects' data and the per-trial likelihoods come from modules that are
 not part of this model: the likelihood of trial `t` of subject `s` under a
 model is an input function, and the subjects and their trials are numbered
 from zero in the order the source iterates over them.
 */
module IndividualPosteriors {
  import opened Reals
  import opened Seqs
  import opened Posterior
  import AddmTestIndividual

  type AddmParams = AddmTestIndividual.AddmParams

  const RangeD: seq<real> := [0.004, 0.0045, 0.005]
  const RangeTheta: seq<real> := [0.3, 0.35, 0.4]
  const RangeStd: seq<real> := [0.08, 0.085, 0.09]

  /** The 27 models, `d` outermost and `std` innermost. */
  function Models(): seq<AddmParams>
  {
    AddmTestIndividual.ModelGrid(RangeD, RangeTheta, RangeStd)
  }

  /** The fixed grid has 27 models, and each has prior `1 / 27`. */
  lemma FixedGridSize()
    ensures |Models()| == 27
    ensures forall m :: m in UniformPrior(Models()) ==> UniformPrior(Models())[m] == 1.0 / 27.0
  {
    AddmTestIndividual.GridSize(RangeD, RangeTheta, RangeStd);
    assert |RangeD| == 3 && |RangeTheta| == 3 && |RangeStd| == 3;
    PriorOfSize(Models(), 27);
  }

  lemma PriorOfSize(models: seq<AddmParams>, n: nat)
    requires |models| == n
    ensures forall m :: m in UniformPrior(models) ==> UniformPrior(models)[m] == 1.0 / n as real
  {
  }

  /** The uniform prior over the fixed grid is a probability vector. */
  lemma FixedGridPrior()
    ensures IsDistribution(Values(UniformPrior(Models()), Models()))
  {
    AddmTestIndividual.GridPrior(RangeD, RangeTheta, RangeStd);
  }

  /** The 27 models are different from each other. */
  lemma FixedGridDistinct()
    ensures Distinct(Models())
  {
    AddmTestIndividual.GridDistinct(RangeD, RangeTheta, RangeStd);
  }

  /** The models are exactly the triples drawn from the three ranges. */
  lemma FixedGridMembers()
    ensures forall m :: m in Models() <==> m.d in RangeD && m.theta in RangeTheta && m.sigma in RangeStd
  {
    AddmTestIndividual.GridMembers(RangeD, RangeTheta, RangeStd);
  }

  /** The likelihoods of the `numTrials` trials of subject `s`, each in model
      order. */
  function SubjectTrials(models: seq<AddmParams>, s: nat, numTrials: nat,
                         likelihood: (nat, nat, AddmParams) -> real): (trials: seq<seq<real>>)
    ensures |trials| == numTrials
    ensures forall t :: 0 <= t < numTrials ==> |trials[t]| == |models|
    ensures forall t, i :: 0 <= t < numTrials && 0 <= i < |models| ==>
              trials[t][i] == likelihood(s, t, models[i])
  {
    seq(numTrials, t requires 0 <= t < numTrials =>
          seq(|models|, i requires 0 <= i < |models| => likelihood(s, t, models[i])))
  }

  /** One row of trials per subject, subject `s` having `trialCounts[s]`
      trials. */
  function SubjectRows(models: seq<AddmParams>, trialCounts: seq<nat>,
                       likelihood: (nat, nat, AddmParams) -> real): (rows: seq<seq<seq<real>>>)
    ensures |rows| == |trialCounts|
    ensures forall s :: 0 <= s < |rows| ==> rows[s] == SubjectTrials(models, s, trialCounts[s], likelihood)
  {
    seq(|trialCounts|, s requires 0 <= s < |trialCounts| =>
          SubjectTrials(models, s, trialCounts[s], likelihood))
  }

  /** All trials of all subjects, subject after subject. */
  function AllTrials(models: seq<AddmParams>, trialCounts: seq<nat>,
                     likelihood: (nat, nat, AddmParams) -> real): (trials: seq<seq<real>>)
    ensures forall t :: 0 <= t < |trials| ==> |trials[t]| == |models|
  {
    var rows := SubjectRows(models, trialCounts, likelihood);
    forall k | 0 <= k < |Flatten(rows)|
      ensures |Flatten(rows)[k]| == |models|
    {
      var s, t := FlattenMember(rows, k);
    }
    Flatten(rows)
  }

  /** The trials of the first `s + 1` subjects are those of the first `s`
      followed by those of subject `s`. */
  lemma AllTrialsPrefix(models: seq<AddmParams>, trialCounts: seq<nat>,
                        likelihood: (nat, nat, AddmParams) -> real, s: nat)
    requires s < |trialCounts|
    ensures AllTrials(models, trialCounts[..s + 1], likelihood)
            == AllTrials(models, trialCounts[..s], likelihood) + SubjectTrials(models, s, trialCounts[s], likelihood)
  {
    var rows := SubjectRows(models, trialCounts[..s], likelihood);
    var last := SubjectTrials(models, s, trialCounts[s], likelihood);
    assert SubjectRows(models, trialCounts[..s + 1], likelihood) == rows + [last];
    FlattenAppend(rows, last);
  }

  /** Folding the trials of the first `s + 1` subjects is folding those of
      subject `s` into the posterior after the first `s`. */
  lemma SubjectStep(models: seq<AddmParams>, trialCounts: seq<nat>,
                    likelihood: (nat, nat, AddmParams) -> real, s: nat, prior: seq<real>)
    requires s < |trialCounts| && |prior| == |models|
    ensures Fold(prior, AllTrials(models, trialCounts[..s + 1], likelihood))
            == Fold(Fold(prior, AllTrials(models, trialCounts[..s], likelihood)),
                    SubjectTrials(models, s, trialCounts[s], likelihood))
  {
    AllTrialsPrefix(models, trialCounts, likelihood, s);
    FoldAppend(prior, AllTrials(models, trialCounts[..s], likelihood),
               SubjectTrials(models, s, trialCounts[s], likelihood));
  }

  /** The subject and trial loops of `main`. The posteriors are never reset
      between subjects: the result is the `Fold` of the uniform prior over the
      trials of all subjects, one after the other, and a probability vector
      when the likelihoods are non-negative. */
  method EstimatePosteriors(trialCounts: seq<nat>, likelihood: (nat, nat, AddmParams) -> real)
    returns (posteriors: map<AddmParams, real>)
    ensures forall m :: m in posteriors <==> m in Models()
    ensures Values(posteriors, Models())
            == Fold(Values(UniformPrior(Models()), Models()), AllTrials(Models(), trialCounts, likelihood))
    ensures (forall s: nat, t: nat, m: AddmParams :: likelihood(s, t, m) >= 0.0) ==>
              IsDistribution(Values(posteriors, Models()))
  {
    FixedGridDistinct();
    FixedGridPrior();
    posteriors := ObserveSubjects(UniformPrior(Models()), Models(), trialCounts, likelihood);
  }

  /** The subject loop over any list of different models, starting from the
      posteriors `start`. */
  method ObserveSubjects(start: map<AddmParams, real>, models: seq<AddmParams>, trialCounts: seq<nat>,
                         likelihood: (nat, nat, AddmParams) -> real)
    returns (posteriors: map<AddmParams, real>)
    requires forall i :: 0 <= i < |models| ==> models[i] in start
    requires Distinct(models)
    ensures posteriors.Keys == start.Keys
    ensures Values(posteriors, models) == Fold(Values(start, models), AllTrials(models, trialCounts, likelihood))
    ensures IsDistribution(Values(start, models)) &&
            (forall s: nat, t: nat, m: AddmParams :: likelihood(s, t, m) >= 0.0) ==>
              IsDistribution(Values(posteriors, models))
  {
    ghost var prior := Values(start, models);
    posteriors := start;
    var s := 0;
    while s < |trialCounts|
      invariant 0 <= s <= |trialCounts|
      invariant posteriors.Keys == start.Keys
      invariant Values(posteriors, models) == Fold(prior, AllTrials(models, trialCounts[..s], likelihood))
    {
      var trials := SubjectTrials(models, s, trialCounts[s], likelihood);
      posteriors := ObserveTrials(posteriors, models, trials);
      SubjectStep(models, trialCounts, likelihood, s, prior);
      s := s + 1;
    }
    assert trialCounts[..s] == trialCounts;
    if IsDistribution(prior) && forall s: nat, t: nat, m: AddmParams :: likelihood(s, t, m) >= 0.0 {
      FoldedDistribution(prior, models, trialCounts, likelihood);
    }
  }

  /** Folding every subject's trials into a probability vector, with
      non-negative likelihoods, gives a probability vector. */
  lemma FoldedDistribution(prior: seq<real>, models: seq<AddmParams>, trialCounts: seq<nat>,
                           likelihood: (nat, nat, AddmParams) -> real)
    requires IsDistribution(prior) && |prior| == |models|
    requires forall s: nat, t: nat, m: AddmParams :: likelihood(s, t, m) >= 0.0
    ensures IsDistribution(Fold(prior, AllTrials(models, trialCounts, likelihood)))
  {
    AllTrialsNonNegative(models, trialCounts, likelihood);
  }

  /** Non-negative likelihoods give non-negative trial rows. */
  lemma AllTrialsNonNegative(models: seq<AddmParams>, trialCounts: seq<nat>,
                             likelihood: (nat, nat, AddmParams) -> real)
    requires forall s: nat, t: nat, m: AddmParams :: likelihood(s, t, m) >= 0.0
    ensures AllNonNegative(AllTrials(models, trialCounts, likelihood))
  {
    var rows := SubjectRows(models, trialCounts, likelihood);
    forall k | 0 <= k < |Flatten(rows)|
      ensures NonNegative(Flatten(rows)[k])
    {
      var s, t := FlattenMember(rows, k);
      forall i | 0 <= i < |models|
        ensures rows[s][t][i] >= 0.0
      {
        assert rows[s][t][i] == likelihood(s, t, models[i]);
      }
    }
  }
}
