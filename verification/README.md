# Drift-diffusion likelihood, simulator and grid-search posteriors

A Dafny model of the computational core of an implementation of the drift-diffusion model (DDM) and its attentional variant (aDDM), with the properties the code relies on proved. The model covers three pieces.

1. **The trial likelihood engine** of `ddm.py` (`get_trial_likelihood`):
   - It computes the number of time bins `maxTime = RT // timeStep` and the barrier schedule, and builds a grid of evidence states over `[-barrier, barrier]` with the zero state in the middle.
   - The initial mass is one on the zero state. Each bin pushes the mass through a Gaussian kernel, absorbs the states at or beyond the barriers, and computes the masses crossing each barrier.
   - It then rescales those three jointly so that they carry exactly the mass that entered the bin.
   - The likelihood is the last bin's crossing mass for the observed choice.
   - The Gaussian density and distribution function are abstract. Only what the proofs need is known about them: the density is positive and the distribution function lies in `[0, 1]`.

   Modules `StateSpace` (`state_space.dfy`) and `Likelihood` (`likelihood.dfy`).
2. **The trial simulator** of `ddm.py` (`run_simulations`), in module `Simulator` (`simulator.dfy`):
   - A random walk from zero, driven by a given sequence of standard-normal draws, stops at the first step at or beyond a barrier. Its reaction time is steps × `timeStep`; its choice is -1 at the upper barrier and +1 at the lower barrier.
   - Trials are numbered consecutively over the conditions.
3. **The sequential Bayesian grid search** of the three driver scripts:
   - A uniform prior over a list of parameter tuples.
   - For each trial in order, the denominator `Σ prior · likelihood`. The trial is skipped when the denominator is exactly zero; otherwise every posterior becomes `likelihood · prior / denominator`.
   - Module `Posterior` (`posterior.dfy`) holds the update on vectors (`Update`, `Fold`) and the dictionary-level loops of the scripts (`ObserveTrial`, `ObserveTrials`).
   - Modules `DdmTest`, `AddmTestIndividual` and `IndividualPosteriors` hold each script's model grid and driver loop.
   - Module `TrialConditions` holds the orientation-to-value trial conditions.

`Reals` (sums and dot products of real vectors) and `Seqs` (flattening nested loops, lists without repetitions) are shared helpers.

All arithmetic is on Dafny's exact `real`. The per-trial likelihoods used by the drivers are inputs: a map of likelihood lists in `ddm_test.py`, and a function of trial number and model in the aDDM drivers. For a positive divisor, Python's integer `//` (and Python 2's `/` on integers) rounds down for every dividend, negative ones included, exactly as Dafny's `/` on `int` does; `MaxTime` and `Value` rely on this.

The code checks none of its parameters:
- a trial shorter than one bin fails by indexing an empty array (ddm.py:65);
- the simulator has no timeout and loops until a barrier is hit (ddm.py:203).

The first is a precondition here (see below), and the simulator reports `None` when its draws run out.

## Model

| member | source | states |
|---|---|---|
| StateSpace.MaxTime | ddm.py:47 | `maxTime` is the number of whole bins in `RT`: `maxTime * timeStep <= RT < (maxTime + 1) * timeStep` |
| StateSpace.Shrink | ddm.py:54 | the barrier divisor `1 + decay * t` is at least 1, and exactly 1 when `decay = 0` |
| StateSpace.ShrinkIncreasing | ddm.py:54 | with `decay > 0` the divisor grows strictly with `t` |
| StateSpace.BarrierUp | ddm.py:49-55 | one entry per bin; entry `t` is `barrier / (1 + decay t)` (entry 0 is `barrier`); with `decay = 0` every entry is `barrier`; positive for a positive barrier; strictly decreasing when `decay > 0` |
| StateSpace.BarrierDown | ddm.py:52-55 | the lower barrier is the negation of the upper one at every bin, and `barrierDown[t] < 0 < barrierUp[t]` for a positive barrier |
| StateSpace.MakeGrid | ddm.py:57-59 | the state axis runs from exactly `-barrier` to exactly `barrier`, has at least three states, and its middle state is exactly zero |
| StateSpace.StatesSpacing | ddm.py:58-59 | the middle state is zero and neighbouring states are `stateStep` apart |
| StateSpace.StatesIncreasing | ddm.py:58 | the states increase strictly |
| StateSpace.StatesSymmetric | ddm.py:58-59 | state `n-1-i` is the negation of state `i` |
| Likelihood.Initial | ddm.py:61-65 | the initial mass is one on the zero state and zero on every other state, so it sums to one |
| Likelihood.Kernel | ddm.py:81-95 | the density column of a destination state has one positive entry per source state |
| Likelihood.Transition | ddm.py:94-97 | after the kernel step every state at or beyond a barrier of the bin holds zero mass |
| Likelihood.UpTail | ddm.py:103-104 | the upper-crossing weights `1 - cdf(barrierUp[t] - state)` are non-negative, one per state |
| Likelihood.DownTail | ddm.py:105-106 | the lower-crossing weights `cdf(barrierDown[t] - state)` are non-negative, one per state |
| Likelihood.TransitionNonNegative | ddm.py:94-97 | non-negative mass stays non-negative through the kernel step |
| Likelihood.ZeroStateReceivesMass | ddm.py:94-97 | the zero state, never absorbed, receives positive mass from a mass vector with positive total |
| Likelihood.RawMassPositive | ddm.py:94-110 | before rescaling, the states' mass and both crossing masses are non-negative and `sumCurrent` is positive, so the division is defined |
| Likelihood.Renormalise | ddm.py:108-113 | after rescaling, states plus both crossings carry exactly `sumIn`; every state and both crossings are their raw value times the one factor `sumIn / sumCurrent` (each stands to its raw value as `sumIn` to `sumCurrent`), so all proportions are kept; zero stays zero; signs are kept |
| Likelihood.Step | ddm.py:86-119 | one bin conserves mass (`Σ new + up + down = Σ old`), absorbs the states beyond the barriers, and gives every state and both crossings their raw kernel or crossing mass times `Σ old / sumCurrent` |
| Likelihood.Extend | ddm.py:117-119 | recording a bin's crossings extends both crossing series by one entry and keeps the total mass at one |
| Likelihood.Propagate | ddm.py:61-119 | after bin `t`: `Σ mass + Σ upCrossing[0..t] + Σ downCrossing[0..t] = 1`; all entries non-negative; bin 0 has no crossing; absorbed states hold zero |
| Likelihood.TrialEngine | ddm.py:47-79 | a trial's engine has `maxTime` bins of constant barriers `±barrier` (decay 0) and a grid from `-barrier` to `barrier` |
| Likelihood.Select | ddm.py:127-133 | on a trace whose mass sums to one, choice -1 reads the upper crossing at the given bin and choice +1 the lower one, each only when positive; every other case gives 0; always in `[0, 1]`; 0 at bin 0, where nothing has crossed |
| Likelihood.EngineLikelihood | ddm.py:86-133 | for any valid engine, the selection made after propagating to bin `last` is the positive crossing mass of the chosen side at that bin, or 0, and lies in `[0, 1]` |
| Likelihood.TrialLikelihood | ddm.py:127-133 | choice -1 gives the last upper crossing when positive, and choice +1 the last lower crossing when positive; every other case gives 0; always in `[0, 1]`; 0 when `maxTime = 1` |
| Simulator.FirstHit | ddm.py:203-218 | the first step count, from a given start, at which the RDV is at or beyond a barrier; none of the earlier counts reach a barrier; `None` exactly when no count within the draws does |
| Simulator.Simulate | ddm.py:201-213 | a walk ends iff some prefix reaches a barrier; `RT` is the first such step count times `timeStep`; choice is -1 iff that RDV is `>= barrier`, and +1 iff it is `<= -barrier` and below `barrier` |
| Simulator.SimulateTrial | ddm.py:200-218 | the `while True` loop over the increments computes exactly `Simulate` |
| Simulator.RunSimulations | ddm.py:193-221 | trial keys are exactly `0 .. numTrials * len(conditions) - 1`; trial `k` is walk `k` under condition `k / numTrials` and carries its values; `None` iff some walk never reaches a barrier |
| Posterior.Update | ddm_test.py:78-91 | a zero denominator leaves the posteriors unchanged; otherwise they sum to one; a zero posterior stays zero; non-negative inputs give non-negative posteriors |
| Posterior.UpdateRatio | ddm_test.py:87-91 | a non-skipped trial multiplies the posterior ratio of two models by their likelihood ratio |
| Posterior.Fold | ddm_test.py:78-91 | trials in index order, each posterior the next prior: a zero posterior stays zero on every later trial, and a probability vector stays one under non-negative likelihoods |
| Posterior.FoldAppend | individual_posteriors.py:68-94 | folding two runs of trials in turn equals folding their concatenation: the posterior is never reset between runs |
| Posterior.UniformPrior | ddm_test.py:57-75 | one key per listed model, each with prior `1 / numModels`; for a non-empty list, the priors read off in list order form a probability vector (for a list without repetitions this is the dictionary's own values) |
| Posterior.TotalEvidence | addm_test_individual.py:159-164 | the denominator loop computes `Σ posterior[models[i]] * likelihoods[i]` |
| Posterior.Reweight | addm_test_individual.py:168-173 | the update loop keeps the key set; for a list without repetitions it gives every listed model `likelihoods[i] * prior / denominator` |
| Posterior.ObserveTrial | addm_test_individual.py:159-173 | one trial on the dictionary: keys kept; unchanged for a zero denominator; for a list without repetitions, the vector of posteriors is `Update` |
| Posterior.ObserveTrials | addm_test_individual.py:144-173 | the trial loop keeps the key set; for a list without repetitions the dictionary's posteriors are `Fold` of the posteriors over the trials in order |
| DdmTest.ModelGrid | ddm_test.py:57-74 | one model per `(d, sigma)` pair: `len(range_d) * len(range_sigma)` models |
| DdmTest.GridOrder | ddm_test.py:61-62 | model `i * len(range_sigma) + j` is `(range_d[i], range_sigma[j])` |
| DdmTest.GridMembers | ddm_test.py:61-63 | the grid holds exactly the pairs of a `d` from `range_d` and a `sigma` from `range_sigma` |
| DdmTest.GridDistinct | ddm_test.py:61-75 | ranges without repetitions give one dictionary key per model |
| DdmTest.GridPrior | ddm_test.py:57-75 | every prior is `1 / (len(range_d) * len(range_sigma))`; for non-empty ranges the priors read in grid order sum to one, and for ranges without repetitions these are the dictionary's values |
| DdmTest.EstimatePosteriors | ddm_test.py:57-91 | the final posteriors have exactly the grid's keys; they are the in-order fold of the uniform prior over all trials, and a probability vector under non-negative likelihoods |
| AddmTestIndividual.GridSize | addm_test_individual.py:133-142 | `numModels = len(range_d) * len(range_theta) * len(range_sigma)` models |
| AddmTestIndividual.GridOrder | addm_test_individual.py:137-141 | model `(i * len(range_theta) + j) * len(range_sigma) + k` is `(d_i, theta_j, sigma_k)` |
| AddmTestIndividual.GridMember | addm_test_individual.py:137-141 | each model takes each parameter from its range |
| AddmTestIndividual.GridHas | addm_test_individual.py:137-141 | each triple drawn from the ranges is a model |
| AddmTestIndividual.GridMembers | addm_test_individual.py:137-141 | the grid is exactly the Cartesian product of the three ranges |
| AddmTestIndividual.BlockMembers | addm_test_individual.py:138-141 | the models built for one `d` all have that `d` and do not repeat |
| AddmTestIndividual.GridDistinct | addm_test_individual.py:137-142 | ranges without repetitions give one dictionary key per model |
| AddmTestIndividual.GridPrior | addm_test_individual.py:133-142 | every prior is `1 / numModels`; for non-empty ranges the priors read in grid order sum to one, and for ranges without repetitions these are the dictionary's values |
| AddmTestIndividual.EstimatePosteriors | addm_test_individual.py:133-173 | the final posteriors have exactly the grid's keys; they are the in-order fold of the uniform prior, and a probability vector under non-negative likelihoods |
| IndividualPosteriors.FixedGridSize | individual_posteriors.py:54-66 | the fixed grid has 27 models, each with prior `1/27` |
| IndividualPosteriors.FixedGridPrior | individual_posteriors.py:57-66 | the 27 priors sum to one |
| IndividualPosteriors.FixedGridDistinct | individual_posteriors.py:54-65 | the 27 models are different from each other |
| IndividualPosteriors.FixedGridMembers | individual_posteriors.py:54-65 | the models are exactly the triples from the three fixed ranges |
| IndividualPosteriors.AllTrials | individual_posteriors.py:69-78 | every trial of every subject has one likelihood per model |
| IndividualPosteriors.AllTrialsPrefix | individual_posteriors.py:68-71 | the trials of the first `s + 1` subjects are those of the first `s` followed by subject `s`'s |
| IndividualPosteriors.SubjectStep | individual_posteriors.py:68-94 | folding the first `s + 1` subjects is folding subject `s` into the posterior after the first `s` |
| IndividualPosteriors.AllTrialsNonNegative | individual_posteriors.py:78 | non-negative likelihoods give non-negative trial vectors |
| IndividualPosteriors.ObserveSubjects | individual_posteriors.py:68-94 | the subject loop keeps the keys and yields the fold over all subjects' trials, never resetting; a probability vector under non-negative likelihoods |
| IndividualPosteriors.EstimatePosteriors | individual_posteriors.py:54-94 | from the uniform prior over the fixed grid, the posteriors are the fold over every subject's trials in order, and a probability vector under non-negative likelihoods |
| TrialConditions.Range | addm_test_individual.py:103 | Python's `range(start, stop, step)`: entries in `[start, stop)` `step` apart from `start`, the last one within `step` of `stop`, empty iff `start >= stop` |
| TrialConditions.OrientationsListed | addm_test_individual.py:103 | `range(-15, 20, 5)` is the seven orientations -15 to 15 |
| TrialConditions.ValueTable | addm_test_individual.py:108-109 | orientations -15..15 map to values 0, 1, 2, 3, 2, 1, 0 |
| TrialConditions.ValuesBounded | addm_test_individual.py:108-109 | every orientation's value is in 0..3; `±15` give 0 and 0 gives 3 |
| TrialConditions.MirrorValues | addm_test_individual.py:108-109 | two orientations have equal values iff they are equal or mirror images |
| TrialConditions.Partners | addm_test_individual.py:106-107 | the inner loop yields `(oLeft, oRight)` for exactly the `oRight != oLeft` |
| TrialConditions.PartnersLength | addm_test_individual.py:106-107 | the inner loop yields one pair per orientation other than `oLeft` |
| TrialConditions.PairsOfDistinct | addm_test_individual.py:105-107 | for distinct orientations there are `n (n - 1)` pairs, and a pair occurs iff its orientations are listed and different |
| TrialConditions.DriverConditions | individual_posteriors.py:109-116 | 42 conditions (the same construction as addm_test_individual.py:103-110), values in 0..3, different orientations, equal values exactly for mirror-image orientations |

## Left out

- Plotting (`plotResults`, the traces matrix, matplotlib) is left out. It is output only.
- The values of `norm.pdf` and `norm.cdf` are not computed. They are abstract functions of a `Normal` value. `Likelihood.WellFormed` states what the proofs use: the density is positive and the distribution function lies in `[0, 1]` for a positive standard deviation.
- Floating point is not modelled: `np.arange`'s point count, the `±0.001` zero snapping, and rounding in the renormalisation.
  - The state grid is integer-indexed. `StateSpace.Gridded` requires `barrier / stateStep` to be a whole number. The source accepts any ratio. When the ratio is not whole and no `arange` point lands within `±0.001` of zero, `prStates` starts all zero (ddm.py:63-65), every bin from 1 on divides 0 by 0 into nan (ddm.py:111), and the `> 0` tests (ddm.py:129, 132) then return likelihood 0. That path is not modelled.
  - The renormalisation computes the states' mass as `(x * sumIn) / sumCurrent`, as the source does, but the two crossing masses as `x * (sumIn / sumCurrent)`. The two forms are equal over the reals.
- Likelihood.TrialLikelihood requires `maxTime >= 1`, `sigma > 0` and a gridded barrier. With `maxTime = 0` the source fails by indexing an empty array, and it checks none of these parameters.
- `sumCurrent = 0` (a division by zero in the source) is not a modelled case: it is proved never to happen, because the zero state always receives positive mass.
- `np.random.normal` is replaced by given standard-normal draws. A walk is `mean + sigma * z` per draw `z`. Simulator.Increments accepts any `sigma`; the error `np.random.normal` raises for a negative scale is not reproduced.
- Simulator.RunSimulations: the source's `while True` never gives up; the model returns `None` when the draws run out before a barrier.
- Nothing imported from the `addm` module is modelled: its likelihood routines `get_trial_likelihood` and `analysis_per_trial`, and its data routines `run_simulations`, `get_empirical_distributions` and `generate_probabilistic_simulations`. That module is not part of this model. Nor are the `DDM` and `DDMTrial` classes of `ddm_test.py`, which only generate artificial data. The drivers take the per-trial likelihoods as inputs.
- Exceptions raised while computing likelihoods are not modelled. In `addm_test_individual.py` they end the search. The likelihood inputs are total functions.
- `multiprocessing.Pool`, `argparse`, CSV loading and saving, and printing are not modelled.
- `optimize.py` is not modelled. It is outside the grid-search core.
- Trial numbers are assumed to be `0 .. n - 1` in order. `simulChoice.keys()` and `choice[subject].keys()` are dictionary key lists; the model takes them as the trial numbers `0 .. n - 1` in order, and subjects likewise.
- Posterior.UniformPrior, Posterior.Reweight, Posterior.ObserveTrial, Posterior.ObserveTrials, DdmTest.GridPrior, AddmTestIndividual.GridPrior, AddmTestIndividual.EstimatePosteriors, DdmTest.EstimatePosteriors: the correspondence with `Update`, `Divide` and `Fold` (and, for `UniformPrior` and the two `GridPrior` lemmas, reading the priors as a probability vector) needs a model list, or ranges, without repetitions. With a repeated value, two grid entries share one dictionary key and the source updates that key twice per trial. The key set is stated for every input.
- Barrier decay: the likelihood uses `decay = 0` as the source does. The decaying schedule is modelled and proved in `StateSpace.BarrierUp`/`BarrierDown` but not used by the engine.
