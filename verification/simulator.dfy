/** A value that may be absent. */
module Optional {
  datatype Option<+T> = None | Some(value: T)
}

/**
 The trial simulator of `ddm.py` (`run_simulations`): a random walk of the
 relative decision value (RDV) from zero, one Gaussian increment per time bin,
 stopped the first time it reaches or passes either barrier.

 The Gaussian draws are an input: `draws` holds standard-normal samples, and
 `np.random.normal(mean, sigma)` is `mean + sigma * z` for the next sample `z`.
 The source loops until a barrier is reached; here the walk can only use the
 draws it is given, and reports `None` when they run out first.
 */
module Simulator {
  import opened Optional
  import opened StateSpace

  /** The increments of one walk: `mean + sigma * z` for each draw `z`. */
  function Increments(mean: real, sigma: real, draws: seq<real>): (incs: seq<real>)
    ensures |incs| == |draws|
  {
    seq(|draws|, i requires 0 <= i < |draws| => mean + sigma * draws[i])
  }

  /** The RDV after the first `k` increments. */
  function Rdv(incs: seq<real>, k: nat): real
    requires k <= |incs|
  {
    if k == 0 then 0.0 else Rdv(incs, k - 1) + incs[k - 1]
  }

  /** The walk is at or beyond one of the barriers `±barrier`. */
  predicate Hits(x: real, barrier: real)
  {
    x >= barrier || x <= -barrier
  }

  /** The first number of steps, not below `k`, after which the walk is at a
      barrier, if the increments reach that far. */
  function FirstHit(incs: seq<real>, barrier: real, k: nat): (r: Option<nat>)
    requires k <= |incs|
    ensures r.Some? ==> k <= r.value <= |incs| && Hits(Rdv(incs, r.value), barrier)
    ensures r.Some? ==> forall j :: k <= j < r.value ==> !Hits(Rdv(incs, j), barrier)
    ensures r.None? ==> forall j :: k <= j <= |incs| ==> !Hits(Rdv(incs, j), barrier)
    decreases |incs| - k
  {
    if Hits(Rdv(incs, k), barrier) then Some(k)
    else if k == |incs| then None
    else FirstHit(incs, barrier, k + 1)
  }

  /** Reaction time and choice of one simulated trial. */
  datatype Outcome = Outcome(rt: int, choice: int)

  /** The trial a walk produces: it ends at the first step at a barrier, its
      reaction time is that number of steps times `timeStep`, and its choice
      is -1 (left) at the upper barrier and +1 (right) at the lower one. */
  function Simulate(incs: seq<real>, barrier: real, timeStep: int): (r: Option<Outcome>)
    ensures r.Some? <==> exists k :: 0 <= k <= |incs| && Hits(Rdv(incs, k), barrier)
    ensures r.Some? ==> r.value.choice == -1 || r.value.choice == 1
    ensures r.Some? ==>
              var n := FirstHit(incs, barrier, 0).value;
              && r.value.rt == n * timeStep
              && (r.value.choice == -1 <==> Rdv(incs, n) >= barrier)
              && (r.value.choice == 1 <==> Rdv(incs, n) < barrier && Rdv(incs, n) <= -barrier)
  {
    var hit := FirstHit(incs, barrier, 0);
    if hit.None? then None
    else
      var n := hit.value;
      assert 0 <= n <= |incs| && Hits(Rdv(incs, n), barrier);
      assert exists k :: 0 <= k <= |incs| && Hits(Rdv(incs, k), barrier);
      Some(Outcome(n * timeStep, if Rdv(incs, n) >= barrier then -1 else 1))
  }

  /** The `while True` loop of one simulated trial, over the given increments. */
  method SimulateTrial(incs: seq<real>, barrier: real, timeStep: int) returns (r: Option<Outcome>)
    ensures r == Simulate(incs, barrier, timeStep)
  {
    var rdv := 0.0;
    var time := 0;
    while true
      invariant 0 <= time <= |incs|
      invariant rdv == Rdv(incs, time)
      invariant forall j :: 0 <= j < time ==> !Hits(Rdv(incs, j), barrier)
      decreases |incs| - time
    {
      if rdv >= barrier || rdv <= -barrier {
        var choice := if rdv >= barrier then -1 else 1;
        return Some(Outcome(time * timeStep, choice));
      }
      if time == |incs| {
        return None;
      }
      rdv := rdv + incs[time];
      time := time + 1;
    }
  }

  /** One simulated trial as `run_simulations` records it under its trial
      number (the source keeps the four fields in four dictionaries). */
  datatype SimTrial = SimTrial(rt: int, choice: int, valueLeft: real, valueRight: real)

  /** Trial number `k` of a run of `numTrials` trials per condition: it belongs
      to condition `k / numTrials` and its walk is driven by `draws[k]`. */
  function TrialAt(numTrials: nat, conditions: seq<(real, real)>, d: real, sigma: real,
                   timeStep: int, barrier: real, draws: seq<seq<real>>, k: nat): Option<SimTrial>
    requires numTrials > 0 && k < numTrials * |conditions| && |draws| == numTrials * |conditions|
  {
    DivBelow(k, numTrials, |conditions|);
    Record(conditions[k / numTrials], d, sigma, timeStep, barrier, draws[k])
  }

  /** The trial recorded for one walk under condition `(valueLeft, valueRight)`. */
  function Record(condition: (real, real), d: real, sigma: real, timeStep: int, barrier: real,
                  draws: seq<real>): Option<SimTrial>
  {
    var o := Simulate(Increments(Mean(d, condition.0, condition.1), sigma, draws), barrier, timeStep);
    if o.None? then None else Some(SimTrial(o.value.rt, o.value.choice, condition.0, condition.1))
  }

  lemma RecordOf(condition: (real, real), d: real, sigma: real, timeStep: int, barrier: real,
                 draws: seq<real>, o: Option<Outcome>)
    requires o == Simulate(Increments(Mean(d, condition.0, condition.1), sigma, draws), barrier, timeStep)
    ensures Record(condition, d, sigma, timeStep, barrier, draws)
            == if o.None? then None else Some(SimTrial(o.value.rt, o.value.choice, condition.0, condition.1))
  {
  }

  lemma DivBelow(k: nat, n: nat, c: nat)
    requires n > 0 && k < n * c
    ensures k / n < c
  {
    if k / n >= c {
      MulMonotone(c, k / n, n);
    }
  }

  lemma MulMonotone(a: nat, b: nat, n: nat)
    requires a <= b
    ensures a * n <= b * n
  {
  }

  lemma DivInBlock(k: nat, n: nat, c: nat)
    requires n > 0 && c * n <= k < c * n + n
    ensures k / n == c
  {
    var q, r := k / n, k % n;
    assert k == q * n + r && 0 <= r < n;
    if q < c {
      MulMonotone(q + 1, c, n);
    } else if q > c {
      MulMonotone(c + 1, q, n);
    }
  }

  /** All trials of a run: for each condition in order, `numTrials` walks,
      numbered consecutively from zero. `None` if some walk does not reach a
      barrier within its draws. */
  method RunSimulations(numTrials: nat, conditions: seq<(real, real)>, d: real, sigma: real,
                        timeStep: int, barrier: real, draws: seq<seq<real>>)
    returns (r: Option<map<nat, SimTrial>>)
    requires |draws| == numTrials * |conditions|
    ensures r.Some? ==> forall k: nat :: k in r.value <==> k < numTrials * |conditions|
    ensures r.Some? ==> forall k :: k in r.value ==>
              numTrials > 0 &&
              TrialAt(numTrials, conditions, d, sigma, timeStep, barrier, draws, k) == Some(r.value[k])
    ensures r.None? <==>
              numTrials > 0 &&
              exists k: nat :: k < numTrials * |conditions| &&
                TrialAt(numTrials, conditions, d, sigma, timeStep, barrier, draws, k).None?
  {
    var trials: map<nat, SimTrial> := map[];
    var trialCount := 0;
    var c := 0;
    while c < |conditions|
      invariant 0 <= c <= |conditions|
      invariant trialCount == c * numTrials
      invariant forall k: nat :: k in trials <==> k < trialCount
      invariant forall k :: k in trials ==>
                  numTrials > 0 && k < numTrials * |conditions| &&
                  TrialAt(numTrials, conditions, d, sigma, timeStep, barrier, draws, k) == Some(trials[k])
    {
      var vLeft, vRight := conditions[c].0, conditions[c].1;
      var mean := Mean(d, vLeft, vRight);
      var trial := 0;
      while trial < numTrials
        invariant 0 <= trial <= numTrials
        invariant trialCount == c * numTrials + trial
        invariant forall k: nat :: k in trials <==> k < trialCount
        invariant forall k :: k in trials ==>
                    numTrials > 0 && k < numTrials * |conditions| &&
                    TrialAt(numTrials, conditions, d, sigma, timeStep, barrier, draws, k) == Some(trials[k])
      {
        MulMonotone(c + 1, |conditions|, numTrials);
        DivInBlock(trialCount, numTrials, c);
        var o := SimulateTrial(Increments(mean, sigma, draws[trialCount]), barrier, timeStep);
        RecordOf(conditions[c], d, sigma, timeStep, barrier, draws[trialCount], o);
        ghost var expected := TrialAt(numTrials, conditions, d, sigma, timeStep, barrier, draws, trialCount);
        assert expected == Record(conditions[c], d, sigma, timeStep, barrier, draws[trialCount]);
        if o.None? {
          return None;
        }
        trials := trials[trialCount := SimTrial(o.value.rt, o.value.choice, vLeft, vRight)];
        trialCount := trialCount + 1;
        trial := trial + 1;
      }
      c := c + 1;
    }
    return Some(trials);
  }
}
