/**
 The discretisation used by the likelihood engine of `ddm.py`: the number of
 time bins of a trial, the barrier schedule over those bins, and the grid of
 evidence (RDV) states between the two barriers.
 */
module StateSpace {
  import opened Reals

  /** Number of whole time bins in a reaction time: Python's `int(RT // timeStep)`.
      For a positive divisor Dafny's `/` on `int` rounds down exactly as `//` does. */
  function MaxTime(rt: int, timeStep: int): (m: int)
    requires timeStep > 0
    ensures m * timeStep <= rt < (m + 1) * timeStep
  {
    rt / timeStep
  }

  /** Mean change of the RDV in one time bin, `d * (valueLeft - valueRight)`;
      the same in the likelihood engine and the simulator. */
  function Mean(d: real, valueLeft: real, valueRight: real): real
  {
    d * (valueLeft - valueRight)
  }

  /** `barrier / stateStep` is a whole number of states, so that the state axis
      runs from `-barrier` to `barrier` and contains zero. */
  predicate Gridded(barrier: real, stateStep: real)
  {
    barrier > 0.0 && stateStep > 0.0 && (barrier / stateStep).Floor as real == barrier / stateStep
  }

  /** The state axis: `2 * half + 1` evidence levels spaced `stateStep` apart,
      state `i` being `(i - half) * stateStep`; `half` is the zero state. */
  datatype Grid = Grid(half: nat, stateStep: real) {

    function Count(): nat
    {
      2 * half + 1
    }

    function State(i: int): real
    {
      (i - half) as real * stateStep
    }
  }

  /** The grid of `np.arange(-barrier, barrier + stateStep, stateStep)` with the
      middle level snapped to exactly zero. */
  function MakeGrid(barrier: real, stateStep: real): (g: Grid)
    requires Gridded(barrier, stateStep)
    ensures g.stateStep == stateStep
    ensures g.half >= 1
    ensures g.State(0) == -barrier && g.State(g.Count() - 1) == barrier
    ensures g.State(g.half) == 0.0
  {
    var n := (barrier / stateStep).Floor;
    assert n as real * stateStep == barrier;
    PositiveFactor(n as real, stateStep);
    Grid(n, stateStep)
  }

  /** The state values of a grid, lowest first. */
  function States(g: Grid): (s: seq<real>)
    ensures |s| == g.Count()
    ensures forall i :: 0 <= i < |s| ==> s[i] == g.State(i)
  {
    seq(g.Count(), i requires 0 <= i < g.Count() => g.State(i))
  }

  /** The middle state is zero and neighbouring states are one `stateStep`
      apart. */
  lemma StatesSpacing(g: Grid)
    ensures States(g)[g.half] == 0.0
    ensures forall i :: 0 <= i < |States(g)| - 1 ==> States(g)[i + 1] == States(g)[i] + g.stateStep
  {
    var s := States(g);
    forall i | 0 <= i < |s| - 1
      ensures s[i + 1] == s[i] + g.stateStep
    {
      Distribute((i - g.half) as real, g.stateStep);
    }
  }

  /** With a positive step the states increase strictly. */
  lemma StatesIncreasing(g: Grid)
    requires g.stateStep > 0.0
    ensures forall i, j :: 0 <= i < j < |States(g)| ==> States(g)[i] < States(g)[j]
  {
    var s := States(g);
    forall i, j | 0 <= i < j < |s|
      ensures s[i] < s[j]
    {
      StepMonotone((i - g.half) as real, (j - g.half) as real, g.stateStep);
    }
  }

  /** The states are symmetric about zero. */
  lemma StatesSymmetric(g: Grid)
    ensures forall i :: 0 <= i < |States(g)| ==> States(g)[|States(g)| - 1 - i] == -States(g)[i]
  {
    var s := States(g);
    forall i | 0 <= i < |s|
      ensures s[|s| - 1 - i] == -s[i]
    {
      Negate((i - g.half) as real, g.stateStep);
    }
  }

  lemma Distribute(a: real, c: real)
    ensures (a + 1.0) * c == a * c + c
  {
  }

  lemma Negate(a: real, c: real)
    ensures (-a) * c == -(a * c)
  {
  }

  lemma PositiveFactor(a: real, c: real)
    requires c > 0.0 && a * c > 0.0
    ensures a > 0.0
  {
  }

  lemma StepMonotone(a: real, b: real, c: real)
    requires a < b && c > 0.0
    ensures a * c < b * c
  {
  }

  /** The divisor `1 + decay * t` of the barrier schedule at time bin `t`. */
  function Shrink(decay: real, t: nat): (k: real)
    requires decay >= 0.0
    ensures k >= 1.0
    ensures decay == 0.0 ==> k == 1.0
  {
    assert decay * t as real >= 0.0 by { NonNegativeProduct(decay, t as real); }
    1.0 + decay * t as real
  }

  lemma ShrinkIncreasing(decay: real, t1: nat, t2: nat)
    requires decay > 0.0 && t1 < t2
    ensures Shrink(decay, t1) < Shrink(decay, t2)
  {
    assert decay * t1 as real < decay * t2 as real;
  }

  /** Upper barrier at time bin `t` of a trial of `maxTime` bins: `barrier` at
      `t = 0`, then `barrier / (1 + decay * t)`. */
  function BarrierUp(barrier: real, decay: real, maxTime: nat): (up: seq<real>)
    requires decay >= 0.0
    ensures |up| == maxTime
    ensures forall t :: 0 <= t < maxTime ==> up[t] == barrier / Shrink(decay, t)
    ensures decay == 0.0 ==> forall t :: 0 <= t < maxTime ==> up[t] == barrier
    ensures barrier > 0.0 ==> forall t :: 0 <= t < maxTime ==> up[t] > 0.0
    ensures barrier > 0.0 && decay > 0.0 ==>
              forall t1, t2 :: 0 <= t1 < t2 < maxTime ==> up[t2] < up[t1]
  {
    var up := seq(maxTime, t requires 0 <= t < maxTime =>
                    if t == 0 then barrier else barrier / Shrink(decay, t));
    forall t | 0 <= t < maxTime
      ensures up[t] == barrier / Shrink(decay, t)
      ensures barrier > 0.0 ==> up[t] > 0.0
    {
      if barrier > 0.0 {
        QuotientPositive(barrier, Shrink(decay, t));
      }
    }
    assert barrier > 0.0 && decay > 0.0 ==>
             forall t1, t2 :: 0 <= t1 < t2 < maxTime ==> up[t2] < up[t1] by {
      if barrier > 0.0 && decay > 0.0 {
        forall t1, t2 | 0 <= t1 < t2 < maxTime
          ensures up[t2] < up[t1]
        {
          ShrinkIncreasing(decay, t1, t2);
          QuotientShrinks(barrier, Shrink(decay, t1), Shrink(decay, t2));
        }
      }
    }
    up
  }

  /** Lower barrier at time bin `t`: the mirror image of the upper one. */
  function BarrierDown(barrier: real, decay: real, maxTime: nat): (down: seq<real>)
    requires decay >= 0.0
    ensures |down| == maxTime
    ensures forall t :: 0 <= t < maxTime ==> down[t] == -BarrierUp(barrier, decay, maxTime)[t]
    ensures barrier > 0.0 ==>
              forall t :: 0 <= t < maxTime ==> down[t] < 0.0 < BarrierUp(barrier, decay, maxTime)[t]
  {
    seq(maxTime, t requires 0 <= t < maxTime =>
          if t == 0 then -barrier else -barrier / Shrink(decay, t))
  }

  lemma QuotientShrinks(x: real, a: real, b: real)
    requires x > 0.0 && 0.0 < a < b
    ensures x / b < x / a
  {
    assert x / a - x / b == x * (b - a) / (a * b);
  }
}
