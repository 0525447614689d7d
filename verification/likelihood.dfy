/**
 The likelihood engine of `ddm.py` (`get_trial_likelihood`): a probability
 mass vector over the evidence states is pushed through a Gaussian transition
 kernel one time bin at a time, the states at or beyond the barriers are
 absorbed, the mass that crosses each barrier in the bin is recorded, and the
 three quantities are rescaled together so that no mass is created or lost.
 The likelihood of a trial is the crossing mass of the observed choice in the
 last time bin.

 The Gaussian density and distribution function are not computed here: they
 are the two functions of a `Normal` value, of which only their sign and range
 are known.
 */
module Likelihood {
  import opened Reals
  import opened StateSpace

  /** `norm.pdf(x, mean, sd)` and `norm.cdf(x, mean, sd)`. */
  datatype Normal = Normal(pdf: (real, real, real) -> real, cdf: (real, real, real) -> real)

  /** What is known of a Gaussian with a positive standard deviation: its
      density is strictly positive everywhere and its distribution function
      lies in `[0, 1]`. */
  ghost predicate WellFormed(n: Normal)
  {
    && (forall x, m, sd :: sd > 0.0 ==> n.pdf(x, m, sd) > 0.0)
    && (forall x, m, sd :: sd > 0.0 ==> 0.0 <= n.cdf(x, m, sd) <= 1.0)
  }

  /** Everything one likelihood evaluation is run on: the state grid, the
      barrier schedule (one entry per time bin), and the Gaussian increment. */
  datatype Engine = Engine(grid: Grid, barrierUp: seq<real>, barrierDown: seq<real>,
                           mean: real, sigma: real, normal: Normal)

  ghost predicate Valid(e: Engine)
  {
    && e.grid.stateStep > 0.0
    && e.sigma > 0.0
    && WellFormed(e.normal)
    && |e.barrierUp| == |e.barrierDown| >= 1
    && forall t :: 0 <= t < |e.barrierUp| ==> e.barrierDown[t] < 0.0 < e.barrierUp[t]
  }

  /** State `j` lies at or beyond a barrier in time bin `t` and is absorbed. */
  predicate Absorbed(e: Engine, t: nat, j: int)
    requires t < |e.barrierUp| == |e.barrierDown|
  {
    e.grid.State(j) >= e.barrierUp[t] || e.grid.State(j) <= e.barrierDown[t]
  }

  /** Mass vector at time 0: one on the state whose value is zero, then every
      state strictly outside the barriers of bin 0 cleared. */
  function Initial(e: Engine): (p: seq<real>)
    requires Valid(e)
    ensures |p| == e.grid.Count()
    ensures p[e.grid.half] == 1.0
    ensures forall i :: 0 <= i < |p| && i != e.grid.half ==> p[i] == 0.0
    ensures NonNegative(p) && Sum(p) == 1.0
  {
    var g := e.grid;
    var p := seq(g.Count(), i requires 0 <= i < g.Count() =>
                   if g.State(i) > e.barrierUp[0] || g.State(i) < e.barrierDown[0] then 0.0
                   else if g.State(i) == 0.0 then 1.0
                   else 0.0);
    forall i | 0 <= i < |p| && i != g.half
      ensures p[i] == 0.0
    {
      NonZeroState(g, i);
    }
    SumPointMass(p, g.half);
    p
  }

  lemma NonZeroState(g: Grid, i: int)
    requires g.stateStep > 0.0 && i != g.half
    ensures g.State(i) != 0.0
  {
    var a := (i - g.half) as real;
    assert a != 0.0;
    if a > 0.0 {
      assert a * g.stateStep > 0.0;
    } else {
      assert a * g.stateStep < 0.0;
    }
  }

  /** A vector that is one at `z` and zero elsewhere has total mass one. */
  lemma {:induction false} SumPointMass(p: seq<real>, z: int)
    requires 0 <= z < |p| && p[z] == 1.0
    requires forall i :: 0 <= i < |p| && i != z ==> p[i] == 0.0
    ensures Sum(p) == 1.0
  {
    var n := |p| - 1;
    if z == n {
      SumZero(p[..n]);
    } else {
      SumPointMass(p[..n], z);
    }
  }

  lemma {:induction false} SumZero(p: seq<real>)
    requires forall i :: 0 <= i < |p| ==> p[i] == 0.0
    ensures Sum(p) == 0.0
  {
    if |p| > 0 {
      SumZero(p[..|p| - 1]);
    }
  }

  /** Column `j` of the transition matrix: the density of moving from each
      state `i` to state `j` in one bin, `norm.pdf(state[j] - state[i], mean, sigma)`. */
  function Kernel(e: Engine, j: int): (w: seq<real>)
    requires Valid(e)
    ensures |w| == e.grid.Count()
    ensures forall i :: 0 <= i < |w| ==> w[i] > 0.0
  {
    seq(e.grid.Count(), i requires 0 <= i < e.grid.Count() =>
          e.normal.pdf(e.grid.State(j) - e.grid.State(i), e.mean, e.sigma))
  }

  /** Un-absorbed mass after one bin: `stateStep * (pdfMatrix · p)`, with the
      states at or beyond the barriers of bin `t` set to zero. */
  function Transition(e: Engine, p: seq<real>, t: nat): (q: seq<real>)
    requires Valid(e) && |p| == e.grid.Count() && t < |e.barrierUp|
    ensures |q| == |p|
    ensures forall j :: 0 <= j < |q| && Absorbed(e, t, j) ==> q[j] == 0.0
  {
    seq(|p|, j requires 0 <= j < |p| => Moved(e, p, t, j))
  }

  /** The un-absorbed mass arriving on state `j` in bin `t`. */
  function Moved(e: Engine, p: seq<real>, t: nat, j: int): real
    requires Valid(e) && |p| == e.grid.Count() && t < |e.barrierUp|
  {
    if Absorbed(e, t, j) then 0.0 else e.grid.stateStep * Dot(p, Kernel(e, j))
  }

  /** Tail weights of the upper barrier: `1 - norm.cdf(barrierUp[t] - state[i])`. */
  function UpTail(e: Engine, t: nat): (w: seq<real>)
    requires Valid(e) && t < |e.barrierUp|
    ensures |w| == e.grid.Count() && NonNegative(w)
  {
    seq(e.grid.Count(), i requires 0 <= i < e.grid.Count() =>
          1.0 - e.normal.cdf(e.barrierUp[t] - e.grid.State(i), e.mean, e.sigma))
  }

  /** Tail weights of the lower barrier: `norm.cdf(barrierDown[t] - state[i])`. */
  function DownTail(e: Engine, t: nat): (w: seq<real>)
    requires Valid(e) && t < |e.barrierDown|
    ensures |w| == e.grid.Count() && NonNegative(w)
  {
    seq(e.grid.Count(), i requires 0 <= i < e.grid.Count() =>
          e.normal.cdf(e.barrierDown[t] - e.grid.State(i), e.mean, e.sigma))
  }

  /** Mass crossing the upper barrier in bin `t`, before rescaling. */
  function UpCross(e: Engine, p: seq<real>, t: nat): real
    requires Valid(e) && |p| == e.grid.Count() && t < |e.barrierUp|
  {
    Dot(p, UpTail(e, t))
  }

  /** Mass crossing the lower barrier in bin `t`, before rescaling. */
  function DownCross(e: Engine, p: seq<real>, t: nat): real
    requires Valid(e) && |p| == e.grid.Count() && t < |e.barrierDown|
  {
    Dot(p, DownTail(e, t))
  }

  /** The outcome of one time bin: the new mass vector and the (rescaled) mass
      that crossed each barrier in the bin. */
  datatype StepOutcome = StepOutcome(mass: seq<real>, up: real, down: real)

  /** The raw quantities of a bin are all non-negative, and the zero state,
      which stays strictly between the barriers, receives positive mass. */
  lemma RawMassPositive(e: Engine, p: seq<real>, t: nat)
    requires Valid(e) && |p| == e.grid.Count() && t < |e.barrierUp|
    requires NonNegative(p) && Sum(p) > 0.0
    ensures NonNegative(Transition(e, p, t))
    ensures Transition(e, p, t)[e.grid.half] > 0.0
    ensures Sum(Transition(e, p, t)) > 0.0
    ensures UpCross(e, p, t) >= 0.0 && DownCross(e, p, t) >= 0.0
  {
    var q := Transition(e, p, t);
    TransitionNonNegative(e, p, t);
    ZeroStateReceivesMass(e, p, t);
    EntryAtMostSum(q, e.grid.half);
    DotNonNegative(p, UpTail(e, t));
    DotNonNegative(p, DownTail(e, t));
  }

  lemma TransitionNonNegative(e: Engine, p: seq<real>, t: nat)
    requires Valid(e) && |p| == e.grid.Count() && t < |e.barrierUp|
    requires NonNegative(p)
    ensures NonNegative(Transition(e, p, t))
  {
    var q := Transition(e, p, t);
    forall j | 0 <= j < |q|
      ensures q[j] >= 0.0
    {
      if !Absorbed(e, t, j) {
        var w := Kernel(e, j);
        assert NonNegative(w);
        DotNonNegative(p, w);
        NonNegativeProduct(e.grid.stateStep, Dot(p, w));
      }
    }
  }

  lemma ZeroStateReceivesMass(e: Engine, p: seq<real>, t: nat)
    requires Valid(e) && |p| == e.grid.Count() && t < |e.barrierUp|
    requires NonNegative(p) && Sum(p) > 0.0
    ensures Transition(e, p, t)[e.grid.half] > 0.0
  {
    KernelMassPositive(e, p, e.grid.half);
    ZeroStateKeepsMass(e, p, t);
  }

  /** The zero state is never absorbed, so it keeps the mass moved onto it. */
  lemma ZeroStateKeepsMass(e: Engine, p: seq<real>, t: nat)
    requires Valid(e) && |p| == e.grid.Count() && t < |e.barrierUp|
    requires e.grid.stateStep * Dot(p, Kernel(e, e.grid.half)) > 0.0
    ensures Transition(e, p, t)[e.grid.half] > 0.0
  {
    ZeroStateInside(e, t);
    TransitionEntry(e, p, t, e.grid.half);
  }

  /** Mass moved onto any state by a positive kernel is positive. */
  lemma KernelMassPositive(e: Engine, p: seq<real>, j: int)
    requires Valid(e) && |p| == e.grid.Count()
    requires NonNegative(p) && Sum(p) > 0.0
    ensures e.grid.stateStep * Dot(p, Kernel(e, j)) > 0.0
  {
    var w := Kernel(e, j);
    DotPositive(p, w);
    PositiveProduct(e.grid.stateStep, Dot(p, w));
  }

  lemma TransitionEntry(e: Engine, p: seq<real>, t: nat, j: int)
    requires Valid(e) && |p| == e.grid.Count() && t < |e.barrierUp| && 0 <= j < |p|
    requires !Absorbed(e, t, j)
    ensures Transition(e, p, t)[j] == e.grid.stateStep * Dot(p, Kernel(e, j))
  {
    assert Transition(e, p, t)[j] == Moved(e, p, t, j);
    MovedInside(e, p, t, j);
  }

  lemma MovedInside(e: Engine, p: seq<real>, t: nat, j: int)
    requires Valid(e) && |p| == e.grid.Count() && t < |e.barrierUp|
    requires !Absorbed(e, t, j)
    ensures Moved(e, p, t, j) == e.grid.stateStep * Dot(p, Kernel(e, j))
  {
  }

  /** The zero state lies strictly between the barriers of every bin. */
  lemma ZeroStateInside(e: Engine, t: nat)
    requires Valid(e) && t < |e.barrierUp|
    ensures !Absorbed(e, t, e.grid.half)
  {
    assert e.grid.State(e.grid.half) == 0.0;
    assert e.barrierDown[t] < 0.0 < e.barrierUp[t];
  }

  /** `x : y` is the ratio `x0 : y0`, written without division. */
  predicate SameRatio(x: real, y: real, x0: real, y0: real)
  {
    x * y0 == y * x0
  }

  /** The correction of one bin: the un-absorbed mass and the two crossing
      masses are all multiplied by `sumIn / sumCurrent`, where `sumCurrent` is
      their raw total, so that together they carry exactly `sumIn`. */
  function Renormalise(raw: seq<real>, up: real, down: real, sumIn: real): (r: StepOutcome)
    requires NonNegative(raw) && up >= 0.0 && down >= 0.0 && Sum(raw) > 0.0 && sumIn > 0.0
    ensures |r.mass| == |raw|
    ensures forall j :: 0 <= j < |raw| && raw[j] == 0.0 ==> r.mass[j] == 0.0
    ensures NonNegative(r.mass) && r.up >= 0.0 && r.down >= 0.0
    ensures Sum(r.mass) > 0.0
    ensures Sum(r.mass) + r.up + r.down == sumIn
    ensures SameRatio(r.up, r.down, up, down)
    ensures forall j :: 0 <= j < |raw| ==> SameRatio(r.mass[j], r.up, raw[j], up)
    // the one common factor is `sumIn / sumCurrent`: every output stands to its
    // raw value as `sumIn` to the raw total
    ensures forall j :: 0 <= j < |raw| ==> SameRatio(r.mass[j], sumIn, raw[j], Sum(raw) + up + down)
    ensures SameRatio(r.up, sumIn, up, Sum(raw) + up + down)
    ensures SameRatio(r.down, sumIn, down, Sum(raw) + up + down)
  {
    var sumCurrent := Sum(raw) + up + down;
    var k := sumIn / sumCurrent;
    var r := StepOutcome(Rescale(raw, sumIn, sumCurrent), up * k, down * k);
    assert Rescaled(raw, up, down, sumIn, sumCurrent, k, r);
    RescaledSigns(raw, up, down, sumIn, sumCurrent, k, r);
    RescaledTotal(raw, up, down, sumIn, sumCurrent, k, r);
    RescaledRatios(raw, up, down, sumIn, sumCurrent, k, r);
    r
  }

  /** The rescaled outcome of a bin: states and crossings times `k = sumIn / sumCurrent`. */
  predicate Rescaled(raw: seq<real>, up: real, down: real, sumIn: real, sumCurrent: real, k: real,
                     r: StepOutcome)
  {
    && sumCurrent == Sum(raw) + up + down && sumCurrent > 0.0 && k == sumIn / sumCurrent
    && |r.mass| == |raw|
    && (forall i :: 0 <= i < |raw| ==> r.mass[i] == raw[i] * k)
    && r.up == up * k && r.down == down * k
  }

  /** Rescaling keeps zeros and signs. */
  lemma RescaledSigns(raw: seq<real>, up: real, down: real, sumIn: real, sumCurrent: real, k: real,
                      r: StepOutcome)
    requires NonNegative(raw) && up >= 0.0 && down >= 0.0 && sumIn > 0.0
    requires Rescaled(raw, up, down, sumIn, sumCurrent, k, r)
    ensures forall j :: 0 <= j < |raw| && raw[j] == 0.0 ==> r.mass[j] == 0.0
    ensures NonNegative(r.mass) && r.up >= 0.0 && r.down >= 0.0
  {
    QuotientPositive(sumIn, sumCurrent);
    RescaleSigns(raw, r.mass, up, down, k);
  }

  /** Rescaling makes the bin carry exactly `sumIn`. */
  lemma RescaledTotal(raw: seq<real>, up: real, down: real, sumIn: real, sumCurrent: real, k: real,
                      r: StepOutcome)
    requires up >= 0.0 && down >= 0.0 && Sum(raw) > 0.0 && sumIn > 0.0
    requires Rescaled(raw, up, down, sumIn, sumCurrent, k, r)
    ensures Sum(r.mass) > 0.0
    ensures Sum(r.mass) + r.up + r.down == sumIn
  {
    SumScaled(raw, r.mass, k);
    RescaleTotal(Sum(raw), Sum(r.mass), up, down, sumIn, sumCurrent);
  }

  /** Rescaling multiplies everything by one factor. */
  lemma RescaledRatios(raw: seq<real>, up: real, down: real, sumIn: real, sumCurrent: real, k: real,
                       r: StepOutcome)
    requires Rescaled(raw, up, down, sumIn, sumCurrent, k, r)
    ensures SameRatio(r.up, r.down, up, down)
    ensures forall j :: 0 <= j < |raw| ==> SameRatio(r.mass[j], r.up, raw[j], up)
    ensures forall j :: 0 <= j < |raw| ==> SameRatio(r.mass[j], sumIn, raw[j], sumCurrent)
    ensures SameRatio(r.up, sumIn, up, sumCurrent)
    ensures SameRatio(r.down, sumIn, down, sumCurrent)
  {
    RescaleRatios(raw, r.mass, up, down, k);
    RescaleFactor(raw, r.mass, up, down, sumIn, sumCurrent);
  }

  /** One iteration of the propagation loop, for bin `t`. */
  function Step(e: Engine, p: seq<real>, t: nat): (r: StepOutcome)
    requires Valid(e) && |p| == e.grid.Count() && t < |e.barrierUp|
    requires NonNegative(p) && Sum(p) > 0.0
    ensures |r.mass| == |p|
    ensures forall j :: 0 <= j < |r.mass| && Absorbed(e, t, j) ==> r.mass[j] == 0.0
    ensures NonNegative(r.mass) && r.up >= 0.0 && r.down >= 0.0
    ensures Sum(r.mass) > 0.0
    // conservation: what stays on the states and what crosses add up to what came in
    ensures Sum(r.mass) + r.up + r.down == Sum(p)
    // the correction is one common factor: the raw proportions are kept
    ensures SameRatio(r.up, r.down, UpCross(e, p, t), DownCross(e, p, t))
    ensures forall j :: 0 <= j < |p| ==> SameRatio(r.mass[j], r.up, Transition(e, p, t)[j], UpCross(e, p, t))
    // every output is its raw value times `Σ p / sumCurrent`
    ensures var sumCurrent := Sum(Transition(e, p, t)) + UpCross(e, p, t) + DownCross(e, p, t);
            && (forall j :: 0 <= j < |p| ==> SameRatio(r.mass[j], Sum(p), Transition(e, p, t)[j], sumCurrent))
            && SameRatio(r.up, Sum(p), UpCross(e, p, t), sumCurrent)
            && SameRatio(r.down, Sum(p), DownCross(e, p, t), sumCurrent)
  {
    RawMassPositive(e, p, t);
    Renormalise(Transition(e, p, t), UpCross(e, p, t), DownCross(e, p, t), Sum(p))
  }

  /** Arithmetic of the joint rescaling by a positive factor `k`. */
  lemma RescaleSigns(raw: seq<real>, mass: seq<real>, up: real, down: real, k: real)
    requires |mass| == |raw| && k > 0.0
    requires forall i :: 0 <= i < |raw| ==> mass[i] == raw[i] * k
    requires NonNegative(raw) && up >= 0.0 && down >= 0.0
    ensures NonNegative(mass) && up * k >= 0.0 && down * k >= 0.0
  {
    forall i | 0 <= i < |raw|
      ensures mass[i] >= 0.0
    {
      NonNegativeProduct(raw[i], k);
    }
    NonNegativeProduct(up, k);
    NonNegativeProduct(down, k);
  }

  lemma RescaleTotal(total: real, scaled: real, up: real, down: real, sumIn: real, sumCurrent: real)
    requires sumCurrent == total + up + down && sumCurrent > 0.0 && sumIn > 0.0 && total > 0.0
    requires scaled == total * (sumIn / sumCurrent)
    ensures scaled > 0.0
    ensures scaled + up * (sumIn / sumCurrent) + down * (sumIn / sumCurrent) == sumIn
  {
    var k := sumIn / sumCurrent;
    QuotientPositive(sumIn, sumCurrent);
    PositiveProduct(total, k);
    Factor(total, up, down, k);
    QuotientCancels(sumIn, sumCurrent);
  }

  lemma RescaleRatios(raw: seq<real>, mass: seq<real>, up: real, down: real, k: real)
    requires |mass| == |raw|
    requires forall i :: 0 <= i < |raw| ==> mass[i] == raw[i] * k
    ensures SameRatio(up * k, down * k, up, down)
    ensures forall i :: 0 <= i < |raw| ==> SameRatio(mass[i], up * k, raw[i], up)
  {
    forall i | 0 <= i < |raw|
      ensures SameRatio(mass[i], up * k, raw[i], up)
    {
      CommonFactor(raw[i], up, k, mass[i], up * k);
    }
    CommonFactor(up, down, k, up * k, down * k);
  }

  /** Multiplying by `sumIn / sumCurrent` relates each output to its raw value
      as `sumIn` to `sumCurrent`. */
  lemma RescaleFactor(raw: seq<real>, mass: seq<real>, up: real, down: real, sumIn: real, sumCurrent: real)
    requires |mass| == |raw| && sumCurrent != 0.0
    requires forall i :: 0 <= i < |raw| ==> mass[i] == raw[i] * (sumIn / sumCurrent)
    ensures forall i :: 0 <= i < |raw| ==> SameRatio(mass[i], sumIn, raw[i], sumCurrent)
    ensures SameRatio(up * (sumIn / sumCurrent), sumIn, up, sumCurrent)
    ensures SameRatio(down * (sumIn / sumCurrent), sumIn, down, sumCurrent)
  {
    forall i | 0 <= i < |raw|
      ensures SameRatio(mass[i], sumIn, raw[i], sumCurrent)
    {
      ScaledByQuotient(raw[i], sumIn, sumCurrent);
    }
    ScaledByQuotient(up, sumIn, sumCurrent);
    ScaledByQuotient(down, sumIn, sumCurrent);
  }

  lemma ScaledByQuotient(x: real, num: real, den: real)
    requires den != 0.0
    ensures SameRatio(x * (num / den), num, x, den)
  {
    QuotientCancels(num, den);
    assert x * (num / den) * den == x * (den * (num / den));
  }

  /** Two quantities multiplied by the same factor keep their ratio. */
  lemma CommonFactor(x: real, y: real, k: real, xk: real, yk: real)
    requires xk == x * k && yk == y * k
    ensures SameRatio(xk, yk, x, y)
  {
    assert xk * y == x * k * y == x * (y * k);
  }

  lemma Factor(a: real, b: real, c: real, k: real)
    ensures a * k + b * k + c * k == (a + b + c) * k
  {
  }

  lemma QuotientCancels(a: real, b: real)
    requires b != 0.0
    ensures b * (a / b) == a
  {
  }

  /** The mass vector after bin `t` together with the crossing masses of bins
      `0..t`, as the arrays `prStates`, `probUpCrossing[..t+1]` and
      `probDownCrossing[..t+1]` hold them after the loop body for `t` ran. */
  datatype Trace = Trace(mass: seq<real>, upCrossing: seq<real>, downCrossing: seq<real>)

  /** The propagation loop run up to and including bin `t`. The total mass is
      one at every bin: what is left on the states plus everything that crossed
      either barrier so far. */
  function Propagate(e: Engine, t: nat): (r: Trace)
    requires Valid(e) && t < |e.barrierUp|
    ensures |r.mass| == e.grid.Count()
    ensures |r.upCrossing| == |r.downCrossing| == t + 1
    ensures r.upCrossing[0] == 0.0 && r.downCrossing[0] == 0.0
    ensures NonNegative(r.mass) && NonNegative(r.upCrossing) && NonNegative(r.downCrossing)
    ensures Sum(r.mass) > 0.0
    ensures Sum(r.mass) + Sum(r.upCrossing) + Sum(r.downCrossing) == 1.0
    ensures t >= 1 ==> forall j :: 0 <= j < |r.mass| && Absorbed(e, t, j) ==> r.mass[j] == 0.0
  {
    if t == 0 then
      SumAppend([], 0.0);
      Trace(Initial(e), [0.0], [0.0])
    else
      var prev := Propagate(e, t - 1);
      Extend(prev, Step(e, prev.mass, t))
  }

  /** Appends the crossings of one bin to a trace and replaces its mass;
      conservation carries over from the bin to the whole trace. */
  function Extend(prev: Trace, s: StepOutcome): (r: Trace)
    requires |prev.upCrossing| == |prev.downCrossing| >= 1
    requires prev.upCrossing[0] == 0.0 && prev.downCrossing[0] == 0.0
    requires NonNegative(prev.upCrossing) && NonNegative(prev.downCrossing)
    requires Sum(prev.mass) + Sum(prev.upCrossing) + Sum(prev.downCrossing) == 1.0
    requires s.up >= 0.0 && s.down >= 0.0
    requires Sum(s.mass) + s.up + s.down == Sum(prev.mass)
    ensures r.mass == s.mass
    ensures |r.upCrossing| == |r.downCrossing| == |prev.upCrossing| + 1
    ensures r.upCrossing[0] == 0.0 && r.downCrossing[0] == 0.0
    ensures NonNegative(r.upCrossing) && NonNegative(r.downCrossing)
    ensures Sum(r.mass) + Sum(r.upCrossing) + Sum(r.downCrossing) == 1.0
  {
    SumAppend(prev.upCrossing, s.up);
    SumAppend(prev.downCrossing, s.down);
    Trace(s.mass, prev.upCrossing + [s.up], prev.downCrossing + [s.down])
  }

  /** The source keeps its barriers constant. */
  const Decay: real := 0.0

  /** The engine of one trial: `maxTime` bins of constant `±barrier`, the grid
      over `[-barrier, barrier]`, and Gaussian increments of mean
      `d * (valueLeft - valueRight)` and standard deviation `sigma`. */
  function TrialEngine(rt: int, valueLeft: real, valueRight: real, d: real, sigma: real,
                       timeStep: int, stateStep: real, barrier: real, normal: Normal): (e: Engine)
    requires timeStep > 0 && MaxTime(rt, timeStep) >= 1
    requires sigma > 0.0 && Gridded(barrier, stateStep) && WellFormed(normal)
    ensures Valid(e)
    ensures |e.barrierUp| == MaxTime(rt, timeStep)
    ensures e.grid.State(0) == -barrier && e.grid.State(e.grid.Count() - 1) == barrier
    ensures forall t :: 0 <= t < |e.barrierUp| ==> e.barrierUp[t] == barrier && e.barrierDown[t] == -barrier
  {
    var maxTime := MaxTime(rt, timeStep);
    Engine(MakeGrid(barrier, stateStep),
           BarrierUp(barrier, Decay, maxTime), BarrierDown(barrier, Decay, maxTime),
           Mean(d, valueLeft, valueRight), sigma, normal)
  }

  /** What the source reads off a propagated trace for a choice: the mass that
      crossed the upper barrier in bin `last` when the choice is -1 (left), the
      lower barrier when it is +1 (right), zero when that mass is not positive
      or the choice is neither. */
  function Select(final: Trace, last: nat, choice: int): (r: real)
    requires last < |final.upCrossing| == |final.downCrossing|
    requires final.upCrossing[0] == 0.0 && final.downCrossing[0] == 0.0
    requires NonNegative(final.mass) && NonNegative(final.upCrossing) && NonNegative(final.downCrossing)
    requires Sum(final.mass) + Sum(final.upCrossing) + Sum(final.downCrossing) == 1.0
    ensures 0.0 <= r <= 1.0
    ensures choice != -1 && choice != 1 ==> r == 0.0
    ensures last == 0 ==> r == 0.0
    ensures choice == -1 && final.upCrossing[last] > 0.0 ==> r == final.upCrossing[last]
    ensures choice == 1 && final.downCrossing[last] > 0.0 ==> r == final.downCrossing[last]
    ensures r > 0.0 ==> (choice == -1 && r == final.upCrossing[last])
                        || (choice == 1 && r == final.downCrossing[last])
  {
    EntryAtMostSum(final.upCrossing, last);
    EntryAtMostSum(final.downCrossing, last);
    SumNonNegative(final.mass);
    SumNonNegative(final.upCrossing);
    SumNonNegative(final.downCrossing);
    if choice == -1 then
      if final.upCrossing[last] > 0.0 then final.upCrossing[last] else 0.0
    else if choice == 1 then
      if final.downCrossing[last] > 0.0 then final.downCrossing[last] else 0.0
    else
      0.0
  }

  /** The likelihood an engine gives a choice: `Select` applied to the trace
      propagated up to bin `last`. */
  function EngineLikelihood(e: Engine, last: nat, choice: int): (r: real)
    requires Valid(e) && last < |e.barrierUp|
    ensures 0.0 <= r <= 1.0
    ensures choice != -1 && choice != 1 ==> r == 0.0
    ensures last == 0 ==> r == 0.0
    ensures var final := Propagate(e, last);
            && (choice == -1 && final.upCrossing[last] > 0.0 ==> r == final.upCrossing[last])
            && (choice == 1 && final.downCrossing[last] > 0.0 ==> r == final.downCrossing[last])
            && (r > 0.0 ==> (choice == -1 && r == final.upCrossing[last])
                            || (choice == 1 && r == final.downCrossing[last]))
  {
    Select(Propagate(e, last), last, choice)
  }

  /** Likelihood of one trial: the engine's selection at the trial's last bin. */
  function TrialLikelihood(rt: int, choice: int, valueLeft: real, valueRight: real, d: real,
                           sigma: real, timeStep: int, stateStep: real, barrier: real,
                           normal: Normal): (r: real)
    requires timeStep > 0 && MaxTime(rt, timeStep) >= 1
    requires sigma > 0.0 && Gridded(barrier, stateStep) && WellFormed(normal)
    ensures 0.0 <= r <= 1.0
    ensures choice != -1 && choice != 1 ==> r == 0.0
    ensures MaxTime(rt, timeStep) == 1 ==> r == 0.0
    ensures
      var e := TrialEngine(rt, valueLeft, valueRight, d, sigma, timeStep, stateStep, barrier, normal);
      var last := MaxTime(rt, timeStep) - 1;
      var final := Propagate(e, last);
      && (choice == -1 && final.upCrossing[last] > 0.0 ==> r == final.upCrossing[last])
      && (choice == 1 && final.downCrossing[last] > 0.0 ==> r == final.downCrossing[last])
      && (r > 0.0 ==> (choice == -1 && r == final.upCrossing[last])
                      || (choice == 1 && r == final.downCrossing[last]))
  {
    EngineLikelihood(TrialEngine(rt, valueLeft, valueRight, d, sigma, timeStep, stateStep, barrier, normal),
                     MaxTime(rt, timeStep) - 1, choice)
  }
}
