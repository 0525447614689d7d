/**
 The trial conditions of the aDDM drivers (`addm_test_individual.py`,
 `individual_posteriors.py`): every ordered pair of different stimulus
 orientations, each orientation turned into an item value
 `|(|o| - 15) / 5|`.
 */
module TrialConditions {
  import opened Seqs

  /** Python's `range(start, stop, step)` for a positive step. */
  function Range(start: int, stop: int, step: int): (r: seq<int>)
    requires step > 0
    ensures forall i :: 0 <= i < |r| ==> start <= r[i] < stop
    ensures forall i :: 0 <= i < |r| - 1 ==> r[i + 1] == r[i] + step
    ensures |r| > 0 ==> r[0] == start
    ensures |r| > 0 ==> stop <= r[|r| - 1] + step
    ensures |r| == 0 <==> start >= stop
    decreases stop - start
  {
    if start >= stop then [] else [start] + Range(start + step, stop, step)
  }

  /** `range(-15, 20, 5)`. */
  function Orientations(): seq<int>
  {
    Range(-15, 20, 5)
  }

  /** The seven orientations written out. */
  const OrientationList: seq<int> := [-15, -10, -5, 0, 5, 10, 15]

  lemma OrientationsListed()
    ensures Orientations() == OrientationList
  {
  }

  function Abs(x: int): (a: int)
    ensures a >= 0 && (a == x || a == -x)
  {
    if x < 0 then -x else x
  }

  /** `np.absolute((np.absolute(o) - 15) / 5)`. Python 2 divides integers
      rounding down, as Dafny's `/` does for a positive divisor. */
  function Value(o: int): int
  {
    Abs((Abs(o) - 15) / 5)
  }

  lemma ValueTable()
    ensures Value(-15) == 0 && Value(-10) == 1 && Value(-5) == 2 && Value(0) == 3
    ensures Value(5) == 2 && Value(10) == 1 && Value(15) == 0
  {
  }

  /** The seven orientations map to values 0 to 3, the extremes to 0 and the
      upright orientation to 3. */
  lemma ValuesBounded()
    ensures forall o :: o in OrientationList ==> 0 <= Value(o) <= 3
    ensures Value(-15) == 0 && Value(15) == 0 && Value(0) == 3
  {
    ValueTable();
  }

  /** Two of the seven orientations share a value exactly when they are equal
      or mirror images. */
  lemma MirrorValues()
    ensures forall a, b :: a in OrientationList && b in OrientationList ==>
              (Value(a) == Value(b) <==> a == b || a == -b)
  {
    ValueTable();
  }

  /** The pairs `(oLeft, oRight)` with `oRight` drawn from `os` in order and
      different from `oLeft`: the inner loop with its `if`. */
  function Partners(oLeft: int, os: seq<int>): (r: seq<(int, int)>)
    ensures forall k :: 0 <= k < |r| ==> r[k].0 == oLeft && r[k].1 != oLeft && r[k].1 in os
    ensures forall b :: b in os && b != oLeft ==> (oLeft, b) in r
  {
    if |os| == 0 then []
    else
      var rest := Partners(oLeft, os[..|os| - 1]);
      var b := os[|os| - 1];
      assert forall x :: x in os ==> x in os[..|os| - 1] || x == b by {
        assert os == os[..|os| - 1] + [b];
      }
      if oLeft != b then rest + [(oLeft, b)] else rest
  }

  /** How often `x` occurs in `s`. */
  function Count(x: int, s: seq<int>): nat
  {
    if |s| == 0 then 0 else Count(x, s[..|s| - 1]) + (if s[|s| - 1] == x then 1 else 0)
  }

  lemma {:induction false} PartnersLength(oLeft: int, os: seq<int>)
    ensures |Partners(oLeft, os)| == |os| - Count(oLeft, os)
  {
    if |os| > 0 {
      PartnersLength(oLeft, os[..|os| - 1]);
    }
  }

  lemma {:induction false} CountOfDistinct(x: int, s: seq<int>)
    requires Distinct(s) && x in s
    ensures Count(x, s) == 1
  {
    var n := |s| - 1;
    if s[n] == x {
      CountAbsent(x, s[..n]);
    } else {
      assert x in s[..n] by {
        assert s == s[..n] + [s[n]];
      }
      CountOfDistinct(x, s[..n]);
    }
  }

  lemma {:induction false} CountAbsent(x: int, s: seq<int>)
    requires forall i :: 0 <= i < |s| ==> s[i] != x
    ensures Count(x, s) == 0
  {
    if |s| > 0 {
      CountAbsent(x, s[..|s| - 1]);
    }
  }

  /** All ordered pairs of different orientations: the outer loop over
      `oLeft`. */
  function OrientationPairs(os: seq<int>): seq<(int, int)>
  {
    Flatten(seq(|os|, i requires 0 <= i < |os| => Partners(os[i], os)))
  }

  /** `trialConditions`: the value pair of each orientation pair, in order. */
  function Conditions(os: seq<int>): (c: seq<(int, int)>)
    ensures |c| == |OrientationPairs(os)|
    ensures forall k :: 0 <= k < |c| ==>
              c[k] == (Value(OrientationPairs(os)[k].0), Value(OrientationPairs(os)[k].1))
  {
    var pairs := OrientationPairs(os);
    seq(|pairs|, k requires 0 <= k < |pairs| => (Value(pairs[k].0), Value(pairs[k].1)))
  }

  /** With distinct orientations there is one condition per ordered pair of
      different orientations, and each such pair occurs. */
  lemma PairsOfDistinct(os: seq<int>)
    requires Distinct(os)
    ensures |OrientationPairs(os)| == |os| * (|os| - 1)
    ensures forall a, b :: (a, b) in OrientationPairs(os) <==> a in os && b in os && a != b
  {
    var rows := seq(|os|, i requires 0 <= i < |os| => Partners(os[i], os));
    if |os| > 0 {
      forall i | 0 <= i < |os|
        ensures |rows[i]| == |os| - 1
      {
        PartnersLength(os[i], os);
        CountOfDistinct(os[i], os);
      }
      FlattenLength(rows, |os| - 1);
    }
    forall a, b
      ensures (a, b) in OrientationPairs(os) <==> a in os && b in os && a != b
    {
      if (a, b) in OrientationPairs(os) {
        var k :| 0 <= k < |OrientationPairs(os)| && OrientationPairs(os)[k] == (a, b);
        var i, j := FlattenMember(rows, k);
      }
      if a in os && b in os && a != b {
        var i :| 0 <= i < |os| && os[i] == a;
        var j :| 0 <= j < |rows[i]| && rows[i][j] == (a, b);
        FlattenHas(rows, i, j);
      }
    }
  }

  /** The condition list of the drivers: 42 conditions, values from 0 to 3,
      with equal values exactly for mirror-image orientations. */
  lemma DriverConditions()
    ensures |Conditions(Orientations())| == 42
    ensures forall k :: 0 <= k < |Conditions(Orientations())| ==>
              0 <= Conditions(Orientations())[k].0 <= 3 && 0 <= Conditions(Orientations())[k].1 <= 3
    ensures forall k :: 0 <= k < |Conditions(Orientations())| ==>
              var (oLeft, oRight) := OrientationPairs(Orientations())[k];
              && oLeft != oRight
              && (Conditions(Orientations())[k].0 == Conditions(Orientations())[k].1 <==> oLeft == -oRight)
  {
    var os := Orientations();
    OrientationsListed();
    assert Distinct(os);
    PairsOfDistinct(os);
    ValuesBounded();
    MirrorValues();
    var pairs, c := OrientationPairs(os), Conditions(os);
    forall k | 0 <= k < |c|
      ensures 0 <= c[k].0 <= 3 && 0 <= c[k].1 <= 3
      ensures pairs[k].0 != pairs[k].1
      ensures c[k].0 == c[k].1 <==> pairs[k].0 == -pairs[k].1
    {
      assert pairs[k] in pairs;
    }
  }
}
