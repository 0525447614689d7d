/**
 Sequence helpers shared by the grid-search drivers: nested loops that append
 to one list are the concatenation of their rows, and a list used as a set of
 dictionary keys should not repeat an element.
 */
module Seqs {

  /** No element occurs twice. */
  predicate Distinct<T(==)>(s: seq<T>)
  {
    forall i, j :: 0 <= i < j < |s| ==> s[i] != s[j]
  }

  /** The rows one after the other, as nested `for` loops appending to one list. */
  function Flatten<T>(rows: seq<seq<T>>): seq<T>
  {
    if |rows| == 0 then [] else Flatten(rows[..|rows| - 1]) + rows[|rows| - 1]
  }

  lemma FlattenAppend<T>(rows: seq<seq<T>>, row: seq<T>)
    ensures Flatten(rows + [row]) == Flatten(rows) + row
  {
    assert (rows + [row])[..|rows|] == rows;
  }

  /** Rows of a common length `n`: element `j` of row `i` sits at `i * n + j`. */
  lemma {:induction false} FlattenIndex<T>(rows: seq<seq<T>>, n: nat, i: nat, j: nat)
    requires forall r :: 0 <= r < |rows| ==> |rows[r]| == n
    requires i < |rows| && j < n
    ensures |Flatten(rows)| == |rows| * n
    ensures i * n + j < |Flatten(rows)|
    ensures Flatten(rows)[i * n + j] == rows[i][j]
  {
    var m := |rows| - 1;
    FlattenLength(rows, n);
    FlattenLength(rows[..m], n);
    if i < m {
      FlattenIndex(rows[..m], n, i, j);
      assert i * n + j < m * n;
    } else {
      assert Flatten(rows)[m * n + j] == rows[m][j];
    }
  }

  lemma {:induction false} FlattenLength<T>(rows: seq<seq<T>>, n: nat)
    requires forall r :: 0 <= r < |rows| ==> |rows[r]| == n
    ensures |Flatten(rows)| == |rows| * n
  {
    if |rows| > 0 {
      FlattenLength(rows[..|rows| - 1], n);
    }
  }

  /** Rows without repetitions whose elements differ from row to row
      flatten to a list without repetitions. */
  lemma {:induction false} FlattenDistinct<T>(rows: seq<seq<T>>)
    requires forall i :: 0 <= i < |rows| ==> Distinct(rows[i])
    requires forall i1, i2, x, y :: 0 <= i1 < i2 < |rows| && 0 <= x < |rows[i1]| && 0 <= y < |rows[i2]| ==>
               rows[i1][x] != rows[i2][y]
    ensures Distinct(Flatten(rows))
  {
    if |rows| > 0 {
      var n := |rows| - 1;
      var front, last := Flatten(rows[..n]), rows[n];
      FlattenDistinct(rows[..n]);
      forall a, b | 0 <= a < b < |front + last|
        ensures (front + last)[a] != (front + last)[b]
      {
        if a < |front| && b >= |front| {
          var i, x := FlattenMember(rows[..n], a);
          assert rows[i][x] != rows[n][b - |front|];
        }
      }
    }
  }

  /** An element of flattened rows lies in one of the rows. */
  lemma {:induction false} FlattenMember<T>(rows: seq<seq<T>>, k: int) returns (i: int, j: int)
    requires 0 <= k < |Flatten(rows)|
    ensures 0 <= i < |rows| && 0 <= j < |rows[i]| && rows[i][j] == Flatten(rows)[k]
  {
    var n := |rows| - 1;
    var front := Flatten(rows[..n]);
    if k < |front| {
      i, j := FlattenMember(rows[..n], k);
    } else {
      i, j := n, k - |front|;
    }
  }

  /** Every element of every row is in the flattened rows. */
  lemma {:induction false} FlattenHas<T>(rows: seq<seq<T>>, i: int, j: int)
    requires 0 <= i < |rows| && 0 <= j < |rows[i]|
    ensures rows[i][j] in Flatten(rows)
  {
    var n := |rows| - 1;
    if i < n {
      FlattenHas(rows[..n], i, j);
    }
  }
}
