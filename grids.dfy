/** Square pixel grids as sequences of rows, and the whole-grid sums the
    leakage computation takes over them. */
module Grids {

  /** g has n rows of n entries each. */
  predicate IsSquare<T>(g: seq<seq<T>>, n: nat) {
    |g| == n && forall i :: 0 <= i < n ==> |g[i]| == n
  }

  /** Every entry of g is 0 or 1. */
  predicate IsZeroOne(g: seq<seq<int>>) {
    forall i, j :: 0 <= i < |g| && 0 <= j < |g[i]| ==> g[i][j] == 0 || g[i][j] == 1
  }

  /** Every entry of g lies in [0, 1]. */
  predicate InUnitRange(g: seq<seq<real>>) {
    forall i, j :: 0 <= i < |g| && 0 <= j < |g[i]| ==> 0.0 <= g[i][j] <= 1.0
  }

  function RowSum(row: seq<int>): int {
    if row == [] then 0 else row[0] + RowSum(row[1..])
  }

  /** The sum of all entries of an integer grid. */
  function Sum(g: seq<seq<int>>): int {
    if g == [] then 0 else RowSum(g[0]) + Sum(g[1..])
  }

  function WeightedRowSum(m: seq<int>, t: seq<real>): real
    requires |m| == |t|
  {
    if m == [] then 0.0 else (m[0] as real) * t[0] + WeightedRowSum(m[1..], t[1..])
  }

  /** The sum of all entries of the entrywise product of two grids of the
      same shape. */
  function WeightedSum(m: seq<seq<int>>, t: seq<seq<real>>): real
    requires |m| == |t| && forall i :: 0 <= i < |m| ==> |m[i]| == |t[i]|
  {
    if m == [] then 0.0
    else WeightedRowSum(m[0], t[0]) + WeightedSum(m[1..], t[1..])
  }

  /** A 0/1 row sums to at least 0 and at most its length, and to at least
      any of its entries. */
  lemma {:induction false} RowSumBounds(row: seq<int>)
    requires forall j :: 0 <= j < |row| ==> row[j] == 0 || row[j] == 1
    ensures 0 <= RowSum(row) <= |row|
    ensures forall j :: 0 <= j < |row| ==> row[j] <= RowSum(row)
  {
    if row != [] {
      RowSumBounds(row[1..]);
      forall j | 0 < j < |row| ensures row[j] <= RowSum(row) {
        assert row[j] == row[1..][j - 1];
      }
    }
  }

  /** A 0/1 grid with rows of length at most w sums to between 0 and
      |g| * w, and to at least any of its entries. */
  lemma {:induction false} SumBounds(g: seq<seq<int>>, w: nat)
    requires IsZeroOne(g)
    requires forall i :: 0 <= i < |g| ==> |g[i]| <= w
    ensures 0 <= Sum(g) <= |g| * w
    ensures forall i, j :: 0 <= i < |g| && 0 <= j < |g[i]| ==> g[i][j] <= Sum(g)
  {
    if g != [] {
      RowSumBounds(g[0]);
      assert IsZeroOne(g[1..]) by {
        forall i, j | 0 <= i < |g[1..]| && 0 <= j < |g[1..][i]|
          ensures g[1..][i][j] == 0 || g[1..][i][j] == 1
        {
          assert g[1..][i] == g[i + 1];
        }
      }
      SumBounds(g[1..], w);
      assert Sum(g) <= w + (|g| - 1) * w;
      forall i, j | 0 < i < |g| && 0 <= j < |g[i]| ensures g[i][j] <= Sum(g) {
        assert g[i] == g[1..][i - 1];
      }
    }
  }

  /** With 0/1 weights and entries in [0, 1], a weighted row sum lies
      between 0 and the number of weights that are 1. */
  lemma {:induction false} WeightedRowSumBounds(m: seq<int>, t: seq<real>)
    requires |m| == |t|
    requires forall j :: 0 <= j < |m| ==> m[j] == 0 || m[j] == 1
    requires forall j :: 0 <= j < |t| ==> 0.0 <= t[j] <= 1.0
    ensures 0.0 <= WeightedRowSum(m, t) <= RowSum(m) as real
  {
    if m != [] {
      WeightedRowSumBounds(m[1..], t[1..]);
    }
  }

  /** With a 0/1 weight grid and entries in [0, 1], the weighted sum lies
      between 0 and the number of weights that are 1. */
  lemma {:induction false} WeightedSumBounds(m: seq<seq<int>>, t: seq<seq<real>>)
    requires |m| == |t| && forall i :: 0 <= i < |m| ==> |m[i]| == |t[i]|
    requires IsZeroOne(m) && InUnitRange(t)
    ensures 0.0 <= WeightedSum(m, t) <= Sum(m) as real
  {
    if m != [] {
      WeightedRowSumBounds(m[0], t[0]);
      assert IsZeroOne(m[1..]) && InUnitRange(t[1..]) by {
        forall i | 0 <= i < |m| - 1 ensures m[1..][i] == m[i + 1] && t[1..][i] == t[i + 1] { }
      }
      WeightedSumBounds(m[1..], t[1..]);
    }
  }
}
