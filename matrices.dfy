/** Shape and content predicates for the correlation matrices the dashboard shows. */
module Matrices {

  /** An n-by-n matrix. */
  predicate IsSquare(m: seq<seq<real>>, n: nat) {
    |m| == n && forall i :: 0 <= i < n ==> |m[i]| == n
  }

  predicate Symmetric(m: seq<seq<real>>)
    requires IsSquare(m, |m|)
  {
    forall i, j :: 0 <= i < |m| && 0 <= j < |m| ==> m[i][j] == m[j][i]
  }

  predicate UnitDiagonal(m: seq<seq<real>>)
    requires IsSquare(m, |m|)
  {
    forall i :: 0 <= i < |m| ==> m[i][i] == 1.0
  }

  predicate EntriesInUnitRange(m: seq<seq<real>>)
    requires IsSquare(m, |m|)
  {
    forall i, j :: 0 <= i < |m| && 0 <= j < |m| ==> -1.0 <= m[i][j] <= 1.0
  }

  /** Square, symmetric, with 1.0 on the diagonal and every entry in [-1, 1]. */
  predicate IsCorrelationMatrix(m: seq<seq<real>>) {
    IsSquare(m, |m|) && Symmetric(m) && UnitDiagonal(m) && EntriesInUnitRange(m)
  }
}
