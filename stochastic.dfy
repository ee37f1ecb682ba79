/**
 * Probability vectors and 2x2 column-stochastic matrices, with the validation
 * tests that Bounder.check_2d_trans_matrix and Bounder.check_prob_vec apply.
 * Each failing Python `assert` becomes a `Fail` carrying which test failed,
 * reported in the order the source evaluates its asserts.
 */
module Stochastic {
  import opened Wrappers

  /** The tolerance 1e-5 on column (and vector) sums. */
  const Tol: real := 0.00001

  /** A 2x2 matrix, `mRC` being row R and column C; for O_{y|x} and E_{y|x} the row is y, the column x. */
  datatype Mat2 = Mat2(m00: real, m01: real, m10: real, m11: real) {
    function At(row: nat, col: nat): real
      requires row < 2 && col < 2
    {
      if row == 0 then (if col == 0 then m00 else m01) else (if col == 0 then m10 else m11)
    }

    function ColumnSum(col: nat): real
      requires col < 2
    {
      At(0, col) + At(1, col)
    }
  }

  /** A vector of two entries, such as P(x) = (P(x=0), P(x=1)). */
  datatype Vec2 = Vec2(v0: real, v1: real) {
    function At(i: nat): real
      requires i < 2
    {
      if i == 0 then v0 else v1
    }
  }

  /** Which assert of a validation failed. */
  datatype CheckError = NegativeEntry | EntryAboveOne | ColumnSumOff(col: nat) | SumOff

  /** `abs(s - 1) < 1e-5`. */
  predicate NearOne(s: real) {
    -Tol < s - 1.0 < Tol
  }

  /** Reference definition: every entry in [0,1] and every column summing to 1 within the tolerance. */
  ghost predicate IsTransMatrix(m: Mat2) {
    && (forall i: nat, j: nat | i < 2 && j < 2 :: 0.0 <= m.At(i, j) <= 1.0)
    && (forall j: nat | j < 2 :: NearOne(m.ColumnSum(j)))
  }

  /** Reference definition: both entries in [0,1] and their sum 1 within the tolerance. */
  ghost predicate IsProbVec(v: Vec2) {
    && (forall i: nat | i < 2 :: 0.0 <= v.At(i) <= 1.0)
    && NearOne(v.At(0) + v.At(1))
  }

  /** A transition matrix whose columns sum to exactly 1 (no tolerance). */
  ghost predicate ExactlyStochastic(m: Mat2) {
    && (forall i: nat, j: nat | i < 2 && j < 2 :: 0.0 <= m.At(i, j) <= 1.0)
    && (forall j: nat | j < 2 :: m.ColumnSum(j) == 1.0)
  }

  /** A probability vector whose entries sum to exactly 1. */
  ghost predicate ExactProbVec(v: Vec2) {
    0.0 <= v.v0 && 0.0 <= v.v1 && v.v0 + v.v1 == 1.0
  }

  /**
   * check_2d_trans_matrix: the asserts run in order (no entry below 0, no entry
   * above 1, column 0 near 1, column 1 near 1) and the first that fails is reported.
   */
  function CheckTransMatrix(m: Mat2): (r: Outcome<CheckError>)
    ensures r == Pass <==> IsTransMatrix(m)
    ensures r.Fail? ==> r.error != SumOff
  {
    if !(0.0 <= m.m00 && 0.0 <= m.m01 && 0.0 <= m.m10 && 0.0 <= m.m11) then
      assert m.At(0, 0) < 0.0 || m.At(0, 1) < 0.0 || m.At(1, 0) < 0.0 || m.At(1, 1) < 0.0;
      Fail(NegativeEntry)
    else if !(m.m00 <= 1.0 && m.m01 <= 1.0 && m.m10 <= 1.0 && m.m11 <= 1.0) then
      assert m.At(0, 0) > 1.0 || m.At(0, 1) > 1.0 || m.At(1, 0) > 1.0 || m.At(1, 1) > 1.0;
      Fail(EntryAboveOne)
    else if !NearOne(m.m00 + m.m10) then
      assert m.ColumnSum(0) == m.m00 + m.m10;
      Fail(ColumnSumOff(0))
    else if !NearOne(m.m01 + m.m11) then
      assert m.ColumnSum(1) == m.m01 + m.m11;
      Fail(ColumnSumOff(1))
    else
      Pass
  }

  /** check_prob_vec: no entry below 0, no entry above 1, sum near 1, in that order. */
  function CheckProbVec(v: Vec2): (r: Outcome<CheckError>)
    ensures r == Pass <==> IsProbVec(v)
    ensures r.Fail? ==> !r.error.ColumnSumOff?
  {
    if !(0.0 <= v.v0 && 0.0 <= v.v1) then
      Fail(NegativeEntry)
    else if !(v.v0 <= 1.0 && v.v1 <= 1.0) then
      Fail(EntryAboveOne)
    else if !NearOne(v.v0 + v.v1) then
      Fail(SumOff)
    else
      Pass
  }

  /** The matrix test reports the first of its asserts that fails, in the source's order. */
  lemma CheckTransMatrixFirstFailure(m: Mat2)
    ensures CheckTransMatrix(m) == Fail(NegativeEntry) <==>
      exists i: nat, j: nat | i < 2 && j < 2 :: m.At(i, j) < 0.0
    ensures CheckTransMatrix(m) == Fail(EntryAboveOne) <==>
      (forall i: nat, j: nat | i < 2 && j < 2 :: 0.0 <= m.At(i, j)) &&
      (exists i: nat, j: nat | i < 2 && j < 2 :: m.At(i, j) > 1.0)
    ensures CheckTransMatrix(m) == Fail(ColumnSumOff(0)) <==>
      (forall i: nat, j: nat | i < 2 && j < 2 :: 0.0 <= m.At(i, j) <= 1.0) && !NearOne(m.ColumnSum(0))
    ensures CheckTransMatrix(m) == Fail(ColumnSumOff(1)) <==>
      (forall i: nat, j: nat | i < 2 && j < 2 :: 0.0 <= m.At(i, j) <= 1.0) &&
      NearOne(m.ColumnSum(0)) && !NearOne(m.ColumnSum(1))
  {
    assert m.At(0, 0) == m.m00 && m.At(0, 1) == m.m01 && m.At(1, 0) == m.m10 && m.At(1, 1) == m.m11;
    assert m.ColumnSum(0) == m.m00 + m.m10 && m.ColumnSum(1) == m.m01 + m.m11;
  }

  /** The vector test reports the first of its asserts that fails, in the source's order. */
  lemma CheckProbVecFirstFailure(v: Vec2)
    ensures CheckProbVec(v) == Fail(NegativeEntry) <==> exists i: nat | i < 2 :: v.At(i) < 0.0
    ensures CheckProbVec(v) == Fail(EntryAboveOne) <==>
      (forall i: nat | i < 2 :: 0.0 <= v.At(i)) && (exists i: nat | i < 2 :: v.At(i) > 1.0)
    ensures CheckProbVec(v) == Fail(SumOff) <==>
      (forall i: nat | i < 2 :: 0.0 <= v.At(i) <= 1.0) && !NearOne(v.v0 + v.v1)
  {
    assert v.At(0) == v.v0 && v.At(1) == v.v1;
  }

  /**
   * The vector test is the matrix test applied to a matrix whose two columns are
   * both the vector: same verdict, the same error, with the sum error reported as
   * the first column's.
   */
  lemma ProbVecIsColumnTest(v: Vec2)
    ensures var r := CheckTransMatrix(Mat2(v.v0, v.v0, v.v1, v.v1));
      && (CheckProbVec(v) == Pass <==> r == Pass)
      && (CheckProbVec(v) == Fail(NegativeEntry) <==> r == Fail(NegativeEntry))
      && (CheckProbVec(v) == Fail(EntryAboveOne) <==> r == Fail(EntryAboveOne))
      && (CheckProbVec(v) == Fail(SumOff) <==> r == Fail(ColumnSumOff(0)))
  {
  }

  /** An exactly stochastic matrix passes the matrix test. */
  lemma ExactMatrixPasses(m: Mat2)
    requires ExactlyStochastic(m)
    ensures CheckTransMatrix(m) == Pass
  {
    assert m.ColumnSum(0) == 1.0 && m.ColumnSum(1) == 1.0;
  }

  /** An exact probability vector passes the vector test. */
  lemma ExactProbVecPasses(v: Vec2)
    requires ExactProbVec(v)
    ensures CheckProbVec(v) == Pass
  {
  }

  /** The tolerance admits columns that are off by less than 1e-5, so it is not exact stochasticity. */
  lemma ToleranceAdmitsInexact()
    ensures CheckTransMatrix(Mat2(0.5, 0.5, 0.500009, 0.5)) == Pass
    ensures !ExactlyStochastic(Mat2(0.5, 0.5, 0.500009, 0.5))
    ensures CheckTransMatrix(Mat2(0.5, 0.5, 0.50001, 0.5)) == Fail(ColumnSumOff(0))
  {
    assert Mat2(0.5, 0.5, 0.500009, 0.5).ColumnSum(0) != 1.0;
  }
}
