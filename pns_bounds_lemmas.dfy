/**
 * Properties of the Bounder that relate several of its operations: the derived
 * distributions are distributions, the admissible E_{y|x} bounds are proper
 * intervals, the PNS3 bounds are proper intervals when E_{y|x} is admissible, and
 * the cross-stratum merge is the intersection of the two strata's bounds.
 */
module PnsBoundsLemmas {
  import opened Wrappers
  import opened Stochastic
  import opened PnsBounds

  /** Inputs for which the probability identities hold exactly (no 1e-5 slack). */
  ghost predicate ExactObs(b: Bounder)
    reads b
  {
    b.ObsCached() && ExactProbVec(b.px) && ExactlyStochastic(b.oYBarX)
  }

  /** With exact inputs the four joint cells form a distribution over (x, y). */
  lemma JointIsDistribution(b: Bounder)
    requires ExactObs(b)
    ensures 0.0 <= b.o00 && 0.0 <= b.o01 && 0.0 <= b.o10 && 0.0 <= b.o11
    ensures b.o00 + b.o01 + b.o10 + b.o11 == 1.0
    ensures b.o00 + b.o01 == b.px.v0 && b.o10 + b.o11 == b.px.v1
  {
    var o, p := b.oYBarX, b.px;
    assert o.ColumnSum(0) == 1.0 && o.ColumnSum(1) == 1.0;
    assert 0.0 <= o.At(0, 0) && 0.0 <= o.At(0, 1) && 0.0 <= o.At(1, 0) && 0.0 <= o.At(1, 1);
    assert 0.0 <= o.m00 * p.v0 && 0.0 <= o.m10 * p.v0 && 0.0 <= o.m01 * p.v1 && 0.0 <= o.m11 * p.v1;
    calc {
      b.o00 + b.o01;
      o.m00 * p.v0 + o.m10 * p.v0;
      (o.m00 + o.m10) * p.v0;
      p.v0;
    }
    calc {
      b.o10 + b.o11;
      o.m01 * p.v1 + o.m11 * p.v1;
      (o.m01 + o.m11) * p.v1;
      p.v1;
    }
  }

  /** With exact inputs get_py returns a distribution over y. */
  lemma PyIsDistribution(b: Bounder)
    requires ExactObs(b)
    ensures var (py0, py1) := b.GetPy(); 0.0 <= py0 <= 1.0 && 0.0 <= py1 <= 1.0 && py0 + py1 == 1.0
  {
    JointIsDistribution(b);
  }

  /** With exact inputs every cell of the admissible E_{y|x} bounds is a proper interval, with or without monotonicity. */
  lemma ExpBdsProper(b: Bounder, mono: bool)
    requires ExactObs(b)
    ensures NonEmpty(b.ExpProbsBds(mono))
    ensures var r := b.ExpProbsBds(mono);
      forall i: nat, j: nat | i < 2 && j < 2 :: 0.0 <= r.left.At(i, j) <= r.right.At(i, j) <= 1.0
  {
    JointIsDistribution(b);
  }

  /** Under monotonicity the complement rule holds too, once P(y) sums to exactly 1. */
  lemma MonoExpBdsComplementary(b: Bounder)
    requires ExactObs(b)
    ensures Complementary(b.ExpProbsBds(true))
  {
    JointIsDistribution(b);
    var r := b.ExpProbsBds(true);
    assert r.left.At(0, 0) == 1.0 - r.right.At(1, 0) && r.right.At(0, 0) == 1.0 - r.left.At(1, 0);
    assert r.left.At(0, 1) == 1.0 - r.right.At(1, 1) && r.right.At(0, 1) == 1.0 - r.left.At(1, 1);
  }

  /** Monotonicity only narrows the admissible E_{y|x} bounds. */
  lemma MonotonicityNarrowsExpBds(b: Bounder)
    requires ExactObs(b)
    ensures var mono, plain := b.ExpProbsBds(true), b.ExpProbsBds(false);
      forall i: nat, j: nat | i < 2 && j < 2 ::
        plain.left.At(i, j) <= mono.left.At(i, j) && mono.right.At(i, j) <= plain.right.At(i, j)
  {
    JointIsDistribution(b);
  }

  /**
   * The PNS3 bounds are proper intervals (lower <= upper in every row) when the
   * inputs are exact and E_{y|x} lies within the admissible bounds.
   */
  lemma Pns3ProperWhenConsistent(b: Bounder)
    requires ExactObs(b) && b.ExpCached()
    requires b.eYBarX.Some? && ExactlyStochastic(b.eYBarX.value)
    requires Within(b.eYBarX.value, b.ExpProbsBds(b.monotonicity))
    ensures var r := b.GetPns3Bds(); r.pns.lo <= r.pns.hi && r.pn.lo <= r.pn.hi && r.ps.lo <= r.ps.hi
  {
    JointIsDistribution(b);
    var r := b.RegimeBds();
    if !b.exogeneity && !b.monotonicity {
      NeitherProper(b);
    } else if b.exogeneity && !b.monotonicity {
      ExoProper(b);
    }
  }

  /** The neither-flag regime yields proper intervals for admissible E_{y|x}. */
  lemma NeitherProper(b: Bounder)
    requires ExactObs(b) && b.ExpCached()
    requires b.eYBarX.Some? && Within(b.eYBarX.value, b.ExpProbsBds(false))
    ensures var r := b.NeitherBds(); r.pns.lo <= r.pns.hi && r.pn.lo <= r.pn.hi && r.ps.lo <= r.ps.hi
  {
    JointIsDistribution(b);
    var e, bds := b.eYBarX.value, b.ExpProbsBds(false);
    assert bds.left.At(0, 0) <= e.At(0, 0) <= bds.right.At(0, 0);
    assert bds.left.At(1, 1) <= e.At(1, 1) <= bds.right.At(1, 1);
    NeitherPnsRowProper(b, e.m00, e.m11);
    NeitherRatioRowsProper(b, e.m00, e.m11);
  }

  /** The PNS row of the neither-flag regime, once E_{0|0} and E_{1|1} are known to be admissible. */
  lemma NeitherPnsRowProper(b: Bounder, e00: real, e11: real)
    requires b.e0b0 == Some(e00) && b.e1b1 == Some(e11)
    requires 0.0 <= b.o00 && 0.0 <= b.o01 && 0.0 <= b.o10 && 0.0 <= b.o11
    requires b.o00 + b.o01 + b.o10 + b.o11 == 1.0
    requires b.o00 <= e00 <= 1.0 - b.o01 && b.o11 <= e11 <= 1.0 - b.o10
    ensures b.NeitherBds().pns.lo <= b.NeitherBds().pns.hi
  {
    var py0, py1 := b.o00 + b.o10, b.o01 + b.o11;
    assert b.GetPy() == (py0, py1);
    assert b.NeitherBds().pns == Bds(Max4(0.0, e00 + e11 - 1.0, e00 - py0, e11 - py1),
                                     Min4(e11, e00, b.o00 + b.o11, e00 + e11 - (b.o00 + b.o11)));
    PnsRowProper(b.o00, b.o01, b.o10, b.o11, e00, e11);
  }

  /** The PN and PS rows of the neither-flag regime, once E_{0|0} and E_{1|1} are known to be admissible. */
  lemma NeitherRatioRowsProper(b: Bounder, e00: real, e11: real)
    requires b.e0b0 == Some(e00) && b.e1b1 == Some(e11)
    requires 0.0 <= b.o00 && 0.0 <= b.o01 && 0.0 <= b.o10 && 0.0 <= b.o11
    requires b.o00 + b.o01 + b.o10 + b.o11 == 1.0
    requires b.o00 <= e00 <= 1.0 - b.o01 && b.o11 <= e11 <= 1.0 - b.o10
    ensures var r := b.NeitherBds(); r.pn.lo <= r.pn.hi && r.ps.lo <= r.ps.hi
  {
    var r := b.NeitherBds();
    var py0, py1 := b.o00 + b.o10, b.o01 + b.o11;
    assert b.GetPy() == (py0, py1);
    if b.o11 > 0.0 {
      assert r.pn == RatioRow(e00 - py0, e00 - b.o00, b.o11);
      RatioRowProper(e00 - py0, e00 - b.o00, b.o11);
    }
    if b.o00 > 0.0 {
      assert r.ps == RatioRow(e11 - py1, e11 - b.o11, b.o00);
      RatioRowProper(e11 - py1, e11 - b.o11, b.o00);
    }
  }

  /** The exogeneity-only regime yields proper intervals for exact observational inputs. */
  lemma ExoProper(b: Bounder)
    requires ExactObs(b)
    ensures var r := b.ExoBds(); r.pns.lo <= r.pns.hi && r.pn.lo <= r.pn.hi && r.ps.lo <= r.ps.hi
  {
    var o := b.oYBarX;
    assert o.ColumnSum(0) == 1.0 && o.ColumnSum(1) == 1.0;
    assert 0.0 <= o.At(0, 0) <= 1.0 && 0.0 <= o.At(0, 1) <= 1.0 && 0.0 <= o.At(1, 0) <= 1.0 && 0.0 <= o.At(1, 1) <= 1.0;
    var r := b.ExoBds();
    if b.o1b1 > 0.0 {
      assert r.pn == RatioRow(b.o1b1 - b.o1b0, b.o0b0, b.o1b1);
      RatioRowProper(b.o1b1 - b.o1b0, b.o0b0, b.o1b1);
    }
    if b.o0b0 > 0.0 {
      assert r.ps == RatioRow(b.o0b0 - b.o0b1, b.o1b1, b.o0b0);
      RatioRowProper(b.o0b0 - b.o0b1, b.o1b1, b.o0b0);
    }
  }

  /**
   * The PNS row of the neither-flag regime, on a joint distribution (o00, o01,
   * o10, o11) and E_{0|0}, E_{1|1} inside their admissible intervals.
   */
  lemma PnsRowProper(o00: real, o01: real, o10: real, o11: real, e00: real, e11: real)
    requires 0.0 <= o00 && 0.0 <= o01 && 0.0 <= o10 && 0.0 <= o11 && o00 + o01 + o10 + o11 == 1.0
    requires o00 <= e00 <= 1.0 - o01 && o11 <= e11 <= 1.0 - o10
    ensures Max4(0.0, e00 + e11 - 1.0, e00 - (o00 + o10), e11 - (o01 + o11))
         <= Min4(e11, e00, o00 + o11, e00 + e11 - (o00 + o11))
  {
  }

  /** A row [max(0, lo/d), min(1, hi/d)] is proper when lo <= hi, lo <= d and 0 <= hi. */
  lemma RatioRowProper(lo: real, hi: real, d: real)
    requires d > 0.0 && lo <= hi && lo <= d && 0.0 <= hi
    ensures RatioRow(lo, hi, d).lo <= RatioRow(lo, hi, d).hi
  {
    assert lo / d <= hi / d && lo / d <= 1.0 && 0.0 <= hi / d;
  }

  /**
   * Without the admissibility of E_{y|x} the PNS row can come out empty: for
   * uniform observations and E_{0|0} = 0, E_{1|1} = 1, the lower bound 1/2
   * exceeds the upper bound 0.
   */
  lemma Pns3InvertsForInadmissibleExp(b: Bounder)
    requires b.ObsCached() && b.ExpCached()
    requires b.oYBarX == Mat2(0.5, 0.5, 0.5, 0.5) && b.px == Vec2(0.5, 0.5)
    requires b.eYBarX == Some(Mat2(0.0, 0.0, 1.0, 1.0))
    requires !b.exogeneity && !b.monotonicity && !b.strongExo
    ensures CheckTransMatrix(b.eYBarX.value) == Pass
    ensures !Within(b.eYBarX.value, b.ExpProbsBds(false))
    ensures b.GetPns3Bds().pns == Bds(0.5, 0.0)
  {
    assert b.ExpProbsBds(false).left.At(0, 0) == 0.25;
    assert IsTransMatrix(b.eYBarX.value);
  }

  /** Matrix `e` satisfies both strata's bounds. */
  ghost predicate WithinBoth(e: Mat2, m: Bounder, f: Bounder)
    reads m, f
  {
    Within(e, m.ExpProbsBds(m.monotonicity)) && Within(e, f.ExpProbsBds(f.monotonicity))
  }

  /**
   * The merge is the intersection of the two strata's admissible sets: a matrix
   * lies within the merged bounds exactly when it lies within both, and the merge
   * is None exactly when it would be empty in some cell.
   */
  lemma JointIsIntersection(m: Bounder, f: Bounder, e: Mat2)
    ensures var r := Bounder.GetJointExpProbsBds(m, f);
      (r.Some? && Within(e, r.value)) <==> WithinBoth(e, m, f)
  {
    var bm, bf := m.ExpProbsBds(m.monotonicity), f.ExpProbsBds(f.monotonicity);
    var merged := ExpBds(MaxCells(bm.left, bf.left), MinCells(bm.right, bf.right));
    WithinByCells(e, bm);
    WithinByCells(e, bf);
    WithinByCells(e, merged);
  }

  /** `Within` spelled out cell by cell. */
  lemma WithinByCells(e: Mat2, b: ExpBds)
    ensures Within(e, b) <==>
      && b.left.m00 <= e.m00 <= b.right.m00 && b.left.m01 <= e.m01 <= b.right.m01
      && b.left.m10 <= e.m10 <= b.right.m10 && b.left.m11 <= e.m11 <= b.right.m11
  {
    if !Within(e, b) {
      var i: nat, j: nat :| i < 2 && j < 2 && !(b.left.At(i, j) <= e.At(i, j) <= b.right.At(i, j));
    } else {
      assert b.left.At(0, 0) <= e.At(0, 0) <= b.right.At(0, 0) && b.left.At(0, 1) <= e.At(0, 1) <= b.right.At(0, 1);
      assert b.left.At(1, 0) <= e.At(1, 0) <= b.right.At(1, 0) && b.left.At(1, 1) <= e.At(1, 1) <= b.right.At(1, 1);
    }
  }

  /** No matrix satisfies both strata exactly when the merge reports None. */
  lemma JointNoneIffDisjoint(m: Bounder, f: Bounder)
    ensures Bounder.GetJointExpProbsBds(m, f).None? <==> forall e: Mat2 :: !WithinBoth(e, m, f)
  {
    var r := Bounder.GetJointExpProbsBds(m, f);
    if r.Some? {
      var e := r.value.left;
      assert Within(e, r.value);
      JointIsIntersection(m, f, e);
    } else {
      forall e: Mat2 ensures !WithinBoth(e, m, f) {
        JointIsIntersection(m, f, e);
      }
    }
  }

  /** Merging a stratum with itself returns its own bounds, or None when those are empty. */
  lemma JointWithSelf(b: Bounder)
    ensures var own := b.ExpProbsBds(b.monotonicity);
      Bounder.GetJointExpProbsBds(b, b) == if NonEmpty(own) then Some(own) else None
  {
  }

  /** The merge does not depend on the order of the strata. */
  lemma JointSymmetric(m: Bounder, f: Bounder)
    ensures Bounder.GetJointExpProbsBds(m, f) == Bounder.GetJointExpProbsBds(f, m)
  {
  }
}
