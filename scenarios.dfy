/**
 * The two strata of the Bounder.py demo driver (female and male) and the
 * boundary cases of the bounds, worked through the model with exact reals.
 */
module Scenarios {
  import opened Wrappers
  import opened Stochastic
  import opened PnsBounds

  /** The demo's female stratum, no assumptions: the neither-flag regime. */
  method FemaleScenario() returns (r: Pns3Bds)
    ensures r == Pns3Bds(Bds(0.27, 0.279), Bds(1.0, 1.0), Bds(0.9, 1.0))
  {
    var f := new Bounder(Mat2(0.3, 0.73, 0.7, 0.27), Vec2(0.3, 0.7), Some(Mat2(0.79, 0.52, 0.21, 0.48)),
      false, false, false);
    assert f.o11 == 0.189 && f.o00 == 0.09;
    r := f.GetPns3Bds();
  }

  /** The demo's male stratum, no assumptions. */
  method MaleScenario() returns (r: Pns3Bds)
    ensures r == Pns3Bds(Bds(0.49, 0.49), Bds(1.0, 1.0), Bds(0.0, 0.0))
  {
    var m := new Bounder(Mat2(0.3, 0.3, 0.7, 0.7), Vec2(0.3, 0.7), Some(Mat2(0.79, 0.51, 0.21, 0.49)),
      false, false, false);
    r := m.GetPns3Bds();
  }

  /** Under monotonicity the female bounds collapse to E_{*|*} - 1, (E_{0|0} - P(y=0))/o11 and (E_{1|1} - P(y=1))/o00. */
  method FemaleMonotoneScenario() returns (r: Pns3Bds)
    ensures r == Pns3Bds(Point(0.27), Point(1.0), Point(0.9))
  {
    var f := new Bounder(Mat2(0.3, 0.73, 0.7, 0.27), Vec2(0.3, 0.7), Some(Mat2(0.79, 0.52, 0.21, 0.48)),
      true, false, false);
    r := f.GetPns3Bds();
  }

  /** Strong exogeneity switches exogeneity on; PN and PS become PNS's lower bound over O_{1|1} and O_{0|0}. */
  method FemaleStrongExoScenario() returns (r: Pns3Bds, exo: bool)
    ensures exo
    ensures r == Pns3Bds(Bds(0.0, 0.27), Point(0.0), Point(0.0))
  {
    var f := new Bounder(Mat2(0.3, 0.73, 0.7, 0.27), Vec2(0.3, 0.7), Some(Mat2(0.79, 0.52, 0.21, 0.48)),
      false, false, true);
    exo := f.exogeneity;
    r := f.GetPns3Bds();
  }

  /** Exogeneity alone on the female stratum: the observational conditionals bound all three rows. */
  method FemaleExoScenario() returns (r: Pns3Bds)
    ensures r == Pns3Bds(Bds(0.0, 0.27), Bds(0.0, 1.0), Bds(0.0, 0.9))
  {
    var f := new Bounder(Mat2(0.3, 0.73, 0.7, 0.27), Vec2(0.3, 0.7), Some(Mat2(0.79, 0.52, 0.21, 0.48)),
      false, true, false);
    r := f.GetPns3Bds();
  }

  /** Uniform observations and no experimental data: PNS in [0, 1/2], PN and PS unconstrained. */
  method UniformObservationalScenario() returns (r: Pns3Bds)
    ensures r == Pns3Bds(Bds(0.0, 0.5), Bds(0.0, 1.0), Bds(0.0, 1.0))
  {
    var u := new Bounder(Mat2(0.5, 0.5, 0.5, 0.5), Vec2(0.5, 0.5), None, false, false, false);
    r := u.GetPns3Bds();
  }

  /** With o11 = 0 the PN row is the whole of [0,1], whatever E_{y|x} is. */
  method ZeroJointCellScenario(e: Mat2) returns (r: Pns3Bds)
    requires CheckTransMatrix(e) == Pass
    ensures r.pn == Bds(0.0, 1.0)
  {
    var z := new Bounder(Mat2(0.5, 1.0, 0.5, 0.0), Vec2(0.5, 0.5), Some(e), false, false, false);
    r := z.GetPns3Bds();
  }

  /** The female admissible bounds on E_{y|x}; the female E_{y|x} lies within them. */
  method FemaleExpBoundsScenario() returns (left: Mat2, right: Mat2)
    ensures left == Mat2(0.09, 0.511, 0.21, 0.189) && right == Mat2(0.79, 0.811, 0.91, 0.489)
    ensures Within(Mat2(0.79, 0.52, 0.21, 0.48), ExpBds(left, right))
  {
    var f := new Bounder(Mat2(0.3, 0.73, 0.7, 0.27), Vec2(0.3, 0.7), Some(Mat2(0.79, 0.52, 0.21, 0.48)),
      false, false, false);
    var l, u := f.GetExpProbsBds();
    left, right := AsMat2(l), AsMat2(u);
  }

  /**
   * The demo's two strata admit no common E_{y|x}: in cell [0,1] the female lower
   * bound 0.511 exceeds the male upper bound 0.51, so the merge is None.
   */
  method JointDemoScenario() returns (r: Option<ExpBds>)
    ensures r.None?
  {
    var f := new Bounder(Mat2(0.3, 0.73, 0.7, 0.27), Vec2(0.3, 0.7), Some(Mat2(0.79, 0.52, 0.21, 0.48)),
      false, false, false);
    var m := new Bounder(Mat2(0.3, 0.3, 0.7, 0.7), Vec2(0.3, 0.7), Some(Mat2(0.79, 0.51, 0.21, 0.49)),
      false, false, false);
    r := Bounder.GetJointExpProbsBds(m, f);
  }

  /** A failed matrix check in set_obs_probs leaves the new P(x) beside the old O_{y|x}. */
  method PartialObsUpdateScenario() returns (r: Outcome<CheckError>, px: Vec2, o: Mat2)
    ensures r == Fail(ColumnSumOff(0))
    ensures px == Vec2(0.6, 0.4) && o == Mat2(0.5, 0.5, 0.5, 0.5)
  {
    var u := new Bounder(Mat2(0.5, 0.5, 0.5, 0.5), Vec2(0.5, 0.5), None, false, false, false);
    r := u.SetObsProbs(Mat2(0.5, 0.5, 0.6, 0.5), Vec2(0.6, 0.4));
    px, o := u.px, u.oYBarX;
  }
}
