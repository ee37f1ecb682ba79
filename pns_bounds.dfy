/**
 * The Bounder of Bounder.py: Tian-Pearl bounds on the probabilities of causation
 * PNS, PN and PS (together "PNS3") for a binary treatment x and a binary outcome y,
 * from observational data O_{y|x}, P(x) and optional experimental data E_{y|x}.
 */
module PnsBounds {
  import opened Wrappers
  import opened Stochastic

  /** A [lower, upper] pair: one row of the 3x2 PNS3 result. */
  datatype Bds = Bds(lo: real, hi: real) {
    predicate IsPoint() { lo == hi }
  }

  /** The degenerate interval [x, x]. */
  function Point(x: real): Bds { Bds(x, x) }

  /** The source's 3x2 array: rows PNS, PN, PS. */
  datatype Pns3Bds = Pns3Bds(pns: Bds, pn: Bds, ps: Bds)

  /** Elementwise lower and upper bounds on E_{y|x}. */
  datatype ExpBds = ExpBds(left: Mat2, right: Mat2)

  function Max(a: real, b: real): real { if a >= b then a else b }

  function Min(a: real, b: real): real { if a <= b then a else b }

  /** Python's max(a, b, c, d): an upper bound of the four that is one of them. */
  function Max4(a: real, b: real, c: real, d: real): (r: real)
    ensures r >= a && r >= b && r >= c && r >= d
    ensures r == a || r == b || r == c || r == d
  {
    Max(Max(Max(a, b), c), d)
  }

  /** Python's min(a, b, c, d): a lower bound of the four that is one of them. */
  function Min4(a: real, b: real, c: real, d: real): (r: real)
    ensures r <= a && r <= b && r <= c && r <= d
    ensures r == a || r == b || r == c || r == d
  {
    Min(Min(Min(a, b), c), d)
  }

  /**
   * `row` is [max(0, a/d), min(1, c/d)] for a positive d, said without division:
   * its lower end is the larger of 0 and the solution of lo * d == a, its upper
   * end the smaller of 1 and the solution of hi * d == c.
   */
  predicate IsRatioRow(row: Bds, a: real, c: real, d: real) {
    && 0.0 <= row.lo && row.lo * d >= a && (row.lo == 0.0 || row.lo * d == a)
    && row.hi <= 1.0 && row.hi * d <= c && (row.hi == 1.0 || row.hi * d == c)
  }

  /** The PN or PS row [max(0, a/d), min(1, c/d)] of the two non-monotone regimes. */
  function RatioRow(a: real, c: real, d: real): (r: Bds)
    requires d > 0.0
    ensures IsRatioRow(r, a, c, d)
  {
    assert a / d * d == a && c / d * d == c;
    Bds(Max(0.0, a / d), Min(1.0, c / d))
  }

  /** Elementwise maximum of two matrices (numpy.maximum). */
  function MaxCells(a: Mat2, b: Mat2): Mat2 {
    Mat2(Max(a.m00, b.m00), Max(a.m01, b.m01), Max(a.m10, b.m10), Max(a.m11, b.m11))
  }

  /** Elementwise minimum of two matrices (numpy.minimum). */
  function MinCells(a: Mat2, b: Mat2): Mat2 {
    Mat2(Min(a.m00, b.m00), Min(a.m01, b.m01), Min(a.m10, b.m10), Min(a.m11, b.m11))
  }

  /** `(right - left >= 0).all()`: no cell of the bounds is empty. */
  predicate NonEmpty(b: ExpBds) {
    && b.right.m00 - b.left.m00 >= 0.0
    && b.right.m01 - b.left.m01 >= 0.0
    && b.right.m10 - b.left.m10 >= 0.0
    && b.right.m11 - b.left.m11 >= 0.0
  }

  /** Matrix `e` lies cell by cell within the bounds `b`. */
  ghost predicate Within(e: Mat2, b: ExpBds) {
    forall i: nat, j: nat | i < 2 && j < 2 :: b.left.At(i, j) <= e.At(i, j) <= b.right.At(i, j)
  }

  /** Without monotonicity the 0-row bounds are the complements of the 1-row bounds. */
  ghost predicate Complementary(b: ExpBds) {
    forall j: nat | j < 2 ::
      b.left.At(0, j) == 1.0 - b.right.At(1, j) && b.right.At(0, j) == 1.0 - b.left.At(1, j)
  }

  class Bounder {
    /** P(x) and its cached entries. */
    var px: Vec2
    var px0: real
    var px1: real
    /** O_{y|x}, its cached conditional cells o<y>b<x>, and the joint cells. */
    var oYBarX: Mat2
    var o0b0: real
    var o0b1: real
    var o1b0: real
    var o1b1: real
    var o00: real
    var o01: real
    var o10: real
    var o11: real
    /** E_{y|x} when present, and its cached cells (None until it is set). */
    var eYBarX: Option<Mat2>
    var e0b0: Option<real>
    var e0b1: Option<real>
    var e1b0: Option<real>
    var e1b1: Option<real>
    /** The assumption flags; callers may overwrite them directly. */
    var exogeneity: bool
    var monotonicity: bool
    var strongExo: bool

    /**
     * The cached observational cells agree with O_{y|x} and P(x). The joint cells
     * swap indices: o01 is built from O[1,0] and o10 from O[0,1].
     */
    ghost predicate ObsCached()
      reads this`px, this`px0, this`px1, this`oYBarX, this`o0b0, this`o0b1, this`o1b0, this`o1b1
      reads this`o00, this`o01, this`o10, this`o11
    {
      && px0 == px.v0 && px1 == px.v1
      && o0b0 == oYBarX.m00 && o0b1 == oYBarX.m01 && o1b0 == oYBarX.m10 && o1b1 == oYBarX.m11
      && JointCells(oYBarX, px) == Mat2(o00, o01, o10, o11)
    }

    /** The cached experimental cells agree with E_{y|x}, and are all None when it is absent. */
    ghost predicate ExpCached()
      reads this`eYBarX, this`e0b0, this`e0b1, this`e1b0, this`e1b1
    {
      match eYBarX
      case None => e0b0.None? && e0b1.None? && e1b0.None? && e1b1.None?
      case Some(e) => e0b0 == Some(e.m00) && e0b1 == Some(e.m01) && e1b0 == Some(e.m10) && e1b1 == Some(e.m11)
    }

    /** Caches consistent and every stored input validated. */
    ghost predicate Valid()
      reads this`px, this`px0, this`px1, this`oYBarX, this`o0b0, this`o0b1, this`o1b0, this`o1b1
      reads this`o00, this`o01, this`o10, this`o11
      reads this`eYBarX, this`e0b0, this`e0b1, this`e1b0, this`e1b1
    {
      && ObsCached() && ExpCached()
      && CheckProbVec(px) == Pass && CheckTransMatrix(oYBarX) == Pass
      && (eYBarX.Some? ==> CheckTransMatrix(eYBarX.value) == Pass)
    }

    /**
     * __init__: P(x) and O_{y|x} must pass validation (otherwise Python raises and
     * no object exists), and so must E_{y|x} when given. Strong exogeneity forces
     * exogeneity.
     */
    constructor (o: Mat2, p: Vec2, e: Option<Mat2>, monotonicity: bool, exogeneity: bool, strongExo: bool)
      requires CheckProbVec(p) == Pass && CheckTransMatrix(o) == Pass
      requires e.Some? ==> CheckTransMatrix(e.value) == Pass
      ensures Valid()
      ensures px == p && oYBarX == o && eYBarX == e
      ensures this.monotonicity == monotonicity && this.strongExo == strongExo
      ensures this.exogeneity == (exogeneity || strongExo)
    {
      px := p;
      px0 := p.v0;
      px1 := p.v1;
      oYBarX := o;
      o0b0 := o.m00;
      o0b1 := o.m01;
      o1b0 := o.m10;
      o1b1 := o.m11;
      var joint := JointCells(o, p);
      o00 := joint.m00;
      o01 := joint.m01;
      o10 := joint.m10;
      o11 := joint.m11;
      // set_exp_probs, whose check the precondition already guarantees
      eYBarX := e;
      e0b0 := if e.Some? then Some(e.value.m00) else None;
      e0b1 := if e.Some? then Some(e.value.m01) else None;
      e1b0 := if e.Some? then Some(e.value.m10) else None;
      e1b1 := if e.Some? then Some(e.value.m11) else None;
      this.exogeneity := exogeneity;
      this.monotonicity := monotonicity;
      this.strongExo := strongExo;
      if strongExo {
        this.exogeneity := true;
      }
    }

    /**
     * set_obs_probs: P(x) is checked and written first, then O_{y|x} is checked and
     * written. A failing matrix check therefore leaves the new P(x) in place beside
     * the old O_{y|x} and the old joint cells.
     */
    method SetObsProbs(o: Mat2, p: Vec2) returns (r: Outcome<CheckError>)
      modifies this`px, this`px0, this`px1, this`oYBarX, this`o0b0, this`o0b1, this`o1b0, this`o1b1
      modifies this`o00, this`o01, this`o10, this`o11
      ensures r == (if CheckProbVec(p).Fail? then CheckProbVec(p) else CheckTransMatrix(o))
      ensures CheckProbVec(p).Fail? ==> unchanged(this)
      ensures CheckProbVec(p) == Pass ==> px == p && px0 == p.v0 && px1 == p.v1
      ensures r == Pass ==> oYBarX == o && ObsCached()
      ensures r.Fail? ==> unchanged(this`oYBarX, this`o0b0, this`o0b1, this`o1b0, this`o1b1)
      ensures r.Fail? ==> unchanged(this`o00, this`o01, this`o10, this`o11)
      ensures unchanged(this`eYBarX, this`e0b0, this`e0b1, this`e1b0, this`e1b1)
      ensures unchanged(this`exogeneity, this`monotonicity, this`strongExo)
      ensures old(Valid()) && r == Pass ==> Valid()
    {
      r := CheckProbVec(p);
      if r.Fail? {
        return;
      }
      WritePx(p);
      r := CheckTransMatrix(o);
      if r.Fail? {
        return;
      }
      WriteObs(o, p);
    }

    /** The P(x) half of an observational update: the vector and its two entries. */
    method WritePx(p: Vec2)
      modifies this`px, this`px0, this`px1
      ensures px == p && px0 == p.v0 && px1 == p.v1
    {
      px := p;
      px0 := p.v0;
      px1 := p.v1;
    }

    /** The O_{y|x} half of an observational update: the matrix, its conditional cells and the joint cells built with `p`. */
    method WriteObs(o: Mat2, p: Vec2)
      modifies this`oYBarX, this`o0b0, this`o0b1, this`o1b0, this`o1b1, this`o00, this`o01, this`o10, this`o11
      ensures oYBarX == o && o0b0 == o.m00 && o0b1 == o.m01 && o1b0 == o.m10 && o1b1 == o.m11
      ensures Mat2(o00, o01, o10, o11) == JointCells(o, p)
    {
      oYBarX := o;
      o0b0 := o.m00;
      o0b1 := o.m01;
      o1b0 := o.m10;
      o1b1 := o.m11;
      var joint := JointCells(o, p);
      o00 := joint.m00;
      o01 := joint.m01;
      o10 := joint.m10;
      o11 := joint.m11;
    }

    /** set_exp_probs: validates E_{y|x}, then replaces it and its cells; nothing else changes. */
    method SetExpProbs(e: Mat2) returns (r: Outcome<CheckError>)
      modifies this`eYBarX, this`e0b0, this`e0b1, this`e1b0, this`e1b1
      ensures r == CheckTransMatrix(e)
      ensures r.Fail? ==> unchanged(this)
      ensures r == Pass ==> eYBarX == Some(e) && ExpCached()
      ensures unchanged(this`px, this`px0, this`px1, this`oYBarX, this`o0b0, this`o0b1, this`o1b0, this`o1b1)
      ensures unchanged(this`o00, this`o01, this`o10, this`o11)
      ensures unchanged(this`exogeneity, this`monotonicity, this`strongExo)
      ensures old(ObsCached()) ==> ObsCached()
      ensures old(Valid()) && r == Pass ==> Valid()
    {
      r := CheckTransMatrix(e);
      if r.Fail? {
        return;
      }
      eYBarX := Some(e);
      e0b0 := Some(e.m00);
      e0b1 := Some(e.m01);
      e1b0 := Some(e.m10);
      e1b1 := Some(e.m11);
    }

    /** get_py: P(y=0), P(y=1) by the law of total probability over x. */
    function GetPy(): (py: (real, real))
      reads this
      ensures ObsCached() ==>
        py.0 == oYBarX.m00 * px.v0 + oYBarX.m01 * px.v1 && py.1 == oYBarX.m10 * px.v0 + oYBarX.m11 * px.v1
    {
      (o00 + o10, o01 + o11)
    }

    /**
     * get_e_star_bar_star: E_{0|0} + E_{1|1}; Python fails on None, so E must be set.
     * For an exactly stochastic E it is 1 plus the experimental risk difference.
     */
    function GetEStarBarStar(): (s: real)
      reads this
      requires e0b0.Some? && e1b1.Some?
      ensures ExpCached() ==> s == eYBarX.value.m00 + eYBarX.value.m11
      ensures ExpCached() && eYBarX.value.ColumnSum(0) == 1.0 ==>
        s - 1.0 == eYBarX.value.m11 - eYBarX.value.m10
    {
      e0b0.value + e1b1.value
    }

    /** get_o_star_bar_star: O_{0|0} + O_{1|1}, 1 plus the observational risk difference when exact. */
    function GetOStarBarStar(): (s: real)
      reads this
      ensures ObsCached() ==> s == oYBarX.m00 + oYBarX.m11
      ensures ObsCached() && oYBarX.ColumnSum(0) == 1.0 ==> s - 1.0 == oYBarX.m11 - oYBarX.m10
    {
      o0b0 + o1b1
    }

    /** get_o_star_star: the joint probability that y == x. */
    function GetOStarStar(): (s: real)
      reads this
      ensures ObsCached() ==> s == oYBarX.m00 * px.v0 + oYBarX.m11 * px.v1
    {
      o00 + o11
    }

    /** The regime with neither exogeneity nor monotonicity (Bounder.py:296-331). */
    function NeitherBds(): (r: Pns3Bds)
      reads this
      requires e0b0.Some? && e1b1.Some?
      ensures 0.0 <= r.pns.lo
      ensures 0.0 <= r.pn.lo && r.pn.hi <= 1.0 && 0.0 <= r.ps.lo && r.ps.hi <= 1.0
      ensures o11 <= 0.0 ==> r.pn == Bds(0.0, 1.0)
      ensures o00 <= 0.0 ==> r.ps == Bds(0.0, 1.0)
      ensures o11 > 0.0 ==> IsRatioRow(r.pn, e0b0.value - GetPy().0, e0b0.value - o00, o11)
      ensures o00 > 0.0 ==> IsRatioRow(r.ps, e1b1.value - GetPy().1, e1b1.value - o11, o00)
      ensures r.pns.lo >= GetEStarBarStar() - 1.0
      ensures r.pns.lo >= e0b0.value - GetPy().0 && r.pns.lo >= e1b1.value - GetPy().1
      ensures r.pns.hi <= e0b0.value && r.pns.hi <= e1b1.value
      ensures r.pns.hi <= GetOStarStar() && r.pns.hi <= GetEStarBarStar() - GetOStarStar()
      ensures || r.pns.lo == 0.0 || r.pns.lo == GetEStarBarStar() - 1.0
              || r.pns.lo == e0b0.value - GetPy().0 || r.pns.lo == e1b1.value - GetPy().1
      ensures || r.pns.hi == e1b1.value || r.pns.hi == e0b0.value
              || r.pns.hi == GetOStarStar() || r.pns.hi == GetEStarBarStar() - GetOStarStar()
    {
      var (py0, py1) := GetPy();
      var e00, e11 := e0b0.value, e1b1.value;
      var eStar := GetEStarBarStar();
      var oStarStar := GetOStarStar();
      Pns3Bds(
        Bds(Max4(0.0, eStar - 1.0, e00 - py0, e11 - py1), Min4(e11, e00, oStarStar, eStar - oStarStar)),
        if o11 <= 0.0 then Bds(0.0, 1.0) else RatioRow(e00 - py0, e00 - o00, o11),
        if o00 <= 0.0 then Bds(0.0, 1.0) else RatioRow(e11 - py1, e11 - o11, o00))
    }

    /** The exogeneity-only regime: observational conditionals replace experimental ones. */
    function ExoBds(): (r: Pns3Bds)
      reads this
      ensures 0.0 <= r.pns.lo && r.pns.lo >= GetOStarBarStar() - 1.0
      ensures r.pns.hi <= o0b0 && r.pns.hi <= o1b1
      ensures r.pns.lo == 0.0 || r.pns.lo == GetOStarBarStar() - 1.0
      ensures r.pns.hi == o1b1 || r.pns.hi == o0b0
      ensures 0.0 <= r.pn.lo && r.pn.hi <= 1.0 && 0.0 <= r.ps.lo && r.ps.hi <= 1.0
      ensures o1b1 <= 0.0 ==> r.pn == Bds(0.0, 1.0)
      ensures o0b0 <= 0.0 ==> r.ps == Bds(0.0, 1.0)
      ensures o1b1 > 0.0 ==> IsRatioRow(r.pn, o1b1 - o1b0, o0b0, o1b1)
      ensures o0b0 > 0.0 ==> IsRatioRow(r.ps, o0b0 - o0b1, o1b1, o0b0)
    {
      var oStarBarStar := GetOStarBarStar();
      Pns3Bds(
        Bds(Max(0.0, oStarBarStar - 1.0), Min(o1b1, o0b0)),
        if o1b1 <= 0.0 then Bds(0.0, 1.0)
        else RatioRow(o1b1 - o1b0, o0b0, o1b1),
        if o0b0 <= 0.0 then Bds(0.0, 1.0)
        else RatioRow(o0b0 - o0b1, o1b1, o0b0))
    }

    /** The monotonicity-only regime: PNS is E_{*|*} - 1 and every row collapses to a point. */
    function MonoBds(): (r: Pns3Bds)
      reads this
      requires e0b0.Some? && e1b1.Some?
      ensures r.pns.IsPoint() && r.pn.IsPoint() && r.ps.IsPoint()
      ensures r.pns.lo == GetEStarBarStar() - 1.0
      ensures ExpCached() && eYBarX.value.ColumnSum(0) == 1.0 ==>
        r.pns.lo == eYBarX.value.m11 - eYBarX.value.m10
      ensures o11 <= 0.0 ==> r.pn == Point(1.0)
      ensures o00 <= 0.0 ==> r.ps == Point(1.0)
      ensures o11 > 0.0 ==> r.pn.lo * o11 == e0b0.value - GetPy().0
      ensures o00 > 0.0 ==> r.ps.lo * o00 == e1b1.value - GetPy().1
    {
      var (py0, py1) := GetPy();
      var pns := GetEStarBarStar() - 1.0;
      var pn := if o11 <= 0.0 then 1.0 else (e0b0.value - py0) / o11;
      var ps := if o00 <= 0.0 then 1.0 else (e1b1.value - py1) / o00;
      Pns3Bds(Point(pns), Point(pn), Point(ps))
    }

    /** Exogeneity together with monotonicity: PNS is O_{*|*} - 1, every row a point. */
    function ExoMonoBds(): (r: Pns3Bds)
      reads this
      ensures r.pns.IsPoint() && r.pn.IsPoint() && r.ps.IsPoint()
      ensures r.pns.lo == GetOStarBarStar() - 1.0
      ensures ObsCached() && oYBarX.ColumnSum(0) == 1.0 ==> r.pns.lo == oYBarX.m11 - oYBarX.m10
      ensures o11 <= 0.0 ==> r.pn == Point(1.0)
      ensures o00 <= 0.0 ==> r.ps == Point(1.0)
      ensures o11 > 0.0 ==> r.pn.lo * o11 == o0b0 - GetPy().0
      ensures o00 > 0.0 ==> r.ps.lo * o00 == o1b1 - GetPy().1
    {
      var (py0, py1) := GetPy();
      var pns := GetOStarBarStar() - 1.0;
      var pn := if o11 <= 0.0 then 1.0 else (o0b0 - py0) / o11;
      var ps := if o00 <= 0.0 then 1.0 else (o1b1 - py1) / o00;
      Pns3Bds(Point(pns), Point(pn), Point(ps))
    }

    /**
     * The regime picked by the two flags. Splitting on each flag in turn covers all
     * four combinations, so the source's final `assert False` branch has no counterpart.
     */
    function RegimeBds(): (r: Pns3Bds)
      reads this
      requires e0b0.Some? && e1b1.Some?
      ensures !exogeneity && !monotonicity ==> r == NeitherBds()
      ensures exogeneity && !monotonicity ==> r == ExoBds()
      ensures !exogeneity && monotonicity ==> r == MonoBds()
      ensures exogeneity && monotonicity ==> r == ExoMonoBds()
      ensures monotonicity ==> r.pns.IsPoint() && r.pn.IsPoint() && r.ps.IsPoint()
      ensures !monotonicity ==>
        0.0 <= r.pns.lo && 0.0 <= r.pn.lo && r.pn.hi <= 1.0 && 0.0 <= r.ps.lo && r.ps.hi <= 1.0
    {
      if exogeneity then
        (if monotonicity then ExoMonoBds() else ExoBds())
      else
        (if monotonicity then MonoBds() else NeitherBds())
    }

    /**
     * Strong exogeneity pins PN (when O_{1|1} > 0) and PS (when O_{0|0} > 0) to
     * PNS's lower bound divided by that conditional; PNS itself is untouched.
     */
    function StrongExoOverride(b: Pns3Bds): (r: Pns3Bds)
      reads this
      ensures r.pns == b.pns
      ensures strongExo && o1b1 > 0.0 ==> r.pn.IsPoint() && r.pn.lo * o1b1 == b.pns.lo
      ensures strongExo && o0b0 > 0.0 ==> r.ps.IsPoint() && r.ps.lo * o0b0 == b.pns.lo
      ensures !(strongExo && o1b1 > 0.0) ==> r.pn == b.pn
      ensures !(strongExo && o0b0 > 0.0) ==> r.ps == b.ps
    {
      if !strongExo then b
      else
        var pn := if o1b1 > 0.0 then Point(b.pns.lo / o1b1) else b.pn;
        var ps := if o0b0 > 0.0 then Point(b.pns.lo / o0b0) else b.ps;
        Pns3Bds(b.pns, pn, ps)
    }

    /**
     * get_pns3_bds. Without E_{y|x}: PNS in [0, O_{*,*}], PN and PS unconstrained,
     * whatever the flags. With E_{y|x}: the regime picked by the flags, then the
     * strong-exogeneity override.
     */
    function GetPns3Bds(): (r: Pns3Bds)
      reads this
      requires eYBarX.Some? ==> e0b0.Some? && e1b1.Some?
      ensures eYBarX.None? ==> r == Pns3Bds(Bds(0.0, GetOStarStar()), Bds(0.0, 1.0), Bds(0.0, 1.0))
      ensures eYBarX.Some? ==> r.pns == RegimeBds().pns
      ensures eYBarX.Some? && !(strongExo && o1b1 > 0.0) ==> r.pn == RegimeBds().pn
      ensures eYBarX.Some? && !(strongExo && o0b0 > 0.0) ==> r.ps == RegimeBds().ps
      ensures eYBarX.Some? && monotonicity ==> r.pns.IsPoint() && r.pn.IsPoint() && r.ps.IsPoint()
      ensures eYBarX.Some? && strongExo && o1b1 > 0.0 ==> r.pn == Point(r.pns.lo / o1b1)
      ensures eYBarX.Some? && strongExo && o0b0 > 0.0 ==> r.ps == Point(r.pns.lo / o0b0)
      ensures eYBarX.Some? && !strongExo && !monotonicity ==>
        0.0 <= r.pn.lo && r.pn.hi <= 1.0 && 0.0 <= r.ps.lo && r.ps.hi <= 1.0
    {
      if eYBarX.None? then
        Pns3Bds(Bds(0.0, GetOStarStar()), Bds(0.0, 1.0), Bds(0.0, 1.0))
      else
        StrongExoOverride(RegimeBds())
    }

    /**
     * The admissible bounds on E_{y|x} implied by the observational data (and by
     * P(y) under monotonicity), as get_exp_probs_bds fills them.
     */
    function ExpProbsBds(mono: bool): (r: ExpBds)
      reads this
      ensures !mono ==> Complementary(r)
      ensures r.left.m01 == o10 && r.left.m10 == o01 && r.right.m00 == 1.0 - o01 && r.right.m11 == 1.0 - o10
      ensures !mono ==> r.left.m00 == o00 && r.left.m11 == o11
      ensures mono ==>
        && r.left.m00 == GetPy().0 && r.left.m11 == GetPy().1
        && r.right.m01 == GetPy().0 && r.right.m10 == GetPy().1
    {
      if !mono then
        ExpBds(Mat2(o00, o10, o01, o11), Mat2(1.0 - o01, 1.0 - o11, 1.0 - o00, 1.0 - o10))
      else
        var (py0, py1) := GetPy();
        ExpBds(Mat2(py0, o10, o01, py1), Mat2(1.0 - o01, py0, py1, 1.0 - o10))
    }

    /** get_exp_probs_bds: two freshly zeroed 2x2 arrays filled cell by cell. */
    method GetExpProbsBds() returns (left: array2<real>, right: array2<real>)
      ensures fresh(left) && fresh(right)
      ensures left.Length0 == 2 && left.Length1 == 2 && right.Length0 == 2 && right.Length1 == 2
      ensures ExpBds(AsMat2(left), AsMat2(right)) == ExpProbsBds(monotonicity)
    {
      left := new real[2, 2]((_, _) => 0.0);
      right := new real[2, 2]((_, _) => 0.0);
      if !monotonicity {
        left[1, 1] := o11;
        right[1, 1] := 1.0 - o10;
        left[1, 0] := o01;
        right[1, 0] := 1.0 - o00;
        left[0, 1] := o10;
        right[0, 1] := 1.0 - o11;
        left[0, 0] := o00;
        right[0, 0] := 1.0 - o01;
      } else {
        var (py0, py1) := GetPy();
        left[1, 1] := py1;
        right[1, 1] := 1.0 - o10;
        left[1, 0] := o01;
        right[1, 0] := py1;
        left[0, 1] := o10;
        right[0, 1] := py0;
        left[0, 0] := py0;
        right[0, 0] := 1.0 - o01;
      }
    }

    /**
     * get_joint_exp_probs_bds: the elementwise max of the two lower bounds and min
     * of the two upper bounds, or None when some merged cell is empty.
     */
    static function GetJointExpProbsBds(m: Bounder, f: Bounder): (r: Option<ExpBds>)
      reads m, f
      ensures var bm, bf := m.ExpProbsBds(m.monotonicity), f.ExpProbsBds(f.monotonicity);
        && (r.Some? <==> NonEmpty(ExpBds(MaxCells(bm.left, bf.left), MinCells(bm.right, bf.right))))
        && (r.Some? ==> forall i: nat, j: nat | i < 2 && j < 2 ::
              && r.value.left.At(i, j) == Max(bm.left.At(i, j), bf.left.At(i, j))
              && r.value.right.At(i, j) == Min(bm.right.At(i, j), bf.right.At(i, j)))
    {
      var bm := m.ExpProbsBds(m.monotonicity);
      var bf := f.ExpProbsBds(f.monotonicity);
      var merged := ExpBds(MaxCells(bm.left, bf.left), MinCells(bm.right, bf.right));
      if NonEmpty(merged) then Some(merged) else None
    }
  }

  /**
   * The joint cells o<x><y> = P(y, x) from O_{y|x} and P(x). The first index is
   * x, the second y, so O[1,0]·P(x=0) lands in o01 and O[0,1]·P(x=1) in o10.
   */
  function JointCells(o: Mat2, p: Vec2): (j: Mat2)
    ensures j.m00 + j.m01 == o.ColumnSum(0) * p.v0 && j.m10 + j.m11 == o.ColumnSum(1) * p.v1
  {
    Mat2(o.m00 * p.v0, o.m10 * p.v0, o.m01 * p.v1, o.m11 * p.v1)
  }

  /** The 2x2 contents of an array as a matrix. */
  function AsMat2(a: array2<real>): Mat2
    reads a
    requires a.Length0 == 2 && a.Length1 == 2
  {
    Mat2(a[0, 0], a[0, 1], a[1, 0], a[1, 1])
  }
}
