# Bounds on the probabilities of causation (Bounder)

This project models the `Bounder` class of JudeasRx in Dafny and proves properties of the model. `Bounder` computes the Tian–Pearl bounds on three probabilities of causation for a binary treatment x and a binary outcome y:

- PNS, the probability that the treatment is necessary and sufficient;
- PN, the probability that it is necessary;
- PS, the probability that it is sufficient.

The inputs are an observational matrix O_{y|x} with a vector P(x), and optionally an experimental matrix E_{y|x} from a randomised trial. Three flags (exogeneity, monotonicity, strong exogeneity) select which assumptions apply. Two more operations work on E_{y|x}. `get_exp_probs_bds` gives the interval in which each cell of E_{y|x} must lie to be consistent with the observations. `get_joint_exp_probs_bds` intersects the intervals of two strata, such as two sexes.

Every probability is an exact Dafny `real`. The tolerance 1e-5 is the constant `Stochastic.Tol`.

Modules:

- `Wrappers` holds `Option` (Python's `None`) and `Outcome` (pass, or fail with an error).
- `Stochastic` defines 2×2 matrices (`Mat2`, indexed [row = y, column = x]) and two-entry vectors (`Vec2`). It also holds the two validations. Each Python `assert` that fails becomes a `Fail` that names the failed test.
- `PnsBounds` holds the class `Bounder`. Its fields are those of the source: `px`, `px0`, `px1`, `oYBarX`, the conditional cells `o0b0`…`o1b1`, the joint cells `o00`…`o11`, `eYBarX`, the cells `e0b0`…`e1b1` (each an `Option`, `None` until E is set) and the three flags.
  - The constructor and the setters overwrite these fields step by step.
  - The bounds are functions that read the fields.
  - `GetExpProbsBds` fills two fresh `array2<real>` cell by cell. It is proved equal to the function `ExpProbsBds`, which the merge and the lemmas use.
- `PnsBoundsLemmas` holds properties that relate several operations.
- `Scenarios` holds the demo driver's two strata and the boundary cases, worked through with exact reals.

Things the model makes explicit:

- **Joint cells.** `JointCells` gives one definition of the joint cells, and it keeps the source's index order: o01 = O[1,0]·P(x=0) and o10 = O[0,1]·P(x=1). In `o<a><b>` the first index is x and the second is y, so get_py's `o00 + o10` is P(y=0).
- **Setters.** The source raises an assertion error when a check fails; the setters instead return the `Outcome` of the checks. `set_obs_probs` writes P(x) before it checks O_{y|x}. If the matrix check fails, the new P(x) therefore stays beside the old O_{y|x} and the old joint cells, and `Bounder.Valid()` no longer holds unless the new P(x) equals the old one. The model keeps this order; it does not make the update atomic.
- **Flags.** The flags are public fields that callers overwrite. So `get_pns3_bds` is modelled without assuming that strong exogeneity implies exogeneity. Only the constructor establishes that.
- **Divisions.** Every division in the bound formulas is checked by Dafny's well-formedness check: each one is proved to have a positive denominator under the guard the source places before it.
- **Regime dispatch.** `RegimeBds` splits on each flag in turn, so all four combinations are covered. The source's final `assert False` branch has no counterpart.
- **Proper intervals.** The PNS3 bounds are not proper intervals for every valid input. `PnsBoundsLemmas.Pns3InvertsForInadmissibleExp` gives uniform observations with E_{0|0} = 0 and E_{1|1} = 1: the PNS row comes out as [0.5, 0]. `PnsBoundsLemmas.Pns3ProperWhenConsistent` proves lower ≤ upper in every row when the inputs are exactly stochastic and E_{y|x} lies within `get_exp_probs_bds`.
- **Demo strata.** The demo driver's two strata have no common E_{y|x}: merging them gives `None` (`Scenarios.JointDemoScenario`).

## Model

| member | source | states |
|---|---|---|
| Stochastic.CheckTransMatrix | Bounder.py:183-201 | passes exactly when every entry is in [0,1] and each column sums to 1 within 1e-5 (`IsTransMatrix`); never reports the vector-sum error |
| Stochastic.CheckProbVec | Bounder.py:203-220 | passes exactly when both entries are in [0,1] and they sum to 1 within 1e-5 (`IsProbVec`); never reports a column error |
| Stochastic.CheckTransMatrixFirstFailure | Bounder.py:197-201 | the error reported is that of the first failing assert, in source order: a negative entry, then an entry above 1, then column 0, then column 1 |
| Stochastic.CheckProbVecFirstFailure | Bounder.py:217-220 | the error reported is that of the first failing assert: a negative entry, then an entry above 1, then the sum |
| Stochastic.ProbVecIsColumnTest | Bounder.py:217-220 | the vector test gives the same verdict and the same error as the matrix test on the matrix whose two columns are the vector (sum error = column-0 error) |
| Stochastic.ExactMatrixPasses | Bounder.py:197-201 | a matrix with entries in [0,1] and columns summing to exactly 1 passes |
| Stochastic.ExactProbVecPasses | Bounder.py:217-220 | a vector with non-negative entries summing to exactly 1 passes |
| Stochastic.ToleranceAdmitsInexact | Bounder.py:200-201 | a column summing to 1.000009 is accepted although it is not exactly stochastic; one summing to 1.00001 is rejected with the column-0 error |
| PnsBounds.Bounder.constructor | Bounder.py:96-124 | for inputs that pass validation: `Valid()`, the stored O, P(x), E and cells equal the inputs, and exogeneity is the argument or strong exogeneity |
| PnsBounds.Bounder.SetObsProbs | Bounder.py:145-159 | returns the P(x) error, else the O error, else Pass; a bad P(x) changes nothing; a good P(x) is written even when O then fails, and O and the joint cells keep their old values; on Pass the caches match the new O and P(x); E and the flags never change; `Valid()` is preserved on Pass |
| PnsBounds.Bounder.WritePx | Bounder.py:146-148 | writes P(x) and its two entries and nothing else |
| PnsBounds.Bounder.WriteObs | Bounder.py:151-159 | writes O_{y|x}, its four conditional cells and the four joint cells built from the given P(x), and nothing else |
| PnsBounds.Bounder.SetExpProbs | Bounder.py:176-181 | returns the matrix check's outcome; on failure nothing changes; on Pass E and its cells are the new matrix; the observational fields and the flags never change; `Valid()` is preserved on Pass |
| PnsBounds.JointCells | Bounder.py:107-110 | the x = 0 row of the joint cells sums to P(x=0) times the column-0 sum of O, and the x = 1 row to P(x=1) times the column-1 sum |
| PnsBounds.Bounder.GetPy | Bounder.py:222-234 | P(y=0) = O_{0\|0}P(x=0) + O_{0\|1}P(x=1) and P(y=1) = O_{1\|0}P(x=0) + O_{1\|1}P(x=1), the law of total probability |
| PnsBounds.Bounder.GetEStarBarStar | Bounder.py:236-246 | E_{0\|0} + E_{1\|1}; for an exactly stochastic E, 1 plus the experimental risk difference E_{1\|1} − E_{1\|0} |
| PnsBounds.Bounder.GetOStarBarStar | Bounder.py:248-258 | O_{0\|0} + O_{1\|1}; for an exactly stochastic O, 1 plus the observational risk difference O_{1\|1} − O_{1\|0} |
| PnsBounds.Bounder.GetOStarStar | Bounder.py:260-270 | the joint probability that y equals x: O_{0\|0}P(x=0) + O_{1\|1}P(x=1) |
| PnsBounds.RatioRow | Bounder.py:314-319 | for a positive denominator d, the row's lower end is the larger of 0 and the solution of lo·d = a, and its upper end the smaller of 1 and the solution of hi·d = c (`IsRatioRow`), the shape of every PN and PS row outside monotonicity |
| PnsBounds.Bounder.NeitherBds | Bounder.py:296-331 | PNS lower is the largest of 0, E_{*\|*} − 1, E_{0\|0} − P(y=0) and E_{1\|1} − P(y=1) (≥ each and equal to one); PNS upper is the smallest of E_{1\|1}, E_{0\|0}, O_{*,*} and E_{*\|*} − O_{*,*} (≤ each and equal to one); PN and PS have lower ≥ 0 and upper ≤ 1; o11 ≤ 0 gives PN = [0,1] and o00 ≤ 0 gives PS = [0,1]; otherwise PN is [max(0, (E_{0\|0} − P(y=0))/o11), min(1, (E_{0\|0} − o00)/o11)] and PS is [max(0, (E_{1\|1} − P(y=1))/o00), min(1, (E_{1\|1} − o11)/o00)] (`IsRatioRow`) |
| PnsBounds.Bounder.ExoBds | Bounder.py:333-357 | PNS lower is the larger of 0 and O_{*\|*} − 1, and PNS upper the smaller of O_{1\|1} and O_{0\|0} (bound by each and equal to one); PN and PS lie within [0,1]; O_{1\|1} ≤ 0 gives PN = [0,1] and O_{0\|0} ≤ 0 gives PS = [0,1]; otherwise PN is [max(0, (O_{1\|1} − O_{1\|0})/O_{1\|1}), min(1, O_{0\|0}/O_{1\|1})] and PS is [max(0, (O_{0\|0} − O_{0\|1})/O_{0\|0}), min(1, O_{1\|1}/O_{0\|0})] (`IsRatioRow`) |
| PnsBounds.Bounder.MonoBds | Bounder.py:358-373 | every row is a point; PNS is E_{*\|*} − 1 for every stored E; for an exactly stochastic E this is the risk difference E_{1\|1} − E_{1\|0}; o11 ≤ 0 gives PN = 1 and o00 ≤ 0 gives PS = 1; otherwise PN·o11 = E_{0\|0} − P(y=0) and PS·o00 = E_{1\|1} − P(y=1) |
| PnsBounds.Bounder.ExoMonoBds | Bounder.py:374-389 | every row is a point; PNS is O_{*\|*} − 1 for every stored O; for an exactly stochastic O this is O_{1\|1} − O_{1\|0}; o11 ≤ 0 gives PN = 1 and o00 ≤ 0 gives PS = 1; otherwise PN·o11 = O_{0\|0} − P(y=0) and PS·o00 = O_{1\|1} − P(y=1) |
| PnsBounds.Bounder.RegimeBds | Bounder.py:296-391 | the four flag combinations select the four regimes: neither flag → `NeitherBds`, exogeneity only → `ExoBds`, monotonicity only → `MonoBds`, both → `ExoMonoBds`; so every combination is covered and the `assert False` branch is unreachable; under monotonicity every row is a point, without it PNS lower ≥ 0 and PN, PS lie within [0,1] |
| PnsBounds.Bounder.StrongExoOverride | Bounder.py:392-398 | PNS is untouched; with strong exogeneity and O_{1\|1} > 0, PN becomes a point with PN·O_{1\|1} = PNS lower (likewise PS with O_{0\|0}); otherwise PN and PS are unchanged |
| PnsBounds.Bounder.GetPns3Bds | Bounder.py:285-402 | without E: [[0, O_{*,*}], [0,1], [0,1]] whatever the flags; with E the PNS row is that of the regime the flags select (`RegimeBds`), and so are the PN and PS rows unless the strong-exogeneity override replaces them; with E and monotonicity, all three rows are points after the override; strong exogeneity makes PN = PNS lower / O_{1\|1} and PS = PNS lower / O_{0\|0} when these are positive; without strong exogeneity and monotonicity, PN and PS lie within [0,1] |
| PnsBounds.Bounder.ExpProbsBds | Bounder.py:416-443 | without monotonicity the bounds are complementary (lower[0,j] = 1 − upper[1,j] and upper[0,j] = 1 − lower[1,j]); every cell's bound is the source's observational or P(y) quantity |
| PnsBounds.Bounder.GetExpProbsBds | Bounder.py:404-443 | returns two fresh 2×2 arrays holding exactly `ExpProbsBds` for the object's monotonicity flag |
| PnsBounds.Bounder.GetJointExpProbsBds | Bounder.py:445-478 | Some exactly when every merged cell has upper − lower ≥ 0; its cells are the max of the two lowers and the min of the two uppers |
| PnsBoundsLemmas.JointIsDistribution | Bounder.py:107-110 | for exactly stochastic inputs the joint cells are non-negative, sum to 1, and their x-rows sum to P(x=0) and P(x=1) |
| PnsBoundsLemmas.PyIsDistribution | Bounder.py:232-234 | for exactly stochastic inputs P(y=0) and P(y=1) lie in [0,1] and sum to 1 |
| PnsBoundsLemmas.ExpBdsProper | Bounder.py:418-441 | for exactly stochastic inputs every cell satisfies 0 ≤ lower ≤ upper ≤ 1, with and without monotonicity |
| PnsBoundsLemmas.MonoExpBdsComplementary | Bounder.py:429-441 | with monotonicity the complement rule of the comment at line 437 also holds, once P(y) sums to exactly 1 |
| PnsBoundsLemmas.MonotonicityNarrowsExpBds | Bounder.py:418-441 | for exactly stochastic inputs every monotone interval lies inside the interval computed without monotonicity |
| PnsBoundsLemmas.Pns3ProperWhenConsistent | Bounder.py:285-402 | for exactly stochastic inputs with E inside its admissible bounds, every row of `get_pns3_bds` has lower ≤ upper, in every regime and after the override |
| PnsBoundsLemmas.NeitherProper | Bounder.py:296-331 | in the neither-flag regime all three rows are proper when E is admissible |
| PnsBoundsLemmas.NeitherPnsRowProper | Bounder.py:298-307 | the neither-flag PNS row is proper once E_{0\|0}, E_{1\|1} are within their observational intervals |
| PnsBoundsLemmas.NeitherRatioRowsProper | Bounder.py:309-331 | the neither-flag PN and PS rows are proper under the same conditions |
| PnsBoundsLemmas.ExoProper | Bounder.py:333-357 | in the exogeneity-only regime all three rows are proper for exactly stochastic O |
| PnsBoundsLemmas.PnsRowProper | Bounder.py:298-307 | on a joint distribution with admissible E_{0\|0}, E_{1\|1}, the max of the four PNS lower candidates is ≤ the min of the four upper candidates |
| PnsBoundsLemmas.RatioRowProper | Bounder.py:314-319 | the row `RatioRow(a, c, d)` = [max(0, a/d), min(1, c/d)] is proper when d > 0, a ≤ c, a ≤ d and 0 ≤ c |
| PnsBoundsLemmas.Pns3InvertsForInadmissibleExp | Bounder.py:296-307 | with uniform observations and the valid E = [[0,0],[1,1]], which lies outside its admissible bounds, the PNS row is [0.5, 0] |
| PnsBoundsLemmas.JointIsIntersection | Bounder.py:468-478 | a matrix lies within the merged bounds (and the merge is Some) exactly when it lies within both strata's bounds |
| PnsBoundsLemmas.JointNoneIffDisjoint | Bounder.py:475-478 | the merge is None exactly when no matrix lies within both strata's bounds |
| PnsBoundsLemmas.JointWithSelf | Bounder.py:468-478 | merging a Bounder with itself returns its own bounds when they are nonempty, and None otherwise |
| PnsBoundsLemmas.JointSymmetric | Bounder.py:468-478 | the merge does not depend on the order of the two strata |
| Scenarios.FemaleScenario | Bounder.py:573-588 | the female stratum gives PNS ∈ [0.27, 0.279], PN ∈ [1, 1], PS ∈ [0.9, 1] |
| Scenarios.MaleScenario | Bounder.py:592-608 | the male stratum gives PNS ∈ [0.49, 0.49], PN ∈ [1, 1], PS ∈ [0, 0] |
| Scenarios.FemaleMonotoneScenario | Bounder.py:358-373 | the female stratum under monotonicity gives the points PNS = 0.27, PN = 1, PS = 0.9 |
| Scenarios.FemaleStrongExoScenario | Bounder.py:120-124 | strong exogeneity at construction sets exogeneity; the female stratum then gives PNS ∈ [0, 0.27] and PN = PS = 0 |
| Scenarios.FemaleExoScenario | Bounder.py:333-357 | the female stratum under exogeneity alone gives PNS ∈ [0, 0.27], PN ∈ [0, 1], PS ∈ [0, 0.9] |
| Scenarios.UniformObservationalScenario | Bounder.py:285-289 | uniform observations without E give PNS ∈ [0, 0.5], PN ∈ [0,1], PS ∈ [0,1] |
| Scenarios.ZeroJointCellScenario | Bounder.py:310-312 | with o11 = 0 the PN row is [0,1] for every valid E |
| Scenarios.FemaleExpBoundsScenario | Bounder.py:583-585 | the female admissible bounds are lower [[0.09, 0.511], [0.21, 0.189]] and upper [[0.79, 0.811], [0.91, 0.489]], and the female E_{y\|x} lies within them |
| Scenarios.JointDemoScenario | Bounder.py:468-478 | merging the demo's male and female strata gives None |
| Scenarios.PartialObsUpdateScenario | Bounder.py:145-150 | a `set_obs_probs` whose matrix check fails returns the column-0 error, keeps the new P(x) and keeps the old O_{y|x} |

## Left out

- The `print_*` methods and `np.set_printoptions` (Bounder.py:126, 480-566) are console output. They compute nothing.
- The `__main__` driver (Bounder.py:569-610) is not modelled as a program. Its two strata appear only as inputs of the methods in `Scenarios`.
- Widgeter.py is the ipywidgets front end: sliders, checkboxes and plotting. It computes no bounds. It also sets an attribute named `strong_exogeneity`, which `get_pns3_bds` never reads.
- IEEE floating point is not modelled: arithmetic is exact over the reals. The identities P(y=0) + P(y=1) = 1 and "joint cells sum to 1" are proved only for exactly stochastic inputs. With only the 1e-5 tolerance they hold approximately.
- The numpy shape assertions (Bounder.py:197, 217, 472, 474) have no counterpart. The fixed-size `Mat2` and `Vec2` cannot have another shape.
- PnsBounds.Bounder.constructor: requires that its inputs pass validation and does not model the exception `__init__` raises when they do not. A failing `__init__` yields no object, so there is no state to model.
- PnsBounds.Bounder.GetJointExpProbsBds: takes each stratum's bounds from the function `ExpProbsBds` rather than calling the method `GetExpProbsBds`, since a Dafny function cannot call a method. `GetExpProbsBds` is proved to return the same values.
- Aliasing of the stored arrays is not modelled. `Mat2` and `Vec2` are values, but Bounder.py:97, 102, 146, 151 and 177 store the caller's numpy array itself. A caller that later mutated that array in place would change `px`, `o_y_bar_x` or `e_y_bar_x` and leave the cached cells stale. Nothing in `Bounder` relies on this.
- Python's dynamic typing is not modelled. The setters accept only a `Mat2` and a `Vec2`, and the e-cells are `Option<real>` in place of `None` or a float.
