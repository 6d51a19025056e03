/**
 * The two pass/fail checks of the beam designer: concrete shear resistance
 * without shear reinforcement against the peak shear, and the span/height
 * ratio against a limit that depends on the support.
 *
 * The shear resistance follows the shape of the concrete shear resistance of
 * section 6.2.2 of EN 1992-1-1 (the factor 0.12 and the cube root of
 * `100 * rho`) but drops its size factor `k` and `f_ck`, exactly as the
 * calculation does; `As_prov` enters in m^2 while `b` and `d` are in mm.
 */
module Checks {
  import opened RealMath
  import opened Moments

  /** `d = h - cover - phi / 2`, in mm. */
  function EffectiveDepth(h: int, cover: int, phi: int): real {
    (h - cover) as real - phi as real / 2.0
  }

  /** The argument of the cube root: `100 * As_prov / (b * d)`. */
  function ReinforcementRatio(b: int, d: real, asProv: real): (rho: real)
    requires b > 0 && d > 0.0
    ensures asProv >= 0.0 ==> rho >= 0.0
  {
    MulPositive(b as real, d);
    100.0 * asProv / (b as real * d)
  }

  /**
   * `V_rd_c = 0.12 * 1000 * (100 * As_prov / (b * d)) ** (1/3) * b * d / 1000`,
   * in kN, with `root` standing for `** (1/3)`.
   */
  function ShearResistance(b: int, d: real, asProv: real, root: real -> real): real
    requires b > 0 && d > 0.0
  {
    0.12 * 1000.0 * root(ReinforcementRatio(b, d, asProv)) * b as real * d / 1000.0
  }

  /** Proof helper: `V_rd_c` is `0.12 b d` times the cube root of the reinforcement ratio. */
  lemma ShearResistanceScales(b: int, d: real, asProv: real, root: real -> real)
    requires b > 0 && d > 0.0
    ensures ShearResistance(b, d, asProv, root)
         == (0.12 * b as real * d) * root(ReinforcementRatio(b, d, asProv))
  {}

  /** The shear resistance is never negative. */
  lemma ShearResistanceNonNegative(b: int, d: real, asProv: real, root: real -> real)
    requires b > 0 && d > 0.0 && asProv >= 0.0 && IsCubeRoot(root)
    ensures ShearResistance(b, d, asProv, root) >= 0.0
  {
    ShearResistanceScales(b, d, asProv, root);
    MulPositive(b as real, d);
    MulNonNegative(0.12 * b as real * d, root(ReinforcementRatio(b, d, asProv)));
  }

  /** Without steel the concrete is credited with no shear resistance at all. */
  lemma ShearResistanceWithoutSteel(b: int, d: real, root: real -> real)
    requires b > 0 && d > 0.0 && IsCubeRoot(root)
    ensures ShearResistance(b, d, 0.0, root) == 0.0
  {
    assert ReinforcementRatio(b, d, 0.0) == 0.0;
    CubeRootOfZero(root);
  }

  /** More provided steel never lowers the shear resistance. */
  lemma ShearResistanceMonotone(b: int, d: real, a1: real, a2: real, root: real -> real)
    requires b > 0 && d > 0.0 && 0.0 <= a1 <= a2 && IsCubeRoot(root)
    ensures ShearResistance(b, d, a1, root) <= ShearResistance(b, d, a2, root)
  {
    var bd := b as real * d;
    MulPositive(b as real, d);
    var k := 100.0 / bd;
    assert ReinforcementRatio(b, d, a1) == k * a1 && ReinforcementRatio(b, d, a2) == k * a2;
    MulLeftMonotone(k, a1, a2);
    CubeRootMonotone(root, k * a1, k * a2);
    ShearResistanceScales(b, d, a1, root);
    ShearResistanceScales(b, d, a2, root);
    MulLeftMonotone(0.12 * b as real * d, root(k * a1), root(k * a2));
  }

  /** `deflection_ok`: the ratio `L / h` against 20 or 7. */
  function DeflectionLimit(s: Support): real {
    if s == SimplySupported then 20.0 else 7.0
  }

  /**
   * `deflection_ratio = L / h` with `L` in m and `h` in mm, exactly as written,
   * compared with the limit of the support.
   */
  function DeflectionOk(s: Support, span: real, h: int): (ok: bool)
    requires h > 0
    ensures span / h as real <= 7.0 ==> ok
    ensures span / h as real > 20.0 ==> !ok
    ensures 0.0 < span <= 20.0 && h >= 100 ==> ok
  {
    span / h as real <= DeflectionLimit(s)
  }

  /**
   * Because `L` is in m and `h` in mm, the ratio is at most 20 / 100 over the
   * input ranges, so the deflection check passes for every admissible beam.
   */
  lemma DeflectionAlwaysPasses(s: Support, span: real, h: int)
    requires 0.0 < span <= 20.0 && h >= 100
    ensures span / h as real <= 0.2
    ensures DeflectionOk(s, span, h)
  {
  }
}
