/**
 * Real-number helpers shared by the beam model: absolute value, maximum,
 * the ceiling that `int(np.ceil(...))` computes, the constant pi and the
 * cube root that `** (1/3)` stands for.
 */
module RealMath {

  function Abs(x: real): (r: real)
    ensures r >= 0.0
    ensures r == x || r == -x
  {
    if x < 0.0 then -x else x
  }

  function Max(a: real, b: real): (r: real)
    ensures r >= a && r >= b
    ensures r == a || r == b
  {
    if a < b then b else a
  }

  /** The least integer not below `r`, as `int(np.ceil(r))` gives it. */
  function Ceil(r: real): (n: int)
    ensures n as real >= r
    ensures (n - 1) as real < r
  {
    -((-r).Floor)
  }

  /** numpy's `np.pi`; the model only relies on it being positive. */
  const Pi: real := 3.141592653589793

  /**
   * `root` behaves as the real cube root on the non-negative reals:
   * its value there is non-negative and cubes back to its argument.
   * This is what `v ** (1/3)` computes for `v >= 0`, rounding aside.
   */
  ghost predicate IsCubeRoot(root: real -> real) {
    forall v :: 0.0 <= v ==> 0.0 <= root(v) && root(v) * root(v) * root(v) == v
  }

  /** A product of two positive reals is positive. */
  lemma MulPositive(x: real, y: real)
    requires 0.0 < x && 0.0 < y
    ensures 0.0 < x * y
  {}

  /** A product of two non-negative reals is non-negative. */
  lemma MulNonNegative(x: real, y: real)
    requires 0.0 <= x && 0.0 <= y
    ensures 0.0 <= x * y
  {}

  /** Scaling both sides of `a <= b` by a non-negative factor keeps the order. */
  lemma MulLeftMonotone(c: real, a: real, b: real)
    requires 0.0 <= c && a <= b
    ensures c * a <= c * b
  {
    MulNonNegative(c, b - a);
    assert c * b - c * a == c * (b - a);
  }

  /** Scaling both sides of `a < b` by a positive factor keeps the strict order. */
  lemma MulStrictMonotone(c: real, a: real, b: real)
    requires 0.0 < c && a < b
    ensures c * a < c * b
  {
    MulPositive(c, b - a);
    assert c * b - c * a == c * (b - a);
  }

  /** The cube of a larger non-negative real is larger. */
  lemma CubeStrictlyIncreasing(a: real, b: real)
    requires 0.0 <= a < b
    ensures a * a * a < b * b * b
  {
    MulPositive(b - a, b * b + a * b + a * a);
    assert b * b * b - a * a * a == (b - a) * (b * b + a * b + a * a);
  }

  /** The cube root of zero is zero, so `0.0 ** (1/3) == 0.0`. */
  lemma CubeRootOfZero(root: real -> real)
    requires IsCubeRoot(root)
    ensures root(0.0) == 0.0
  {
    var r := root(0.0);
    assert 0.0 <= r && r * r * r == 0.0;
    if r > 0.0 {
      CubeStrictlyIncreasing(0.0, r);
      assert false;
    }
  }

  /** A cube root is non-decreasing on the non-negative reals. */
  lemma CubeRootMonotone(root: real -> real, a: real, b: real)
    requires IsCubeRoot(root)
    requires 0.0 <= a <= b
    ensures root(a) <= root(b)
  {
    var ra, rb := root(a), root(b);
    assert 0.0 <= ra && ra * ra * ra == a;
    assert 0.0 <= rb && rb * rb * rb == b;
    if rb < ra {
      CubeStrictlyIncreasing(rb, ra);
      assert false;
    }
  }
}
