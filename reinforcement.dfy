/**
 * Reinforcement sizing of the beam designer: lever arm, design yield stress,
 * the required steel area for the governing moment, the number of bars of the
 * chosen diameter, the area they provide and the anchorage length.
 *
 * The unit factors are those of the source: the height `h` and the bar
 * diameter `phi` are in mm and converted to m for the lever arm and the bar
 * area, `f_yk` is in MPa and scaled by 1e6, and the moment in kNm is scaled
 * by 1e6.
 */
module Reinforcement {
  import opened RealMath

  /** `z = 0.9 * h_m`, with `h_m = h / 1000`. */
  function LeverArm(h: int): (z: real)
    requires h > 0
    ensures z > 0.0
  {
    0.9 * (h as real / 1000.0)
  }

  /** `f_yd = f_yk / 1.15 * 1e6`. */
  function DesignYield(fyk: int): (f: real)
    requires fyk > 0
    ensures f > 0.0
  {
    fyk as real / 1.15 * 1000000.0
  }

  /** `As_single = pi * phi_m^2 / 4`, with `phi_m = phi / 1000`. */
  function SingleBarArea(phi: int): (a: real)
    requires phi > 0
    ensures a > 0.0
  {
    var phiM := phi as real / 1000.0;
    MulPositive(phiM, phiM);
    MulPositive(Pi, phiM * phiM);
    Pi * (phiM * phiM) / 4.0
  }

  /** `As_req = (M_max * 1e6) / (z * f_yd)`: no steel for no moment, and never negative. */
  function RequiredArea(mMax: real, h: int, fyk: int): (a: real)
    requires h > 0 && fyk > 0
    ensures mMax >= 0.0 ==> a >= 0.0
    ensures a == 0.0 <==> mMax == 0.0
  {
    var z, fyd := LeverArm(h), DesignYield(fyk);
    MulPositive(z, fyd);
    (mMax * 1000000.0) / (z * fyd)
  }

  /**
   * `n_bars = int(np.ceil(As_req / As_single))`: enough bars to cover the
   * required area, and one bar fewer would not be; zero bars for zero area.
   */
  function BarCount(asReq: real, asSingle: real): (n: int)
    requires asSingle > 0.0
    ensures n as real * asSingle >= asReq
    ensures (n - 1) as real * asSingle < asReq
    ensures asReq >= 0.0 ==> n >= 0
  {
    var n := Ceil(asReq / asSingle);
    CeilCovers(asReq, asSingle, n);
    CeilIsTight(asReq, asSingle, n);
    n
  }

  /** Scaling `asReq / asSingle <= n` back by `asSingle`. */
  lemma CeilCovers(asReq: real, asSingle: real, n: int)
    requires asSingle > 0.0 && n as real >= asReq / asSingle
    ensures n as real * asSingle >= asReq
  {
    var ratio := asReq / asSingle;
    MulNonNegative(n as real - ratio, asSingle);
    assert (n as real - ratio) * asSingle == n as real * asSingle - ratio * asSingle;
    assert ratio * asSingle == asReq;
  }

  /** Scaling `n - 1 < asReq / asSingle` back by `asSingle`. */
  lemma CeilIsTight(asReq: real, asSingle: real, n: int)
    requires asSingle > 0.0 && (n - 1) as real < asReq / asSingle
    ensures (n - 1) as real * asSingle < asReq
  {
    var ratio := asReq / asSingle;
    var m := (n - 1) as real;
    MulPositive(ratio - m, asSingle);
    assert (ratio - m) * asSingle == ratio * asSingle - m * asSingle;
    assert ratio * asSingle == asReq;
  }

  /** `As_prov = n_bars * As_single`. */
  function ProvidedArea(n: int, asSingle: real): real {
    n as real * asSingle
  }

  /** `ld = phi * f_yk / (4 * 1.4)`, in mm for `phi` in mm and `f_yk` in MPa. */
  function AnchorageLength(phi: int, fyk: int): (ld: real)
    requires phi > 0 && fyk > 0
    ensures ld > 0.0
  {
    MulPositive(phi as real, fyk as real);
    phi as real * fyk as real / (4.0 * 1.4)
  }

  /** The bar count is the least count whose area covers the required area. */
  lemma BarCountIsLeast(asReq: real, asSingle: real, m: int)
    requires asSingle > 0.0 && m as real * asSingle >= asReq
    ensures BarCount(asReq, asSingle) <= m
  {
    var n := BarCount(asReq, asSingle);
    if m < n {
      var k := (n - 1) as real;
      MulNonNegative(k - m as real, asSingle);
      assert false;
    }
  }

  /** The provided area covers the required one, with less than one bar to spare. */
  lemma ProvidedCoversRequired(asReq: real, asSingle: real)
    requires asSingle > 0.0
    ensures ProvidedArea(BarCount(asReq, asSingle), asSingle) >= asReq
    ensures ProvidedArea(BarCount(asReq, asSingle), asSingle) - asSingle < asReq
  {
    var n := BarCount(asReq, asSingle);
    assert (n - 1) as real * asSingle == n as real * asSingle - asSingle;
  }

  /** A larger required area never needs fewer bars. */
  lemma BarCountMonotone(a1: real, a2: real, asSingle: real)
    requires asSingle > 0.0 && a1 <= a2
    ensures BarCount(a1, asSingle) <= BarCount(a2, asSingle)
  {
    BarCountIsLeast(a1, asSingle, BarCount(a2, asSingle));
  }

  /**
   * For a fixed section and steel, a larger governing moment never needs less
   * steel nor fewer bars.
   */
  lemma SizingMonotone(m1: real, m2: real, h: int, fyk: int, phi: int)
    requires h > 0 && fyk > 0 && phi > 0 && m1 <= m2
    ensures RequiredArea(m1, h, fyk) <= RequiredArea(m2, h, fyk)
    ensures BarCount(RequiredArea(m1, h, fyk), SingleBarArea(phi))
         <= BarCount(RequiredArea(m2, h, fyk), SingleBarArea(phi))
  {
    var c := LeverArm(h) * DesignYield(fyk);
    MulPositive(LeverArm(h), DesignYield(fyk));
    var k := 1000000.0 / c;
    assert RequiredArea(m1, h, fyk) == k * m1 && RequiredArea(m2, h, fyk) == k * m2;
    MulLeftMonotone(k, m1, m2);
    BarCountMonotone(RequiredArea(m1, h, fyk), RequiredArea(m2, h, fyk), SingleBarArea(phi));
  }
}
