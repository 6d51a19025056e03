/**
 * What the moment profile and the peak shear of the beam designer amount to:
 * the shape of the station grid, linear superposition of the load cases,
 * and the exact envelope of each support type at the sampled stations.
 */
module Envelope {
  import opened RealMath
  import opened Moments

  // ---------------------------------------------------------------------
  // The station grid
  // ---------------------------------------------------------------------

  /** 100 stations, strictly increasing from 0 to the span. */
  lemma StationGrid(span: real)
    requires span > 0.0
    ensures |Stations(span)| == StationCount
    ensures Stations(span)[0] == 0.0 && Stations(span)[StationCount - 1] == span
    ensures forall i, j :: 0 <= i < j < StationCount ==> Stations(span)[i] < Stations(span)[j]
  {
    forall i, j | 0 <= i < j < StationCount
      ensures Stations(span)[i] < Stations(span)[j]
    {
      MulPositive((j - i) as real, Step(span));
      assert Station(span, j) - Station(span, i) == (j - i) as real * Step(span);
    }
  }

  /** Station `99 - i` lies as far from the right end as station `i` from the left. */
  lemma StationMirror(span: real, i: int)
    requires 0 <= i < StationCount
    ensures Station(span, StationCount - 1 - i) == span - Station(span, i)
  {
    assert span == 99.0 * Step(span);
  }

  /** The stations left of midspan are exactly the first 50: none sits on midspan. */
  lemma StationBeforeMidspan(span: real, i: int)
    requires span > 0.0 && 0 <= i < StationCount
    ensures Station(span, i) < span / 2.0 <==> i <= 49
    ensures Station(span, i) != span / 2.0
  {
    var st, r := Step(span), i as real;
    assert span / 2.0 == 49.5 * st;
    if i <= 49 {
      MulStrictMonotone(st, r, 49.5);
    } else {
      MulStrictMonotone(st, 49.5, r);
    }
  }

  /** Only the last station reaches the tip. */
  lemma StationBeforeTip(span: real, i: int)
    requires span > 0.0 && 0 <= i < StationCount
    ensures Station(span, i) < span <==> i < StationCount - 1
  {
    var st, r := Step(span), i as real;
    assert span == 99.0 * st;
    if i < 99 {
      MulStrictMonotone(st, r, 99.0);
    }
  }

  /** Every station lies on the beam. */
  lemma StationOnBeam(span: real, i: int)
    requires span > 0.0 && 0 <= i < StationCount
    ensures 0.0 <= Station(span, i) <= span
  {
    var st, r := Step(span), i as real;
    assert span == 99.0 * st;
    MulLeftMonotone(st, 0.0, r);
    MulLeftMonotone(st, r, 99.0);
  }

  // ---------------------------------------------------------------------
  // Superposition
  // ---------------------------------------------------------------------

  /** Each load case is linear in its load; a zero load contributes nothing. */
  lemma CaseLinear(s: Support, k: LoadKind, q1: real, q2: real, span: real, x: real)
    ensures CaseMoment(s, k, q1 + q2, span, x) == CaseMoment(s, k, q1, span, x) + CaseMoment(s, k, q2, span, x)
    ensures CaseShear(s, k, q1 + q2, span) == CaseShear(s, k, q1, span) + CaseShear(s, k, q2, span)
    ensures CaseMoment(s, k, 0.0, span, x) == 0.0 && CaseShear(s, k, 0.0, span) == 0.0
  {
    match (s, k)
    case (SimplySupported, Uniform) =>
      assert (q1 + q2) * x * (span - x) == q1 * x * (span - x) + q2 * x * (span - x);
    case (SimplySupported, Point) =>
    case (Cantilever, Uniform) =>
      assert (q1 + q2) * x * x == q1 * x * x + q2 * x * x;
    case (Cantilever, Point) =>
  }

  /** For non-negative loads the `> 0` guards make no difference. */
  lemma Unguarded(s: Support, qUni: real, qPoint: real, span: real, x: real)
    requires qUni >= 0.0 && qPoint >= 0.0
    ensures MomentAt(s, qUni, qPoint, span, x)
         == CaseMoment(s, Uniform, qUni, span, x) + CaseMoment(s, Point, qPoint, span, x)
    ensures PeakShear(s, qUni, qPoint, span)
         == CaseShear(s, Uniform, qUni, span) + CaseShear(s, Point, qPoint, span)
  {
    CaseLinear(s, Uniform, 0.0, 0.0, span, x);
    CaseLinear(s, Point, 0.0, 0.0, span, x);
  }

  /**
   * The design is additive in the loads: the profile and the peak shear for
   * summed loads are the sums of those for the parts. With `qUni2 == 0` and
   * `qPoint1 == 0` this is "uniform only plus point only equals both".
   */
  lemma Superposition(s: Support, qUni1: real, qPoint1: real, qUni2: real, qPoint2: real, span: real)
    requires qUni1 >= 0.0 && qPoint1 >= 0.0 && qUni2 >= 0.0 && qPoint2 >= 0.0
    ensures forall i :: 0 <= i < StationCount ==>
      Profile(s, qUni1 + qUni2, qPoint1 + qPoint2, span)[i]
      == Profile(s, qUni1, qPoint1, span)[i] + Profile(s, qUni2, qPoint2, span)[i]
    ensures PeakShear(s, qUni1 + qUni2, qPoint1 + qPoint2, span)
         == PeakShear(s, qUni1, qPoint1, span) + PeakShear(s, qUni2, qPoint2, span)
  {
    forall i | 0 <= i < StationCount
      ensures Profile(s, qUni1 + qUni2, qPoint1 + qPoint2, span)[i]
           == Profile(s, qUni1, qPoint1, span)[i] + Profile(s, qUni2, qPoint2, span)[i]
    {
      var x := Station(span, i);
      Unguarded(s, qUni1 + qUni2, qPoint1 + qPoint2, span, x);
      Unguarded(s, qUni1, qPoint1, span, x);
      Unguarded(s, qUni2, qPoint2, span, x);
      CaseLinear(s, Uniform, qUni1, qUni2, span, x);
      CaseLinear(s, Point, qPoint1, qPoint2, span, x);
    }
    Unguarded(s, qUni1 + qUni2, qPoint1 + qPoint2, span, 0.0);
    Unguarded(s, qUni1, qPoint1, span, 0.0);
    Unguarded(s, qUni2, qPoint2, span, 0.0);
    CaseLinear(s, Uniform, qUni1, qUni2, span, 0.0);
    CaseLinear(s, Point, qPoint1, qPoint2, span, 0.0);
  }

  /** With no load there is neither moment nor shear. */
  lemma Unloaded(s: Support, span: real)
    ensures forall i :: 0 <= i < StationCount ==> Profile(s, 0.0, 0.0, span)[i] == 0.0
    ensures MaxAbs(Profile(s, 0.0, 0.0, span)) == 0.0
    ensures PeakShear(s, 0.0, 0.0, span) == 0.0
  {
    MaxAbsAttained(Profile(s, 0.0, 0.0, span), 0, 0.0);
  }

  // ---------------------------------------------------------------------
  // Simply supported beam
  // ---------------------------------------------------------------------

  /** The number of steps from station `i` to the nearer support. */
  function SupportDistance(i: int): int {
    if i <= 49 then i else StationCount - 1 - i
  }

  /** The simply supported moment `k` steps from the nearer support. */
  function SimplyMomentAtDistance(qUni: real, qPoint: real, span: real, k: real): real {
    qUni * Step(span) * Step(span) * (k * (99.0 - k)) / 2.0 + qPoint * Step(span) * k / 2.0
  }

  lemma Rearrange(q: real, a: real, b: real, st: real)
    ensures q * (a * st) * (b * st) == q * st * st * (a * b)
  {}

  /** On a simply supported beam the moment depends only on the distance to the nearer support. */
  lemma SimplySupportedAt(qUni: real, qPoint: real, span: real, i: int)
    requires qUni >= 0.0 && qPoint >= 0.0 && span > 0.0 && 0 <= i < StationCount
    ensures Profile(SimplySupported, qUni, qPoint, span)[i]
         == SimplyMomentAtDistance(qUni, qPoint, span, SupportDistance(i) as real)
  {
    var st, r, x := Step(span), i as real, Station(span, i);
    Unguarded(SimplySupported, qUni, qPoint, span, x);
    StationMirror(span, i);
    StationBeforeMidspan(span, i);
    assert span - x == (99.0 - r) * st;
    Rearrange(qUni, r, 99.0 - r, st);
    if i <= 49 {
      assert CaseMoment(SimplySupported, Point, qPoint, span, x) == qPoint * st * r / 2.0;
    } else {
      assert r * (99.0 - r) == (99.0 - r) * (99.0 - (99.0 - r));
      assert CaseMoment(SimplySupported, Point, qPoint, span, x) == qPoint * st * (99.0 - r) / 2.0;
    }
  }

  /** Positions `x` and `L - x` carry the same simply supported moment, whatever the loads. */
  lemma SimplyMomentMirror(qUni: real, qPoint: real, span: real, x: real)
    ensures MomentAt(SimplySupported, qUni, qPoint, span, span - x)
         == MomentAt(SimplySupported, qUni, qPoint, span, x)
  {
    var y := span - x;
    assert span - y == x;
    assert qUni * y * (span - y) == qUni * x * (span - x);
    assert CaseMoment(SimplySupported, Point, qPoint, span, y)
        == CaseMoment(SimplySupported, Point, qPoint, span, x);
  }

  /** Stations `i` and `99 - i` carry the same simply supported moment, whatever the loads. */
  lemma SimplySupportedSymmetricAt(qUni: real, qPoint: real, span: real, i: int)
    requires 0 <= i < StationCount
    ensures Profile(SimplySupported, qUni, qPoint, span)[i]
         == Profile(SimplySupported, qUni, qPoint, span)[StationCount - 1 - i]
  {
    StationMirror(span, i);
    SimplyMomentMirror(qUni, qPoint, span, Station(span, i));
  }

  /** The simply supported moment is symmetric about midspan, whatever the loads. */
  lemma SimplySupportedSymmetric(qUni: real, qPoint: real, span: real)
    ensures forall i :: 0 <= i < StationCount ==>
      Profile(SimplySupported, qUni, qPoint, span)[i]
      == Profile(SimplySupported, qUni, qPoint, span)[StationCount - 1 - i]
  {
    forall i | 0 <= i < StationCount
      ensures Profile(SimplySupported, qUni, qPoint, span)[i]
           == Profile(SimplySupported, qUni, qPoint, span)[StationCount - 1 - i]
    {
      SimplySupportedSymmetricAt(qUni, qPoint, span, i);
    }
  }

  /** The simply supported moment a whole number of steps from a support is not negative. */
  lemma SimplyMomentAtDistanceNonNegative(qUni: real, qPoint: real, span: real, k: real)
    requires qUni >= 0.0 && qPoint >= 0.0 && span > 0.0 && 0.0 <= k <= 99.0
    ensures SimplyMomentAtDistance(qUni, qPoint, span, k) >= 0.0
  {
    var st := Step(span);
    MulNonNegative(qUni, st);
    MulNonNegative(qUni * st, st);
    MulNonNegative(k, 99.0 - k);
    MulNonNegative(qUni * st * st, k * (99.0 - k));
    MulNonNegative(qPoint, st);
    MulNonNegative(qPoint * st, k);
  }

  /** Station `i` of a simply supported beam under non-negative loads sags. */
  lemma SimplySupportedSaggingAt(qUni: real, qPoint: real, span: real, i: int)
    requires qUni >= 0.0 && qPoint >= 0.0 && span > 0.0 && 0 <= i < StationCount
    ensures Profile(SimplySupported, qUni, qPoint, span)[i] >= 0.0
  {
    SimplySupportedAt(qUni, qPoint, span, i);
    SimplyMomentAtDistanceNonNegative(qUni, qPoint, span, SupportDistance(i) as real);
  }

  /** Both load cases sag: the simply supported moment is nowhere negative. */
  lemma SimplySupportedSagging(qUni: real, qPoint: real, span: real)
    requires qUni >= 0.0 && qPoint >= 0.0 && span > 0.0
    ensures forall i :: 0 <= i < StationCount ==> Profile(SimplySupported, qUni, qPoint, span)[i] >= 0.0
  {
    forall i | 0 <= i < StationCount
      ensures Profile(SimplySupported, qUni, qPoint, span)[i] >= 0.0
    {
      SimplySupportedSaggingAt(qUni, qPoint, span, i);
    }
  }

  /** `k (99 - k)` is largest at the integers next to 49.5. */
  lemma DistanceProductBound(k: real)
    requires 0.0 <= k <= 49.0
    ensures k * (99.0 - k) <= 2450.0
  {
    MulNonNegative(49.0 - k, 50.0 - k);
    assert (49.0 - k) * (50.0 - k) == 2450.0 - k * (99.0 - k);
  }

  /** The station next to midspan carries the largest simply supported moment. */
  lemma SimplyMomentBelowPeak(qUni: real, qPoint: real, span: real, k: real)
    requires qUni >= 0.0 && qPoint >= 0.0 && span > 0.0 && 0.0 <= k <= 49.0
    ensures SimplyMomentAtDistance(qUni, qPoint, span, k) <= SimplyMomentAtDistance(qUni, qPoint, span, 49.0)
  {
    var st := Step(span);
    DistanceProductBound(k);
    MulNonNegative(qUni, st);
    MulNonNegative(qUni * st, st);
    MulLeftMonotone(qUni * st * st, k * (99.0 - k), 49.0 * (99.0 - 49.0));
    MulNonNegative(qPoint, st);
    MulLeftMonotone(qPoint * st, k, 49.0);
  }

  /** The sampled peak in closed form. */
  lemma SimplyPeakValue(qUni: real, qPoint: real, span: real)
    ensures SimplyMomentAtDistance(qUni, qPoint, span, 49.0)
         == qUni * span * span * 1225.0 / 9801.0 + qPoint * span * 49.0 / 198.0
  {
    var st := Step(span);
    assert st * 99.0 == span;
    assert qUni * st * st * 2450.0 == qUni * (st * 99.0) * (st * 99.0) * 2450.0 / 9801.0;
  }

  /**
   * The governing moment of a simply supported beam is attained at the
   * stations next to midspan. Since no station hits midspan it falls short of
   * the textbook `qUni L^2 / 8 + qPoint L / 4`, strictly once any load acts.
   */
  lemma SimplySupportedGoverningMoment(qUni: real, qPoint: real, span: real)
    requires qUni >= 0.0 && qPoint >= 0.0 && span > 0.0
    ensures MaxAbs(Profile(SimplySupported, qUni, qPoint, span))
         == qUni * span * span * 1225.0 / 9801.0 + qPoint * span * 49.0 / 198.0
    ensures MaxAbs(Profile(SimplySupported, qUni, qPoint, span))
         <= qUni * span * span / 8.0 + qPoint * span / 4.0
    ensures qUni > 0.0 || qPoint > 0.0 ==>
      MaxAbs(Profile(SimplySupported, qUni, qPoint, span))
      < qUni * span * span / 8.0 + qPoint * span / 4.0
  {
    var m := Profile(SimplySupported, qUni, qPoint, span);
    var peak := SimplyMomentAtDistance(qUni, qPoint, span, 49.0);
    SimplySupportedSagging(qUni, qPoint, span);
    forall i | 0 <= i < StationCount
      ensures Abs(m[i]) <= peak
    {
      SimplySupportedAt(qUni, qPoint, span, i);
      SimplyMomentBelowPeak(qUni, qPoint, span, SupportDistance(i) as real);
    }
    SimplySupportedAt(qUni, qPoint, span, 49);
    MaxAbsAttained(m, 49, peak);
    SimplyPeakValue(qUni, qPoint, span);
    var u, p := qUni * span * span, qPoint * span;
    MulNonNegative(qUni, span);
    MulNonNegative(qUni * span, span);
    MulNonNegative(qPoint, span);
    if qUni > 0.0 {
      MulPositive(qUni, span);
      MulPositive(qUni * span, span);
    }
    if qPoint > 0.0 {
      MulPositive(qPoint, span);
    }
  }

  /** `V_max = qUni L / 2 + qPoint / 2` for a simply supported beam. */
  lemma SimplySupportedShear(qUni: real, qPoint: real, span: real)
    requires qUni >= 0.0 && qPoint >= 0.0
    ensures PeakShear(SimplySupported, qUni, qPoint, span) == qUni * span / 2.0 + qPoint / 2.0
  {
    Unguarded(SimplySupported, qUni, qPoint, span, 0.0);
  }

  // ---------------------------------------------------------------------
  // Cantilever
  // ---------------------------------------------------------------------

  /** The cantilever point-load term is zero at every station but the tip. */
  lemma CantileverPointAtTipOnly(qPoint: real, span: real, i: int)
    requires span > 0.0 && 0 <= i < StationCount
    ensures CaseMoment(Cantilever, Point, qPoint, span, Station(span, i))
         == if i == StationCount - 1 then -qPoint * span else 0.0
  {
    StationBeforeTip(span, i);
  }

  /** The cantilever moment at station `i`. */
  lemma CantileverAt(qUni: real, qPoint: real, span: real, i: int)
    requires qUni >= 0.0 && qPoint >= 0.0 && span > 0.0 && 0 <= i < StationCount
    ensures Profile(Cantilever, qUni, qPoint, span)[i]
         == -(qUni * Station(span, i) * Station(span, i) / 2.0)
            - (if i == StationCount - 1 then qPoint * span else 0.0)
  {
    Unguarded(Cantilever, qUni, qPoint, span, Station(span, i));
    CantileverPointAtTipOnly(qPoint, span, i);
  }

  /** Station `i` of a cantilever under non-negative loads hogs. */
  lemma CantileverHoggingAt(qUni: real, qPoint: real, span: real, i: int)
    requires qUni >= 0.0 && qPoint >= 0.0 && span > 0.0 && 0 <= i < StationCount
    ensures Profile(Cantilever, qUni, qPoint, span)[i] <= 0.0
  {
    CantileverAt(qUni, qPoint, span, i);
    var x := Station(span, i);
    MulNonNegative(qUni, x);
    StationOnBeam(span, i);
    MulNonNegative(qUni * x, x);
    MulNonNegative(qPoint, span);
  }

  /** Both cantilever load cases hog: the moment is nowhere positive. */
  lemma CantileverHogging(qUni: real, qPoint: real, span: real)
    requires qUni >= 0.0 && qPoint >= 0.0 && span > 0.0
    ensures forall i :: 0 <= i < StationCount ==> Profile(Cantilever, qUni, qPoint, span)[i] <= 0.0
  {
    forall i | 0 <= i < StationCount
      ensures Profile(Cantilever, qUni, qPoint, span)[i] <= 0.0
    {
      CantileverHoggingAt(qUni, qPoint, span, i);
    }
  }

  /** No station carries more than the fixed-end moment. */
  lemma CantileverBelowFixedEnd(qUni: real, qPoint: real, span: real, i: int)
    requires qUni >= 0.0 && qPoint >= 0.0 && span > 0.0 && 0 <= i < StationCount
    ensures -Profile(Cantilever, qUni, qPoint, span)[i] <= qUni * span * span / 2.0 + qPoint * span
  {
    CantileverAt(qUni, qPoint, span, i);
    var x := Station(span, i);
    StationOnBeam(span, i);
    MulNonNegative(qPoint, span);
    MulNonNegative(span - x, span + x);
    assert span * span - x * x == (span - x) * (span + x);
    MulLeftMonotone(qUni, x * x, span * span);
    assert qUni * x * x == qUni * (x * x);
    assert qUni * span * span == qUni * (span * span);
  }

  /** The governing cantilever moment is the fixed-end moment `qUni L^2 / 2 + qPoint L`, reached at the tip station. */
  lemma CantileverGoverningMoment(qUni: real, qPoint: real, span: real)
    requires qUni >= 0.0 && qPoint >= 0.0 && span > 0.0
    ensures MaxAbs(Profile(Cantilever, qUni, qPoint, span)) == qUni * span * span / 2.0 + qPoint * span
  {
    var m := Profile(Cantilever, qUni, qPoint, span);
    var peak := qUni * span * span / 2.0 + qPoint * span;
    CantileverHogging(qUni, qPoint, span);
    forall i | 0 <= i < StationCount
      ensures Abs(m[i]) <= peak
    {
      CantileverBelowFixedEnd(qUni, qPoint, span, i);
    }
    CantileverAt(qUni, qPoint, span, StationCount - 1);
    StationGrid(span);
    assert Station(span, StationCount - 1) == span;
    MaxAbsAttained(m, StationCount - 1, peak);
  }

  /** `V_max = qUni L + qPoint` for a cantilever. */
  lemma CantileverShear(qUni: real, qPoint: real, span: real)
    requires qUni >= 0.0 && qPoint >= 0.0
    ensures PeakShear(Cantilever, qUni, qPoint, span) == qUni * span + qPoint
  {
    Unguarded(Cantilever, qUni, qPoint, span, 0.0);
  }
}
