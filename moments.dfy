/**
 * The internal-force block of the beam designer: the grid of 100 stations
 * along the span, the bending moment at each station built up one load case
 * at a time, the peak shear accumulated alongside, and the governing moment
 * taken as the largest absolute moment over the stations.
 *
 * Units are those of the source: span and stations in m, the uniform load in
 * kN/m, the point load in kN, moments in kNm and shear in kN.
 */
module Moments {
  import opened RealMath

  datatype Support = SimplySupported | Cantilever

  /** The two load cases the designer superposes. */
  datatype LoadKind = Uniform | Point

  /** `np.linspace(0, L, 100)` samples this many stations. */
  const StationCount: nat := 100

  /** The distance between neighbouring stations. */
  function Step(span: real): real {
    span / (StationCount - 1) as real
  }

  /** Station `i` of `np.linspace(0, span, 100)`. */
  function Station(span: real, i: int): real {
    i as real * Step(span)
  }

  function Stations(span: real): seq<real> {
    seq(StationCount, i => Station(span, i))
  }

  /**
   * The moment one load case of magnitude `q` causes at abscissa `x`
   * (sagging positive); the cantilever is fixed at `x = 0`, the simply
   * supported point load sits at midspan and the cantilever one at the tip.
   */
  function CaseMoment(s: Support, k: LoadKind, q: real, span: real, x: real): real {
    match (s, k)
    case (SimplySupported, Uniform) => q * x * (span - x) / 2.0
    case (SimplySupported, Point) =>
      if x < span / 2.0 then q * x / 2.0 else q * (span - x) / 2.0
    case (Cantilever, Uniform) => -(q * x * x / 2.0)
    case (Cantilever, Point) => if x < span then 0.0 else -q * span
  }

  /** The peak shear one load case contributes. */
  function CaseShear(s: Support, k: LoadKind, q: real, span: real): real {
    match (s, k)
    case (SimplySupported, Uniform) => q * span / 2.0
    case (SimplySupported, Point) => q / 2.0
    case (Cantilever, Uniform) => q * span
    case (Cantilever, Point) => q
  }

  /** The superposed moment at `x`: a load case is added only when its load is positive. */
  function MomentAt(s: Support, qUni: real, qPoint: real, span: real, x: real): real {
    (if qUni > 0.0 then CaseMoment(s, Uniform, qUni, span, x) else 0.0)
    + (if qPoint > 0.0 then CaseMoment(s, Point, qPoint, span, x) else 0.0)
  }

  /** `V_max`: the sum of the peak shears of the active load cases. */
  function PeakShear(s: Support, qUni: real, qPoint: real, span: real): real {
    (if qUni > 0.0 then CaseShear(s, Uniform, qUni, span) else 0.0)
    + (if qPoint > 0.0 then CaseShear(s, Point, qPoint, span) else 0.0)
  }

  /** The moment at every station. */
  function Profile(s: Support, qUni: real, qPoint: real, span: real): seq<real> {
    seq(StationCount, i => MomentAt(s, qUni, qPoint, span, Station(span, i)))
  }

  /** `abs(M).max()`: the largest absolute value in a non-empty sequence. */
  function MaxAbs(m: seq<real>): (r: real)
    requires |m| > 0
    ensures forall i :: 0 <= i < |m| ==> Abs(m[i]) <= r
    ensures exists i :: 0 <= i < |m| && r == Abs(m[i])
  {
    if |m| == 1 then Abs(m[0])
    else
      var r := Max(MaxAbs(m[..|m| - 1]), Abs(m[|m| - 1]));
      assert forall i :: 0 <= i < |m| - 1 ==> m[..|m| - 1][i] == m[i];
      r
  }

  /** A bound that is attained is the largest absolute value. */
  lemma MaxAbsAttained(m: seq<real>, k: int, v: real)
    requires 0 <= k < |m| && Abs(m[k]) == v
    requires forall i :: 0 <= i < |m| ==> Abs(m[i]) <= v
    ensures MaxAbs(m) == v
  {
    var j :| 0 <= j < |m| && MaxAbs(m) == Abs(m[j]);
  }

  // ---------------------------------------------------------------------
  // The imperative calculation
  // ---------------------------------------------------------------------

  /** `x = np.linspace(0, L, 100)`. */
  method Linspace(span: real) returns (x: array<real>)
    ensures fresh(x)
    ensures x[..] == Stations(span)
  {
    x := new real[StationCount];
    var step := span / (StationCount - 1) as real;
    for i := 0 to StationCount
      invariant forall j :: 0 <= j < i ==> x[j] == Station(span, j)
    {
      x[i] := i as real * step;
    }
  }

  /** `M += <term>` (or `M -= <term>`) for one load case, station by station. */
  method AddCase(m: array<real>, x: array<real>, s: Support, k: LoadKind, q: real, span: real)
    requires m.Length == x.Length && m != x
    modifies m
    ensures forall i :: 0 <= i < m.Length ==> m[i] == old(m[i]) + CaseMoment(s, k, q, span, x[i])
  {
    for i := 0 to m.Length
      invariant forall j :: 0 <= j < i ==> m[j] == old(m[j]) + CaseMoment(s, k, q, span, x[j])
      invariant forall j :: i <= j < m.Length ==> m[j] == old(m[j])
    {
      m[i] := m[i] + CaseMoment(s, k, q, span, x[i]);
    }
  }

  /**
   * Starts from `M = np.zeros_like(x)` and `V_max = 0`, then adds the uniform
   * case and the point case when their loads are positive.
   */
  method MomentsAndShear(s: Support, qUni: real, qPoint: real, span: real, x: array<real>)
    returns (m: array<real>, vMax: real)
    ensures fresh(m) && m.Length == x.Length
    ensures forall i :: 0 <= i < m.Length ==> m[i] == MomentAt(s, qUni, qPoint, span, x[i])
    ensures vMax == PeakShear(s, qUni, qPoint, span)
  {
    m := new real[x.Length](_ => 0.0);
    vMax := 0.0;
    if qUni > 0.0 {
      AddCase(m, x, s, Uniform, qUni, span);
      vMax := vMax + CaseShear(s, Uniform, qUni, span);
    }
    if qPoint > 0.0 {
      AddCase(m, x, s, Point, qPoint, span);
      vMax := vMax + CaseShear(s, Point, qPoint, span);
    }
  }

  /** `M_max = abs(M).max()`. */
  method MaxAbsMoment(m: array<real>) returns (mMax: real)
    requires m.Length > 0
    ensures mMax == MaxAbs(m[..])
  {
    mMax := Abs(m[0]);
    for i := 1 to m.Length
      invariant mMax == MaxAbs(m[..i])
    {
      assert m[..i + 1][..i] == m[..i];
      mMax := Max(mMax, Abs(m[i]));
    }
    assert m[..m.Length] == m[..];
  }
}
