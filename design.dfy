/**
 * The whole calculation block of the beam designer: from one set of inputs to
 * the stations, the moment profile, the governing moment and shear, the
 * reinforcement and the two checks. `Analyze` says what the block computes;
 * `Calculate` computes it the way the script does, filling arrays in place.
 */
module Design {
  import opened RealMath
  import opened Moments
  import opened Envelope
  import opened Reinforcement
  import opened Checks

  /** One set of sidebar inputs; `width`, `height`, `cover` and `phi` in mm. */
  datatype BeamInput = BeamInput(
    span: real, qUni: real, qPoint: real, support: Support,
    width: int, height: int, cover: int, phi: int, fck: int, fyk: int)

  /** The ranges and choices the input widgets offer. */
  predicate WidgetRanges(inp: BeamInput) {
    && 1.0 <= inp.span <= 20.0
    && 0.0 <= inp.qUni <= 100.0
    && 0.0 <= inp.qPoint <= 100.0
    && 100 <= inp.width <= 1000
    && 100 <= inp.height <= 1500
    && 10 <= inp.cover <= 100
    && inp.phi in {8, 10, 12, 14, 16, 20, 25}
    && inp.fck in {20, 25, 30, 35, 40}
    && inp.fyk in {500, 550}
  }

  /** Admissible inputs: within the widget ranges, with a positive effective depth. */
  predicate Admissible(inp: BeamInput) {
    WidgetRanges(inp) && EffectiveDepth(inp.height, inp.cover, inp.phi) > 0.0
  }

  /** The internal forces: stations `x`, moments `M`, `M_max` and `V_max`. */
  datatype LoadEffects = LoadEffects(stations: seq<real>, moments: seq<real>, mMax: real, vMax: real)

  /** Everything the block computes and the summary reports. */
  datatype DesignResult = DesignResult(
    loads: LoadEffects,
    asReq: real, nBars: int, asProv: real, ld: real,
    vRdC: real, shearSafe: bool, deflectionOk: bool)

  /** `ENG.py`, lines 63-82: the internal forces for one support and load set. */
  function Loads(s: Support, qUni: real, qPoint: real, span: real): (e: LoadEffects)
    ensures |e.stations| == |e.moments| == StationCount
    ensures e.mMax >= 0.0
  {
    var m := Profile(s, qUni, qPoint, span);
    LoadEffects(Stations(span), m, MaxAbs(m), PeakShear(s, qUni, qPoint, span))
  }

  /** The calculation block, as one function of the inputs. */
  function Analyze(inp: BeamInput, root: real -> real): (r: DesignResult)
    requires Admissible(inp)
    ensures r.loads == Loads(inp.support, inp.qUni, inp.qPoint, inp.span)
    ensures r.asReq >= 0.0 && r.nBars >= 0
    ensures r.asProv >= r.asReq
    ensures r.asProv - SingleBarArea(inp.phi) < r.asReq
    ensures r.ld > 0.0
    ensures r.shearSafe <==> r.loads.vMax < r.vRdC
    ensures r.deflectionOk
  {
    var loads := Loads(inp.support, inp.qUni, inp.qPoint, inp.span);
    var mMax, vMax := loads.mMax, loads.vMax;
    var asSingle := SingleBarArea(inp.phi);
    var asReq := RequiredArea(mMax, inp.height, inp.fyk);
    var n := BarCount(asReq, asSingle);
    var asProv := ProvidedArea(n, asSingle);
    var vRdC := ShearResistance(inp.width, EffectiveDepth(inp.height, inp.cover, inp.phi), asProv, root);
    ProvidedCoversRequired(asReq, asSingle);
    DeflectionAlwaysPasses(inp.support, inp.span, inp.height);
    DesignResult(
      loads, asReq, n, asProv, AnchorageLength(inp.phi, inp.fyk),
      vRdC, vMax < vRdC, DeflectionOk(inp.support, inp.span, inp.height))
  }

  /**
   * The calculation block as the script runs it: `linspace`, the in-place
   * accumulation of `M` and `V_max`, `abs(M).max()`, then the formulas.
   */
  method Calculate(inp: BeamInput, root: real -> real)
    returns (x: array<real>, m: array<real>, r: DesignResult)
    requires Admissible(inp)
    ensures fresh(x) && fresh(m)
    ensures x[..] == r.loads.stations && m[..] == r.loads.moments
    ensures r == Analyze(inp, root)
  {
    x := Linspace(inp.span);
    var vMax;
    m, vMax := MomentsAndShear(inp.support, inp.qUni, inp.qPoint, inp.span, x);
    assert m[..] == Profile(inp.support, inp.qUni, inp.qPoint, inp.span);
    var mMax := MaxAbsMoment(m);

    var asSingle := SingleBarArea(inp.phi);
    var asReq := RequiredArea(mMax, inp.height, inp.fyk);
    var nBars := BarCount(asReq, asSingle);
    var asProv := ProvidedArea(nBars, asSingle);
    var ld := AnchorageLength(inp.phi, inp.fyk);

    var d := EffectiveDepth(inp.height, inp.cover, inp.phi);
    var vRdC := ShearResistance(inp.width, d, asProv, root);
    var shearSafe := vMax < vRdC;

    var deflectionOk := DeflectionOk(inp.support, inp.span, inp.height);
    r := DesignResult(LoadEffects(x[..], m[..], mMax, vMax), asReq, nBars, asProv, ld, vRdC, shearSafe, deflectionOk);
  }

  // ---------------------------------------------------------------------
  // Properties of the whole block
  // ---------------------------------------------------------------------

  /** A simply supported beam: sagging, symmetric, sampled peak below the textbook one. */
  lemma SimplySupportedLoads(qUni: real, qPoint: real, span: real)
    requires qUni >= 0.0 && qPoint >= 0.0 && span > 0.0
    ensures var e := Loads(SimplySupported, qUni, qPoint, span);
      && (forall i :: 0 <= i < StationCount ==> e.moments[i] >= 0.0 && e.moments[i] == e.moments[StationCount - 1 - i])
      && e.mMax == qUni * span * span * 1225.0 / 9801.0 + qPoint * span * 49.0 / 198.0
      && e.mMax <= qUni * span * span / 8.0 + qPoint * span / 4.0
      && e.vMax == qUni * span / 2.0 + qPoint / 2.0
  {
    SimplySupportedSagging(qUni, qPoint, span);
    SimplySupportedSymmetric(qUni, qPoint, span);
    SimplySupportedGoverningMoment(qUni, qPoint, span);
    SimplySupportedShear(qUni, qPoint, span);
  }

  /** A cantilever: hogging throughout, governed by the fixed-end moment. */
  lemma CantileverLoads(qUni: real, qPoint: real, span: real)
    requires qUni >= 0.0 && qPoint >= 0.0 && span > 0.0
    ensures var e := Loads(Cantilever, qUni, qPoint, span);
      && (forall i :: 0 <= i < StationCount ==> e.moments[i] <= 0.0)
      && e.mMax == qUni * span * span / 2.0 + qPoint * span
      && e.vMax == qUni * span + qPoint
  {
    CantileverHogging(qUni, qPoint, span);
    CantileverGoverningMoment(qUni, qPoint, span);
    CantileverShear(qUni, qPoint, span);
  }

  /**
   * An unloaded beam gets no moment, no steel and no bars; with no steel the
   * concrete is credited with no shear resistance, so even the zero shear
   * fails the strict shear check.
   */
  lemma UnloadedDesign(inp: BeamInput, root: real -> real)
    requires Admissible(inp) && inp.qUni == 0.0 && inp.qPoint == 0.0 && IsCubeRoot(root)
    ensures Analyze(inp, root).loads.mMax == 0.0 && Analyze(inp, root).loads.vMax == 0.0
    ensures Analyze(inp, root).asReq == 0.0 && Analyze(inp, root).nBars == 0
    ensures Analyze(inp, root).asProv == 0.0 && Analyze(inp, root).vRdC == 0.0
    ensures !Analyze(inp, root).shearSafe
  {
    Unloaded(inp.support, inp.span);
    var d := EffectiveDepth(inp.height, inp.cover, inp.phi);
    ShearResistanceWithoutSteel(inp.width, d, root);
  }

  /** For every admissible beam, the shear resistance of the design is non-negative. */
  lemma DesignShearResistance(inp: BeamInput, root: real -> real)
    requires Admissible(inp) && IsCubeRoot(root)
    ensures Analyze(inp, root).vRdC >= 0.0
  {
    var r := Analyze(inp, root);
    ShearResistanceNonNegative(inp.width, EffectiveDepth(inp.height, inp.cover, inp.phi), r.asProv, root);
  }

  /**
   * 5 m simply supported under 10 kN/m: `V_max = 25`, and the governing
   * moment is 306250/9801 (about 31.247) rather than `10 * 5^2 / 8 = 31.25`.
   */
  lemma UniformSimplySupportedExample()
    ensures Loads(SimplySupported, 10.0, 0.0, 5.0).mMax == 306250.0 / 9801.0
    ensures Loads(SimplySupported, 10.0, 0.0, 5.0).vMax == 25.0
  {
    SimplySupportedLoads(10.0, 0.0, 5.0);
  }

  /**
   * 5 m simply supported under 10 kN at midspan: `V_max = 5`, and the
   * governing moment is 1225/99 (about 12.37) rather than `10 * 5 / 4 = 12.5`.
   */
  lemma PointSimplySupportedExample()
    ensures Loads(SimplySupported, 0.0, 10.0, 5.0).mMax == 1225.0 / 99.0
    ensures Loads(SimplySupported, 0.0, 10.0, 5.0).vMax == 5.0
  {
    SimplySupportedLoads(0.0, 10.0, 5.0);
  }

  /** 3 m cantilever under 10 kN/m: `M_max = 45` and `V_max = 30` exactly. */
  lemma UniformCantileverExample()
    ensures Loads(Cantilever, 10.0, 0.0, 3.0).mMax == 45.0
    ensures Loads(Cantilever, 10.0, 0.0, 3.0).vMax == 30.0
  {
    CantileverLoads(10.0, 0.0, 3.0);
  }
}
