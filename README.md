# Beam Designer Pro: the calculation block, in Dafny

This project models the structural calculation of the single-beam designer
`ENG.py`. For one reinforced-concrete beam it computes the following:

- the bending moment at 100 stations along the span, for a uniform load and a
  point load on a simply supported beam or a cantilever;
- the governing moment `M_max` and the peak shear `V_max`;
- the required steel area, the number of bars of the chosen diameter, the
  area they provide and the anchorage length;
- the concrete shear resistance `V_rd_c` and the shear check;
- the span/height deflection check;
- the horizontal positions of the bars in the cross-section drawing.

Lengths, loads, areas, moments and forces are Dafny `real`s. The section inputs
`width`, `height`, `cover`, `phi`, `fck` and `fyk` are `int`s, as the integer
widgets give them, and so is `n_bars`. Rounding is not modelled.

Modules:

- `RealMath` (`real_math.dfy`): absolute value, maximum, ceiling, pi and the
  cube root.
- `Moments` (`moments.dfy`): the station grid, the four load-case formulas
  and the imperative calculation. `Linspace` fills `x`. `AddCase` performs
  `M += ...` for one load case. `MomentsAndShear` starts from zeros and
  accumulates `M` and `V_max`. `MaxAbsMoment` is the loop behind
  `abs(M).max()`.
- `Envelope` (`envelope.dfy`): what the profile amounts to. It covers the grid
  shape, superposition, and the exact envelope of each support type.
- `Reinforcement` (`reinforcement.dfy`): sizing.
- `Checks` (`checks.dfy`): the shear and deflection checks.
- `Layout` (`layout.dfy`): the bar-placement loop of the cross-section
  drawing.
- `Design` (`design.dfy`): the whole block. `Analyze` is the function that
  specifies it. `Calculate` runs it step by step and is proved equal to it.

Behaviour of the code as written, which the model keeps:

- With 100 stations, station `i` is at `i * L / 99`, and no station lies on
  midspan. The simply supported governing moment is therefore
  `qUni L^2 * 1225/9801 + qPoint L * 49/198`, taken at stations 49 and 50. This
  is strictly below the textbook `qUni L^2/8 + qPoint L/4` once any load acts.
  For 5 m under 10 kN/m the code gives 306250/9801 ≈ 31.247, not 31.25. For
  10 kN at midspan it gives 1225/99 ≈ 12.37, not 12.5. The cantilever value
  `qUni L^2/2 + qPoint L` is exact, because the last station is the tip.
- The cantilever point-load term is nonzero only at the last station.
- `n_bars` is `ceil(As_req / As_single)` with no minimum of one. An unloaded
  beam gets 0 bars, so no bar is drawn. There is no minimum of one bar.
- With no steel, `V_rd_c` is 0. The check `V_max < V_rd_c` is strict, so an
  unloaded beam fails the shear check.
- `L / h` divides metres by millimetres. Over the input ranges (`L <= 20`,
  `h >= 100`) the ratio is at most 0.2, so the deflection check always passes.
- The width and cover ranges allow `b < 2 * cover`. Bars then run from right
  to left. `Layout.BarsInsideCover` assumes `b > 2 * cover`.

## Model

| member | source | states |
|---|---|---|
| `RealMath.Ceil` | ENG.py:95 | `int(np.ceil(r))` is the least integer not below `r`: `n >= r` and `n - 1 < r` |
| `RealMath.CubeRootOfZero` | ENG.py:100 | the cube root of 0 is 0 |
| `RealMath.CubeRootMonotone` | ENG.py:100 | `** (1/3)` is non-decreasing on non-negative arguments |
| `Moments.MaxAbs` | ENG.py:82 | `abs(M).max()` is at least every `abs(M[i])` and equals one of them |
| `Moments.Linspace` | ENG.py:63 | fills a fresh array with the 100 stations `i * L / 99` |
| `Moments.AddCase` | ENG.py:68-79 | each `M += term` / `M -= term` adds that load case's moment at every station and changes nothing else |
| `Moments.MomentsAndShear` | ENG.py:64-80 | starting from zeros, `M[i]` ends as the superposed moment of the active cases at `x[i]`; `V_max` ends as the sum of their peak shears |
| `Moments.MaxAbsMoment` | ENG.py:82 | the loop returns the largest absolute moment of the array |
| `Envelope.StationGrid` | ENG.py:63 | 100 stations, strictly increasing, from `0` to `L` |
| `Envelope.StationMirror` | ENG.py:63 | station `99 - i` is at `L - x[i]` |
| `Envelope.StationBeforeMidspan` | ENG.py:72 | `x[i] < L/2` exactly for `i <= 49`; no station is on midspan |
| `Envelope.StationBeforeTip` | ENG.py:79 | `x[i] < L` exactly for `i < 99` |
| `Envelope.StationOnBeam` | ENG.py:63 | every station is within `[0, L]` |
| `Envelope.CaseLinear` | ENG.py:67-80 | each load case's moment and shear are additive in its load; a zero load gives zero |
| `Envelope.Unguarded` | ENG.py:67-80 | for non-negative loads, the `> 0` guards do not change the moment or `V_max` |
| `Envelope.Superposition` | ENG.py:64-80 | the profile and `V_max` for summed loads are the sums for the parts, e.g. uniform only plus point only gives both |
| `Envelope.Unloaded` | ENG.py:64-82 | with both loads zero, every moment, `M_max` and `V_max` are 0 |
| `Envelope.SimplySupportedAt` | ENG.py:67-73 | the simply supported moment at a station depends only on its distance to the nearer support |
| `Envelope.SimplyMomentMirror` | ENG.py:67-72 | positions `x` and `L - x` carry the same simply supported moment, whatever the loads |
| `Envelope.SimplySupportedSymmetricAt` | ENG.py:67-72 | `M[i] == M[99 - i]` at one station, whatever the loads |
| `Envelope.SimplySupportedSymmetric` | ENG.py:67-72 | `M[i] == M[99 - i]` for every station, whatever the loads |
| `Envelope.SimplyMomentAtDistanceNonNegative` | ENG.py:67-72 | for non-negative loads, the simply supported moment between the supports is not negative |
| `Envelope.SimplySupportedSaggingAt` | ENG.py:67-72 | `M[i] >= 0` at one station for non-negative loads |
| `Envelope.SimplySupportedSagging` | ENG.py:67-72 | `M[i] >= 0` for non-negative loads |
| `Envelope.SimplySupportedGoverningMoment` | ENG.py:67-82 | `M_max = qUni L^2 1225/9801 + qPoint L 49/198`; this is at most `qUni L^2/8 + qPoint L/4`, and strictly below it once a load acts |
| `Envelope.SimplySupportedShear` | ENG.py:67-73 | `V_max = qUni L/2 + qPoint/2` |
| `Envelope.CantileverPointAtTipOnly` | ENG.py:79 | the cantilever point-load term is `-qPoint L` at the last station and 0 elsewhere |
| `Envelope.CantileverAt` | ENG.py:74-80 | the cantilever moment at station `i` is `-(qUni x^2/2)`, minus `qPoint L` at the tip |
| `Envelope.CantileverHoggingAt` | ENG.py:74-80 | `M[i] <= 0` at one station for non-negative loads |
| `Envelope.CantileverHogging` | ENG.py:74-80 | `M[i] <= 0` for non-negative loads |
| `Envelope.CantileverBelowFixedEnd` | ENG.py:74-80 | no station exceeds the fixed-end moment in magnitude |
| `Envelope.CantileverGoverningMoment` | ENG.py:74-82 | `M_max = qUni L^2/2 + qPoint L` exactly |
| `Envelope.CantileverShear` | ENG.py:74-80 | `V_max = qUni L + qPoint` |
| `Reinforcement.LeverArm` | ENG.py:86-87 | the lever arm `0.9 h / 1000` is positive |
| `Reinforcement.DesignYield` | ENG.py:91 | `f_yk / 1.15 * 1e6` is positive |
| `Reinforcement.SingleBarArea` | ENG.py:93 | `pi phi_m^2 / 4` is positive |
| `Reinforcement.RequiredArea` | ENG.py:94 | `As_req` is non-negative for a non-negative moment, and zero exactly when `M_max` is zero |
| `Reinforcement.BarCount` | ENG.py:95 | `n_bars * As_single >= As_req` and `(n_bars - 1) * As_single < As_req`; `n_bars >= 0` when `As_req >= 0` |
| `Reinforcement.BarCountIsLeast` | ENG.py:95 | any count whose area covers `As_req` is at least `n_bars` |
| `Reinforcement.ProvidedCoversRequired` | ENG.py:95-96 | `As_req <= As_prov < As_req + As_single` |
| `Reinforcement.BarCountMonotone` | ENG.py:95 | a larger required area never gives fewer bars |
| `Reinforcement.SizingMonotone` | ENG.py:94-95 | for a fixed section and steel, a larger `M_max` never lowers `As_req` or `n_bars` |
| `Reinforcement.AnchorageLength` | ENG.py:97 | `ld = phi f_yk / 5.6` is positive |
| `Checks.ReinforcementRatio` | ENG.py:100 | `100 As_prov / (b d)` is non-negative for non-negative steel |
| `Checks.ShearResistanceNonNegative` | ENG.py:100 | `V_rd_c >= 0` when `d > 0` |
| `Checks.ShearResistanceWithoutSteel` | ENG.py:100 | with no steel provided, `V_rd_c == 0` |
| `Checks.ShearResistanceMonotone` | ENG.py:100 | `V_rd_c` is non-decreasing in `As_prov` |
| `Checks.DeflectionOk` | ENG.py:104-105 | a ratio `L/h` of at most 7 passes for either support, a ratio above 20 fails for either, and every `0 < L <= 20` with `h >= 100` passes |
| `Checks.DeflectionAlwaysPasses` | ENG.py:104-105 | for `0 < L <= 20` and `h >= 100` (the widget ranges of lines 49 and 54), `L/h <= 0.2` and the check passes |
| `Layout.BarPositions` | ENG.py:141-144 | one position per bar and none for `n_bars <= 0`; a single bar at `b/2`; for `n_bars > 1` the first at `cover`, the last at `b - cover`, with equal gaps `(b - 2 cover)/(n_bars - 1)` |
| `Layout.BarEnds` | ENG.py:141-143 | for `n_bars > 1` the outer bars are at `cover` and `b - cover` |
| `Layout.BarGap` | ENG.py:141-143 | neighbouring bars are one spacing apart |
| `Layout.BarsInsideCover` | ENG.py:141-143 | when `b > 2 cover`, positions increase strictly and stay within `[cover, b - cover]` |
| `Design.Loads` | ENG.py:63-82 | 100 stations, 100 moments, and a non-negative `M_max` |
| `Design.Analyze` | ENG.py:63-105 | for admissible inputs: `As_req >= 0`, `n_bars >= 0`, `As_req <= As_prov < As_req + As_single`, `ld > 0`, shear OK iff `V_max < V_rd_c`, deflection OK |
| `Design.Calculate` | ENG.py:63-105 | the step-by-step calculation returns the arrays `x` and `M` and a result equal to `Analyze` |
| `Design.SimplySupportedLoads` | ENG.py:67-82 | simply supported: sagging, symmetric, exact sampled `M_max` below the textbook peak, `V_max = qUni L/2 + qPoint/2` |
| `Design.CantileverLoads` | ENG.py:74-82 | cantilever: hogging, `M_max = qUni L^2/2 + qPoint L`, `V_max = qUni L + qPoint` |
| `Design.UnloadedDesign` | ENG.py:63-101 | no load gives `M_max = V_max = As_req = As_prov = V_rd_c = 0` and 0 bars, and the shear check fails |
| `Design.DesignShearResistance` | ENG.py:99-100 | the design's `V_rd_c` is non-negative |
| `Design.UniformSimplySupportedExample` | ENG.py:67-82 | 5 m, 10 kN/m, simply supported: `M_max = 306250/9801`, `V_max = 25` |
| `Design.PointSimplySupportedExample` | ENG.py:71-82 | 5 m, 10 kN at midspan: `M_max = 1225/99`, `V_max = 5` |
| `Design.UniformCantileverExample` | ENG.py:74-82 | 3 m cantilever, 10 kN/m: `M_max = 45`, `V_max = 30` |

## Left out

- The Streamlit page (lines 16-58 and 110-118) is left out: page setup, dark mode, sidebar widgets and the result summary. The widget ranges appear only as `Design.WidgetRanges`.
- The locale function `tr` is left out. It only chooses display strings.
- The matplotlib plotting is left out. Of the cross-section drawing, only the horizontal bar positions are modelled. The vertical position `cover` and the radius `phi / 2` of each circle are not.
- The PDF and Excel export (FPDF, BytesIO, pandas) is left out. It is I/O through libraries whose code is not part of this model.
- IEEE floating point is not modelled. numpy's `linspace`, `piecewise`, `ceil` and `** (1/3)` are modelled over the reals. `np.pi` is the constant `RealMath.Pi`, and only its positivity is used.
- The cube root is a function parameter `root`. `RealMath.IsCubeRoot` requires it to be non-negative and to cube back to its argument on non-negative reals. The exponent is the floating-point value of `1/3`, and that rounding is ignored.
- Sections with `d = h - cover - phi/2 <= 0` are excluded by `Design.Admissible` and by the `requires` of `Checks.ShearResistance`. The widget ranges allow them. For `d = 0` (for example `h = 104`, `cover = 100`, `phi = 8`) the script stops with a ZeroDivisionError at line 100. For `d < 0` with steel provided, the power at line 100 is a complex number and the comparison at line 101 stops the script with a TypeError. For `d < 0` with no steel, `V_rd_c` is `-0.0` and the script carries on; the model does not cover that case either.
- `f_cd` and `b_m` (lines 85 and 90) are computed but never used, so they are not modelled. `f_ck` is kept only as an input field.
- The script's branching on `beam_type` and then on each load becomes one `AddCase` per active load. The case formula is chosen by the support type.
