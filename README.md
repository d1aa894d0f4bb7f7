# OMShadingGradient: the per-sample gradient shading function

This project models the core of `OMShadingGradient.swift` from
OMCircularProgress: the shading function a multi-stop gradient hands to the
rendering pipeline, and the normalisation the gradient's constructor does
before building it.

- `ShadingFunction` (shading_function.dfy) is the closure that
  `ShadingFunctionCreate` returns. It reads the input parameter `inData[0]`
  and remaps it with the slope function to get `alpha`. It then scans the
  ordered stops with the bracket `stop1`/`stop2` and the cursor
  `positionIndex`; `ScanStops` holds that `while` loop. Finally `Evaluate`
  writes four components into the `outData` buffer, an `array<real>`. They
  are either a boundary stop's color verbatim (its alpha included) or the
  interpolated red, green and blue with alpha forced to 1.0. The functions
  `BracketEnd`, `Locate`, `LocalParameter`, `Shade` and `Sample` specify the
  scan and the written color declaratively, and the two methods are proved
  against them.
- `ShadingProperties` (shading_properties.dfy) proves what the shading
  function promises for every input. It covers the single-color and
  single-location cases, the three output cases, opacity of interpolated
  samples, the bracket property on monotonic positions, and both boundary
  clamps. It also checks worked gradients (red to blue, and red, green, blue
  at 0, 0.5, 1).
- `Gradient` (gradient.dfy) is the `OMShadingGradient` value. It is a class
  whose constructor stores the configuration and duplicates a lone color.
  The constructor then sets `monotonicLocations` to the caller's locations
  when present and non-empty, and otherwise to `monotonic(colors.count)` of
  the caller's own color count. `InterpolationFor` is the
  `functionType` switch, and `ShadingGradient.ShadingFunction` evaluates one
  sample of the gradient with the selected law.

Positions, `alpha` and color components are `real`; a color is a sequence
of four reals. The slope function, the three interpolation laws
(`UIColor.lerp`, `eerp`, `coserp`) and `monotonic` are defined outside this
file, so they are parameters of the model.

The scan indexes the locations by color index and never compares the two
counts (the TODO at line 249). The evaluator therefore requires
`ScanDefined`: at least one color and one location, and either as many
locations as colors, or one location for two colors (the second position
then defaults to 1.0).

## Model

| member | source | states |
|---|---|---|
| ShadingFunction.ScanStops | OMCircularProgressView/OMGradientLayer/OMShadingGradient.swift:48-81 | The scan ends on the bracket `Locate` describes. With two or more colors, `2 <= positionIndex <= colors.count` holds at exit. Stop1 is the stop at `positionIndex-2` and stop2 the stop at `positionIndex-1`. Either `positionIndex == colors.count` or `alpha <= stop2Position`. With one color, `positionIndex` is 1 and stop2 equals stop1. The loop invariants keep the bracket two adjacent stops throughout. |
| ShadingFunction.BracketEnd | OMCircularProgressView/OMGradientLayer/OMShadingGradient.swift:75-81 | The scan's final stop2 index is the first stop from index 1 on whose position is not below `alpha`, or the last stop when there is none. Every stop it passes lies strictly below `alpha`. |
| ShadingFunction.Locate | OMCircularProgressView/OMGradientLayer/OMShadingGradient.swift:50-81 | Both bracket colors are colors of the gradient. |
| ShadingFunction.LocalParameter | OMCircularProgressView/OMGradientLayer/OMShadingGradient.swift:103-106 | In the interpolation branch `stop1Position < alpha < stop2Position`, so the denominator is positive. `newPosition` lies strictly between 0 and 1 and maps back to `alpha` along the interval. |
| ShadingFunction.Shade | OMCircularProgressView/OMGradientLayer/OMShadingGradient.swift:83-118 | At or below stop1 the output is stop1's color verbatim, alpha included. Otherwise at or above stop2 it is stop2's color verbatim. Strictly between, it is the interpolation's red, green and blue at a local parameter in (0, 1), with alpha exactly 1.0. |
| ShadingFunction.Sample | OMCircularProgressView/OMGradientLayer/OMShadingGradient.swift:47-120 | The color written for an input is one of the gradient's colors unchanged, or has alpha 1.0. |
| ShadingFunction.Evaluate | OMCircularProgressView/OMGradientLayer/OMShadingGradient.swift:42-121 | `outData[0..3]` become the sample color `Sample` gives for `inData[0]`, and every other slot of the buffer is unchanged. |
| ShadingProperties.SingleColorIsConstant | OMCircularProgressView/OMGradientLayer/OMShadingGradient.swift:69-101 | With a single color, every input yields that color's four components. |
| ShadingProperties.SingleLocationSecondStopAtOne | OMCircularProgressView/OMGradientLayer/OMShadingGradient.swift:60-67 | With two colors and one location, the bracket is (location 0, color 0) and (1.0, color 1), not `locations[1]`. |
| ShadingProperties.SampleCases | OMCircularProgressView/OMGradientLayer/OMShadingGradient.swift:83-118 | At or below stop1 the output is stop1's color, alpha included. Otherwise at or above stop2 it is stop2's color. Strictly between, it is the interpolation's red, green and blue at a local parameter in (0, 1), with alpha exactly 1.0. |
| ShadingProperties.AlphaIndependentOfLaw | OMCircularProgressView/OMGradientLayer/OMShadingGradient.swift:103-118 | The interpolation law never changes the alpha component, and outside the open bracket it changes nothing. |
| ShadingProperties.InRangeIsBracketed | OMCircularProgressView/OMGradientLayer/OMShadingGradient.swift:75-81 | On non-decreasing positions, an `alpha` above the first stop and not above the last one gets `stop1Position < alpha <= stop2Position`. |
| ShadingProperties.AtOrBelowFirstStop | OMCircularProgressView/OMGradientLayer/OMShadingGradient.swift:83-91 | On non-decreasing positions, an `alpha` at or below the first location yields the first color, alpha included. |
| ShadingProperties.AtOrAboveLastStop | OMCircularProgressView/OMGradientLayer/OMShadingGradient.swift:93-101 | On non-decreasing positions, an `alpha` above the last stop yields the last color. An `alpha` equal to the last stop does too when the stop before it lies strictly lower. |
| ShadingProperties.AtLastPositionFirstSharingStop | OMCircularProgressView/OMGradientLayer/OMShadingGradient.swift:75-101 | On non-decreasing positions, when `alpha` equals the last position and stop k (k >= 1) is the first stop from index 1 on at that position, the scan stops with stop2 at k and the output is `colors[k]`. That is the last color only when k is the last index. |
| ShadingProperties.CoincidentLastStops | OMCircularProgressView/OMGradientLayer/OMShadingGradient.swift:75-101 | Red, green, blue at 0, 1, 1: the parameter 1.0 yields green, not blue. |
| ShadingProperties.RedToBlueLinear | OMCircularProgressView/OMGradientLayer/OMShadingGradient.swift:83-118 | Red to blue over [0, 1] with a linear law gives red at 0, blue at 1, and (0.5, 0, 0.5, 1.0) at 0.5. |
| ShadingProperties.ThreeStopMidpoint | OMCircularProgressView/OMGradientLayer/OMShadingGradient.swift:75-118 | Red, green, blue at 0, 0.5, 1: 0.75 lands in the green-to-blue bracket at local parameter 0.5 and gives their midpoint. |
| Gradient.InterpolationFor | OMCircularProgressView/OMGradientLayer/OMShadingGradient.swift:264-275 | `.Linear` selects `lerp`, `.Exponential` selects `eerp` and `.Cosine` selects `coserp`. |
| Gradient.NormalizedColors | OMCircularProgressView/OMGradientLayer/OMShadingGradient.swift:213-219 | A one-element list becomes two stops; any other list is kept. A non-empty list ends with at least two stops, the same set of colors, the same first color and the same last color. |
| Gradient.ChosenLocations | OMCircularProgressView/OMGradientLayer/OMShadingGradient.swift:242-253 | The caller's locations are chosen when present and non-empty. When `monotonic` returns as many positions as asked, the choice is never empty, so the first location the scan reads (line 52) exists. |
| Gradient.ShadingGradient.constructor | OMCircularProgressView/OMGradientLayer/OMShadingGradient.swift:192-253 | A one-element `colors` becomes `[c, c]`; any other list is kept. `monotonicLocations` is the caller's `locations` when present and non-empty, and otherwise `monotonic` of the caller's color count. The geometry, extension flags, types and slope function are stored as given. |
| Gradient.ShadingGradient.ShadingFunction | OMCircularProgressView/OMGradientLayer/OMShadingGradient.swift:263-280 | One call writes the sample of the gradient's colors and chosen locations, under its slope function and the law its function type selects, into `outData[0..3]`. Every other slot is unchanged. |
| Gradient.ChosenLocationsFitScan | OMCircularProgressView/OMGradientLayer/OMShadingGradient.swift:242-253 | With default locations, and a `monotonic` that returns as many positions as asked, the constructor's colors and locations meet the scan's requirement. A lone color gives one location for two stops. With explicit non-empty locations it holds for a lone color, and for several colors when there is a location for each. |
| Gradient.LoneColorGradient | OMCircularProgressView/OMGradientLayer/OMShadingGradient.swift:214-219 | One color c with default location [p] gives stops (p, c) and (1.0, c). Outside (p, 1.0) a sample is c. Inside, it is the interpolation of c with itself, made opaque. Under a law that returns c for c and c, a sample is c exactly when c is opaque or the sample lies outside (p, 1.0). |
| Gradient.LoneTranslucentColorTurnsOpaque | OMCircularProgressView/OMGradientLayer/OMShadingGradient.swift:113-118 | A lone color with alpha 0.5 comes out with alpha 1.0 in the middle of the gradient. |

## Behaviour of the code worth knowing

- A parameter equal to the last position does not always give the last
  color. When several stops share that position, the scan stops at the
  first of them (from index 1 on), and the output is that stop's color
  (`AtLastPositionFirstSharingStop`, `CoincidentLastStops`).
- A lone color is duplicated into two stops. With default locations it then
  has one location for two stops, so the second stop sits at 1.0. Between
  the two stops the interpolation branch runs and forces alpha to 1.0. A
  translucent lone color is therefore opaque in the middle and translucent
  at the ends (`LoneColorGradient`, `LoneTranslucentColorTurnsOpaque`). The
  evaluator's own single-color branch (lines 69-73) is reached only by a
  direct call with one color, never through the constructor.
- The interpolation branch cannot divide by zero, even when two stops share
  a position. It runs only when `stop1Position < alpha < stop2Position`
  (`LocalParameter`).
- The `assert(colors.count >= 2)` at line 211 contradicts the duplication
  branch at line 214. The model follows the runtime behaviour: the
  constructor accepts any color list, and the evaluator states what it
  needs.
- `monotonic` is called with the caller's color count, not the duplicated
  one (line 252). For a lone color it is asked for one position.
- No check is made that explicit locations are non-decreasing or as many as
  the colors. The bracket and clamp lemmas assume non-decreasing positions
  (`Monotonic`).

## Left out

- ShadingFunction.Evaluate: requires `ScanDefined` for every input. The code only fails when the scan actually reaches a missing location, which depends on `alpha`; the model requires enough locations for any `alpha`.
- `ShadingCallback` (lines 123-128): it recovers the gradient from a raw pointer inside a C callback, which is foreign-interface plumbing.
- `CGFunction` and `CGShading` (lines 282-316): they create CoreGraphics objects. The geometry fields they pass through are stored by the constructor and nothing more.
- The color-space checks (lines 221-234): they depend on `UIColor.colorSpace`, and they only assert and print, with no conversion.
- The bodies of `UIColor.lerp`, `eerp` and `coserp`, the easing functions and `monotonic`: they are not defined in this file. They are function parameters. `monotonic` is assumed only to return as many positions as asked for, and only where a lemma says so.
- The two convenience initialisers (lines 146-190): they forward to the designated initialiser, which is modelled. The axial one (lines 146-166) fixes both radii to 0 and the gradient type to `.Axial`; the radial one (lines 168-190) passes the caller's radii and fixes the gradient type to `.Radial`.
- The `colorSpace` constant (line 141): it is a fixed device RGB space passed only to CoreGraphics.
- Floating-point rounding of `CGFloat` and the `Double` conversions around the slope function: the model reasons over `real`.
- `DEBUG_VERBOSE` printing (lines 85-110, 255-260).
- The `lazy var` caching of `shadingFunction`: the model evaluates the selected law directly on each call.
