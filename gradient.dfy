/**
 * The gradient value (`OMShadingGradient` in OMShadingGradient.swift): its
 * constructor normalises the colors and chooses the stop locations the
 * shading function will read, and `ShadingFunction` selects the
 * interpolation law for the gradient's function type and evaluates one
 * sample.
 */
module Gradient {
  import opened ShadingFunction

  /** The interpolation law a gradient is built with. */
  datatype GradientFunction = Linear | Exponential | Cosine

  /** Axial (linear geometry) or radial (circular geometry). */
  datatype GradientType = Axial | Radial

  datatype Point = Point(x: real, y: real)

  datatype Option<T> = None | Some(value: T)

  /**
   * The interpolator each function type selects: the linear, exponential
   * and cosine laws are passed in, since they are defined outside this file.
   */
  function InterpolationFor(functionType: GradientFunction, lerp: Interpolation,
                            eerp: Interpolation, coserp: Interpolation): (f: Interpolation)
    ensures functionType == Linear ==> f == lerp
    ensures functionType == Exponential ==> f == eerp
    ensures functionType == Cosine ==> f == coserp
  {
    match functionType
    case Linear => lerp
    case Exponential => eerp
    case Cosine => coserp
  }

  /**
   * The colors a gradient keeps: a lone color is duplicated, any other list
   * is kept. A non-empty list becomes at least two stops with the same
   * colors, the same first and the same last.
   */
  function NormalizedColors(colors: seq<Color>): (r: seq<Color>)
    ensures |colors| >= 1 ==> |r| >= 2 && r[0] == colors[0] && r[|r| - 1] == colors[|colors| - 1]
    ensures forall c :: c in r <==> c in colors
    ensures |colors| != 1 ==> r == colors
  {
    if |colors| == 1 then [colors[0], colors[0]] else colors
  }

  /**
   * The locations a gradient's shading function reads: the caller's, when
   * present and non-empty, otherwise `monotonic` of the number of colors the
   * caller passed (before any duplication). The choice is never empty when
   * `monotonic` returns as many positions as it is asked for, so the
   * shading function's first location always exists.
   */
  function ChosenLocations(locations: Option<seq<real>>, colorCount: nat,
                           monotonic: nat -> seq<real>): (r: seq<real>)
    ensures locations.Some? && |locations.value| > 0 ==> r == locations.value
    ensures colorCount >= 1 && |monotonic(colorCount)| == colorCount ==> |r| >= 1
  {
    if locations.Some? && |locations.value| > 0 then locations.value else monotonic(colorCount)
  }

  class ShadingGradient {
    var monotonicLocations: seq<real>
    const colors: seq<Color>
    const locations: Option<seq<real>>
    const startPoint: Point
    const endPoint: Point
    const startRadius: real
    const endRadius: real
    const extendsPastStart: bool
    const extendsPastEnd: bool
    const slopeFunction: real -> real
    const functionType: GradientFunction
    const gradientType: GradientType

    /**
     * Stores the geometry and configuration, duplicates a lone color, and
     * chooses the locations: the caller's when present and non-empty,
     * otherwise `monotonic(|colors|)` of the caller's color count.
     */
    constructor (colors: seq<Color>, locations: Option<seq<real>>,
                 startPoint: Point, startRadius: real, endPoint: Point, endRadius: real,
                 extendStart: bool, extendEnd: bool, gradientType: GradientType,
                 functionType: GradientFunction, slopeFunction: real -> real,
                 monotonic: nat -> seq<real>)
      ensures this.colors == NormalizedColors(colors)
      ensures monotonicLocations == ChosenLocations(locations, |colors|, monotonic)
      ensures this.locations == locations
      ensures this.startPoint == startPoint && this.endPoint == endPoint
      ensures this.startRadius == startRadius && this.endRadius == endRadius
      ensures extendsPastStart == extendStart && extendsPastEnd == extendEnd
      ensures this.gradientType == gradientType && this.functionType == functionType
      ensures this.slopeFunction == slopeFunction
    {
      this.locations := locations;
      this.startPoint := startPoint;
      this.endPoint := endPoint;
      this.startRadius := startRadius;
      this.endRadius := endRadius;
      if |colors| == 1 {
        var color := colors[0];
        this.colors := [color, color];
      } else {
        this.colors := colors;
      }
      this.slopeFunction := slopeFunction;
      this.functionType := functionType;
      this.gradientType := gradientType;
      this.extendsPastStart := extendStart;
      this.extendsPastEnd := extendEnd;
      monotonicLocations := [];
      new;
      if locations.Some? {
        if |locations.value| > 0 {
          monotonicLocations := locations.value;
        }
      }
      if |monotonicLocations| == 0 {
        monotonicLocations := monotonic(|colors|);
      }
    }

    /**
     * One evaluation of the gradient's shading function: the interpolator
     * chosen by the function type, over the gradient's colors and chosen
     * locations, with its slope function.
     */
    method ShadingFunction(inData: seq<real>, outData: array<real>,
                           lerp: Interpolation, eerp: Interpolation, coserp: Interpolation)
      requires ScanDefined(colors, monotonicLocations)
      requires |inData| >= 1 && outData.Length >= 4
      modifies outData
      ensures outData[..4] ==
        Sample(colors, monotonicLocations, slopeFunction,
               InterpolationFor(functionType, lerp, eerp, coserp), inData[0])
      ensures outData[4..] == old(outData[4..])
    {
      var interpolationFunction := InterpolationFor(functionType, lerp, eerp, coserp);
      Evaluate(colors, monotonicLocations, slopeFunction, interpolationFunction, inData, outData);
    }
  }

  /**
   * The constructor's choice fits the scan: with default locations (absent
   * or empty) and a `monotonic` that returns as many positions as it is
   * asked for, every non-empty color list gives inputs the shading function
   * can read. A lone color yields one location for two stops, the case
   * where the second position defaults to 1.0. With explicit locations it
   * holds for a lone color, and for several colors when there is a
   * location for each.
   */
  lemma ChosenLocationsFitScan(colors: seq<Color>, locations: Option<seq<real>>,
                               monotonic: nat -> seq<real>)
    requires |colors| >= 1 && |monotonic(|colors|)| == |colors|
    ensures
      var cs, ls := NormalizedColors(colors), ChosenLocations(locations, |colors|, monotonic);
      (locations.None? || |locations.value| == 0) ==> ScanDefined(cs, ls)
    ensures
      var cs, ls := NormalizedColors(colors), ChosenLocations(locations, |colors|, monotonic);
      |colors| == 1 && (locations.None? || |locations.value| == 0) ==> |ls| == 1 && |cs| == 2
    ensures
      var cs, ls := NormalizedColors(colors), ChosenLocations(locations, |colors|, monotonic);
      locations.Some? && |locations.value| > 0 && (|colors| == 1 || |locations.value| >= |colors|) ==>
        ScanDefined(cs, ls)
  {
  }

  /**
   * A gradient built from one color and default locations at [p]: the
   * stops are (p, c) and (1.0, c), so samples at or below p and at or above
   * 1.0 are c itself, and samples strictly between are the interpolation
   * of c with itself, made opaque. Under a law that returns c for c and c,
   * a sample is c exactly when c is opaque or the sample lies outside (p, 1.0).
   */
  lemma LoneColorGradient(c: Color, p: real, slope: real -> real, interp: Interpolation, x: real)
    ensures
      var cs, ls := NormalizedColors([c]), [p];
      var alpha, out := slope(x), Sample(cs, ls, slope, interp, x);
      ScanDefined(cs, ls) &&
      (alpha <= p || alpha >= 1.0 ==> out == c) &&
      (p < alpha < 1.0 ==>
         out[..3] == interp(c, c, LocalParameter(p, 1.0, alpha))[..3] && out[3] == 1.0)
    ensures
      var alpha, out := slope(x), Sample(NormalizedColors([c]), [p], slope, interp, x);
      (forall t :: interp(c, c, t) == c) ==> (out == c <==> c[3] == 1.0 || !(p < alpha < 1.0))
  {
  }

  /**
   * A translucent lone color over default locations at [0.0] turns opaque
   * inside the gradient, even under a law that returns c for c and c.
   */
  lemma LoneTranslucentColorTurnsOpaque()
    ensures
      var c: Color := [1.0, 0.0, 0.0, 0.5];
      var keep: Interpolation := (a: Color, b: Color, t: real) => a;
      Sample(NormalizedColors([c]), [0.0], x => x, keep, 0.5) == [1.0, 0.0, 0.0, 1.0] != c
  {
  }
}
