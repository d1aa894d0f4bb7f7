/**
 * The per-sample shading function of a multi-stop gradient
 * (`ShadingFunctionCreate` in OMShadingGradient.swift): the incoming
 * parameter is remapped by the slope function, the ordered stops are scanned
 * for the bracketing pair, and four color components are written to the
 * output buffer, either a boundary stop's color verbatim or an opaque
 * interpolation between the two bracketing stops.
 */
module ShadingFunction {

  /** A color as its four device-RGB components: red, green, blue, alpha. */
  type Color = c: seq<real> | |c| == 4 witness [0.0, 0.0, 0.0, 0.0]

  /** An interpolation law: blends two colors at a local parameter. */
  type Interpolation = (Color, Color, real) -> Color

  /** The two stops the scan settles on: stop1 and stop2. */
  datatype Bracket = Bracket(position1: real, color1: Color, position2: real, color2: Color)

  /**
   * What the scan needs of its inputs: a first color and a first location,
   * and a location for every stop the scan may visit. The scan indexes the
   * locations by color index and never compares the two counts; the one
   * tolerated shortfall is a single location for two colors, where the
   * second position defaults to 1.0.
   */
  predicate ScanDefined(colors: seq<Color>, locations: seq<real>)
  {
    |colors| >= 1 && |locations| >= 1 &&
    (|locations| >= |colors| || (|locations| == 1 && |colors| == 2))
  }

  /** The position the scan reads for stop `i`. */
  function Position(locations: seq<real>, i: nat): (p: real)
    requires i < |locations| || (i == 1 && |locations| == 1)
  {
    if i == 1 && |locations| == 1 then 1.0 else locations[i]
  }

  /** The stop positions the scan reads never decrease. */
  predicate Monotonic(colors: seq<Color>, locations: seq<real>)
    requires ScanDefined(colors, locations)
  {
    forall i, j :: 0 <= i <= j < |colors| ==> Position(locations, i) <= Position(locations, j)
  }

  /**
   * The index of the stop the scan ends on as stop2, searching from `k`:
   * the first stop at or after `k` whose position is not below `alpha`,
   * or the last stop when there is none.
   */
  function BracketEnd(colors: seq<Color>, locations: seq<real>, alpha: real, k: nat): (r: nat)
    requires ScanDefined(colors, locations) && 1 <= k < |colors|
    decreases |colors| - k
    ensures k <= r < |colors|
    ensures forall i :: k <= i < r ==> Position(locations, i) < alpha
    ensures r == |colors| - 1 || alpha <= Position(locations, r)
  {
    if k == |colors| - 1 || alpha <= Position(locations, k) then k
    else BracketEnd(colors, locations, alpha, k + 1)
  }

  /**
   * The bracket the scan settles on for `alpha`: two adjacent stops when
   * there are two colors or more, the single stop twice otherwise.
   */
  function Locate(colors: seq<Color>, locations: seq<real>, alpha: real): (b: Bracket)
    requires ScanDefined(colors, locations)
    ensures b.color1 in colors && b.color2 in colors
  {
    if |colors| == 1 then Bracket(locations[0], colors[0], locations[0], colors[0])
    else
      var k := BracketEnd(colors, locations, alpha, 1);
      Bracket(Position(locations, k - 1), colors[k - 1], Position(locations, k), colors[k])
  }

  /**
   * The local parameter of `alpha` inside an open interval: strictly between
   * 0 and 1, and mapping back to `alpha` along the interval.
   */
  function LocalParameter(position1: real, position2: real, alpha: real): (t: real)
    requires position1 < alpha < position2
    ensures 0.0 < t < 1.0
    ensures position1 + t * (position2 - position1) == alpha
  {
    var width := position2 - position1;
    var t := (alpha - position1) / width;
    assert t * width == alpha - position1;
    var rest := 1.0 - t;
    assert rest * width == position2 - alpha > 0.0;
    PositiveFactor(t, width);
    PositiveFactor(rest, width);
    t
  }

  /** A factor of a positive product whose other factor is positive is positive. */
  lemma PositiveFactor(x: real, w: real)
    requires w > 0.0 && x * w > 0.0
    ensures x > 0.0
  {
  }

  /**
   * The four components written for `alpha` once the bracket is known: at
   * or below stop1 its color verbatim, otherwise at or above stop2 its color
   * verbatim, and strictly between them the interpolated red, green and blue
   * with alpha 1.0.
   */
  function Shade(b: Bracket, alpha: real, interp: Interpolation): (out: Color)
    ensures alpha <= b.position1 ==> out == b.color1
    ensures b.position1 < alpha && b.position2 <= alpha ==> out == b.color2
    ensures b.position1 < alpha < b.position2 ==>
      var t := LocalParameter(b.position1, b.position2, alpha);
      0.0 < t < 1.0 && out[..3] == interp(b.color1, b.color2, t)[..3] && out[3] == 1.0
  {
    if alpha <= b.position1 then b.color1
    else if alpha >= b.position2 then b.color2
    else
      var c := interp(b.color1, b.color2, LocalParameter(b.position1, b.position2, alpha));
      [c[0], c[1], c[2], 1.0]
  }

  /**
   * The color the shading function produces for the input `x`: one of the
   * gradient's colors unchanged, or a fully opaque color.
   */
  function Sample(colors: seq<Color>, locations: seq<real>, slope: real -> real,
                  interp: Interpolation, x: real): (out: Color)
    requires ScanDefined(colors, locations)
    ensures out in colors || out[3] == 1.0
  {
    var alpha := slope(x);
    Shade(Locate(colors, locations, alpha), alpha, interp)
  }

  /**
   * The bracket scan of the shading closure: starts with stop1 at the first
   * stop and stop2 at the second (or the first again for a single color),
   * and moves the pair one stop forward while stops remain and stop2 lies
   * below `alpha`.
   */
  method ScanStops(colors: seq<Color>, locations: seq<real>, alpha: real)
    returns (b: Bracket, positionIndex: nat)
    requires ScanDefined(colors, locations)
    ensures b == Locate(colors, locations, alpha)
    ensures |colors| == 1 ==>
      positionIndex == 1 && b.position2 == b.position1 && b.color2 == b.color1
    ensures |colors| >= 2 ==> 2 <= positionIndex <= |colors|
    ensures |colors| >= 2 ==> positionIndex == |colors| || alpha <= b.position2
    ensures |colors| >= 2 ==>
      b.position1 == Position(locations, positionIndex - 2) && b.color1 == colors[positionIndex - 2] &&
      b.position2 == Position(locations, positionIndex - 1) && b.color2 == colors[positionIndex - 1]
  {
    positionIndex := 0;
    var colorCount := |colors|;
    var stop1Position := locations[0];
    var stop1Color := colors[0];
    positionIndex := positionIndex + 1;
    var stop2Position := 0.0;
    var stop2Color: Color;
    if colorCount > 1 {
      stop2Color := colors[1];
      stop2Position := if |locations| == 1 then 1.0 else locations[1];
      positionIndex := positionIndex + 1;
    } else {
      stop2Position := stop1Position;
      stop2Color := stop1Color;
    }
    while positionIndex < colorCount && stop2Position < alpha
      invariant colorCount == 1 ==>
        positionIndex == 1 && stop1Position == stop2Position == locations[0] &&
        stop1Color == stop2Color == colors[0]
      invariant colorCount >= 2 ==> 2 <= positionIndex <= colorCount
      invariant colorCount >= 2 ==>
        stop1Position == Position(locations, positionIndex - 2) && stop1Color == colors[positionIndex - 2] &&
        stop2Position == Position(locations, positionIndex - 1) && stop2Color == colors[positionIndex - 1]
      invariant forall i :: 1 <= i < positionIndex - 1 ==> Position(locations, i) < alpha
      decreases colorCount - positionIndex
    {
      stop1Color := stop2Color;
      stop1Position := stop2Position;
      stop2Color := colors[positionIndex];
      stop2Position := locations[positionIndex];
      positionIndex := positionIndex + 1;
    }
    b := Bracket(stop1Position, stop1Color, stop2Position, stop2Color);
  }

  /**
   * The shading closure itself: reads the input parameter `inData[0]`,
   * remaps it with `slope`, scans for the bracket and writes four components
   * into `outData`, leaving every other slot as it was.
   */
  method Evaluate(colors: seq<Color>, locations: seq<real>, slope: real -> real,
                  interp: Interpolation, inData: seq<real>, outData: array<real>)
    requires ScanDefined(colors, locations)
    requires |inData| >= 1 && outData.Length >= 4
    modifies outData
    ensures outData[..4] == Sample(colors, locations, slope, interp, inData[0])
    ensures outData[4..] == old(outData[4..])
  {
    var alpha := slope(inData[0]);
    var b, positionIndex := ScanStops(colors, locations, alpha);
    if alpha <= b.position1 {
      outData[0] := b.color1[0];
      outData[1] := b.color1[1];
      outData[2] := b.color1[2];
      outData[3] := b.color1[3];
    } else if alpha >= b.position2 {
      outData[0] := b.color2[0];
      outData[1] := b.color2[1];
      outData[2] := b.color2[2];
      outData[3] := b.color2[3];
    } else {
      var newPosition := (alpha - b.position1) / (b.position2 - b.position1);
      var newColor := interp(b.color1, b.color2, newPosition);
      for componentIndex := 0 to 3
        invariant forall j :: 0 <= j < componentIndex ==> outData[j] == newColor[j]
        invariant forall j :: 3 <= j < outData.Length ==> outData[j] == old(outData[j])
      {
        outData[componentIndex] := newColor[componentIndex];
      }
      outData[3] := 1.0;
      assert newPosition == LocalParameter(b.position1, b.position2, alpha);
    }
    assert outData[..4] == [outData[0], outData[1], outData[2], outData[3]];
  }
}
