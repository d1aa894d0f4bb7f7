/**
 * What the shading function promises for every input: the shape of the
 * bracket it finds, the boundary colors it echoes, the opaque colors it
 * interpolates, and worked gradients (red to blue; red, green and blue at
 * 0, 0.5 and 1).
 */
module ShadingProperties {
  import opened ShadingFunction

  /**
   * A single color is returned for every input: stop1 and stop2 are both
   * the lone stop, so either boundary branch echoes it.
   */
  lemma SingleColorIsConstant(colors: seq<Color>, locations: seq<real>, slope: real -> real,
                              interp: Interpolation, x: real)
    requires ScanDefined(colors, locations) && |colors| == 1
    ensures Sample(colors, locations, slope, interp, x) == colors[0]
  {
  }

  /**
   * With two colors and a single location the second stop sits at 1.0,
   * whatever the parameter.
   */
  lemma SingleLocationSecondStopAtOne(colors: seq<Color>, locations: seq<real>, alpha: real)
    requires ScanDefined(colors, locations) && |colors| >= 2 && |locations| == 1
    ensures Locate(colors, locations, alpha) == Bracket(locations[0], colors[0], 1.0, colors[1])
  {
  }

  /**
   * Every sample falls in exactly one of three cases: stop1's color
   * verbatim (its own alpha included) at or below stop1, stop2's color
   * verbatim at or above stop2, or, strictly between them, the red, green
   * and blue of the interpolation at a local parameter in (0, 1) with
   * alpha 1.0.
   */
  lemma SampleCases(colors: seq<Color>, locations: seq<real>, slope: real -> real,
                    interp: Interpolation, x: real)
    requires ScanDefined(colors, locations)
    ensures
      var alpha, b := slope(x), Locate(colors, locations, slope(x));
      var out := Sample(colors, locations, slope, interp, x);
      (alpha <= b.position1 && out == b.color1) ||
      (b.position1 < alpha && b.position2 <= alpha && out == b.color2) ||
      (b.position1 < alpha < b.position2 &&
       var t := LocalParameter(b.position1, b.position2, alpha);
       0.0 < t < 1.0 && out[..3] == interp(b.color1, b.color2, t)[..3] && out[3] == 1.0)
  {
  }

  /**
   * The interpolation law never reaches the alpha component, and outside
   * the open bracket it does not matter at all.
   */
  lemma AlphaIndependentOfLaw(colors: seq<Color>, locations: seq<real>, slope: real -> real,
                              f: Interpolation, g: Interpolation, x: real)
    requires ScanDefined(colors, locations)
    ensures Sample(colors, locations, slope, f, x)[3] == Sample(colors, locations, slope, g, x)[3]
    ensures
      var alpha, b := slope(x), Locate(colors, locations, slope(x));
      !(b.position1 < alpha < b.position2) ==>
        Sample(colors, locations, slope, f, x) == Sample(colors, locations, slope, g, x)
  {
  }

  /**
   * On monotonic positions, a parameter strictly above the first stop and
   * not above the last one is bracketed: stop1 lies below it and stop2 at
   * or above it.
   */
  lemma InRangeIsBracketed(colors: seq<Color>, locations: seq<real>, alpha: real)
    requires ScanDefined(colors, locations) && |colors| >= 2 && Monotonic(colors, locations)
    requires Position(locations, 0) < alpha <= Position(locations, |colors| - 1)
    ensures
      var b := Locate(colors, locations, alpha);
      b.position1 < alpha <= b.position2
  {
  }

  /**
   * On monotonic positions, a parameter at or below the first stop yields
   * the first color, its own alpha included.
   */
  lemma AtOrBelowFirstStop(colors: seq<Color>, locations: seq<real>, slope: real -> real,
                           interp: Interpolation, x: real)
    requires ScanDefined(colors, locations) && Monotonic(colors, locations)
    requires slope(x) <= locations[0]
    ensures Sample(colors, locations, slope, interp, x) == colors[0]
  {
    if |colors| >= 2 {
      assert Position(locations, 0) <= Position(locations, 1);
    }
  }

  /**
   * On monotonic positions, a parameter above the last stop yields the last
   * color; so does one equal to the last stop when the stop before it lies
   * strictly lower.
   */
  lemma AtOrAboveLastStop(colors: seq<Color>, locations: seq<real>, slope: real -> real,
                          interp: Interpolation, x: real)
    requires ScanDefined(colors, locations) && |colors| >= 2 && Monotonic(colors, locations)
    requires
      var n := |colors|;
      slope(x) > Position(locations, n - 1) ||
      (slope(x) == Position(locations, n - 1) && Position(locations, n - 2) < Position(locations, n - 1))
    ensures Sample(colors, locations, slope, interp, x) == colors[|colors| - 1]
  {
  }

  /**
   * When several stops share the last position, a parameter equal to it
   * ends the scan at the first of them (from index 1 on): the output is that
   * stop's color, which is the last color only when that stop is the last.
   */
  lemma AtLastPositionFirstSharingStop(colors: seq<Color>, locations: seq<real>, slope: real -> real,
                                       interp: Interpolation, x: real, k: nat)
    requires ScanDefined(colors, locations) && Monotonic(colors, locations)
    requires 1 <= k < |colors| && Position(locations, 0) < slope(x)
    requires slope(x) == Position(locations, |colors| - 1) == Position(locations, k)
    requires forall i :: 1 <= i < k ==> Position(locations, i) < slope(x)
    ensures Sample(colors, locations, slope, interp, x) == colors[k]
  {
    assert BracketEnd(colors, locations, slope(x), 1) == k;
  }

  /** Red, green, blue at 0, 1, 1: the parameter 1.0 yields green, not blue. */
  lemma CoincidentLastStops()
    ensures
      var red, green, blue := [1.0, 0.0, 0.0, 1.0], [0.0, 1.0, 0.0, 1.0], [0.0, 0.0, 1.0, 1.0];
      Sample([red, green, blue], [0.0, 1.0, 1.0], x => x, LinearBlend, 1.0) == green != blue
  {
  }

  /** Red to blue over [0, 1] under a linear law: both ends and the midpoint. */
  lemma RedToBlueLinear()
    ensures
      var red, blue := [1.0, 0.0, 0.0, 1.0], [0.0, 0.0, 1.0, 1.0];
      Sample([red, blue], [0.0, 1.0], x => x, LinearBlend, 0.0) == red &&
      Sample([red, blue], [0.0, 1.0], x => x, LinearBlend, 1.0) == blue &&
      Sample([red, blue], [0.0, 1.0], x => x, LinearBlend, 0.5) == [0.5, 0.0, 0.5, 1.0]
  {
  }

  /**
   * Red, green and blue at 0, 0.5 and 1: the parameter 0.75 lands in the
   * green-to-blue bracket at local parameter 0.5, giving their midpoint.
   */
  lemma ThreeStopMidpoint()
    ensures
      var red, green, blue := [1.0, 0.0, 0.0, 1.0], [0.0, 1.0, 0.0, 1.0], [0.0, 0.0, 1.0, 1.0];
      Locate([red, green, blue], [0.0, 0.5, 1.0], 0.75) == Bracket(0.5, green, 1.0, blue) &&
      LocalParameter(0.5, 1.0, 0.75) == 0.5 &&
      Sample([red, green, blue], [0.0, 0.5, 1.0], x => x, LinearBlend, 0.75) == [0.0, 0.5, 0.5, 1.0]
  {
  }

  /** A linear interpolation law, component by component, used by the worked gradients. */
  function LinearBlend(a: Color, b: Color, t: real): (c: Color)
  {
    [a[0] + t * (b[0] - a[0]), a[1] + t * (b[1] - a[1]),
     a[2] + t * (b[2] - a[2]), a[3] + t * (b[3] - a[3])]
  }
}
