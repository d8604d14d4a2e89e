/** The stateless four-point cubic blend the capture path uses to synthesise
    one extra sample at a fixed cadence (src/main.rs cubic_interpolate). */
module Interpolation {

  /** Cubic through the coefficients a0..a3 built from four neighbouring
      samples, evaluated at position t between p1 and p2. */
  function CubicInterpolate(p0: real, p1: real, p2: real, p3: real, t: real): (r: real)
    ensures t == 0.0 ==> r == p1
    ensures t == 1.0 ==> r == p2
    ensures p0 == p1 == p2 == p3 ==> r == p0
  {
    var a0 := p3 - p2 - p0 + p1;
    var a1 := p0 - p1 - a0;
    var a2 := p2 - p0;
    var a3 := p1;
    a0 * t * t * t + a1 * t * t + a2 * t + a3
  }

  /** The reference value for the bump 0, 1, 1, 0 at the midpoint. */
  lemma CubicMidpointExample()
    ensures CubicInterpolate(0.0, 1.0, 1.0, 0.0, 0.5) == 1.25
  {
  }

  /** When the last three points are the same sample x (no look-ahead is
      available), the midpoint value overshoots x by one eighth of the step
      from the preceding sample p0 to x. */
  lemma CubicMidpointOfRepeatedSample(p0: real, x: real)
    ensures CubicInterpolate(p0, x, x, x, 0.5) == x + (x - p0) / 8.0
  {
  }
}
