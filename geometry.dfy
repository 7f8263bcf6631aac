/**
 * Drag geometry of the rotary knob: the bearing of a pointer around the
 * widget's centre, and the signed rotation between two bearings.
 *
 * Bearings are measured in degrees clockwise from the 12-o'clock position,
 * in screen coordinates (y grows downwards).  The arctangent of the host's
 * maths library is not modelled; it enters as a parameter `atanDeg`, the
 * arctangent expressed in degrees, of which only its range is assumed.
 */
module Geometry {

  /** `atanDeg` behaves like `t => atan(t) * 180 / pi`: its values lie strictly between -90 and 90. */
  ghost predicate IsArctanDegrees(atanDeg: real -> real)
  {
    forall t :: -90.0 < atanDeg(t) < 90.0
  }

  /**
   * Bearing of the point (x, y) around the centre (width / 2, width / 2) of a
   * square widget of side `width`.  On the vertical through the centre the
   * bearing is 180 below the centre and 0 elsewhere (the centre included);
   * the right half maps into (0, 180) and the left half into (180, 360).
   */
  function Angle(width: int, x: real, y: real, atanDeg: real -> real): (a: real)
    requires IsArctanDegrees(atanDeg)
    ensures 0.0 <= a < 360.0
    ensures x > width as real / 2.0 ==> 0.0 < a < 180.0
    ensures x < width as real / 2.0 ==> 180.0 < a < 360.0
    ensures x == width as real / 2.0 ==> (a == 180.0 <==> y > width as real / 2.0)
    ensures x == width as real / 2.0 ==> (a == 0.0 <==> y <= width as real / 2.0)
  {
    var center := width as real / 2.0;
    var dx := x - center;
    var dy := y - center;
    if dx == 0.0 then
      (if dy > 0.0 then 180.0 else 0.0)
    else
      var raw := atanDeg(dy / dx);
      if dx > 0.0 then raw + 90.0 else raw + 270.0
  }

  /** A bearing as `Angle` produces it. */
  predicate IsBearing(a: real)
  {
    0.0 <= a < 360.0
  }

  /**
   * The signed rotation, in degrees, from bearing `oldAngle` to bearing
   * `angle` that a drag step applies.  A step that does not cross the
   * 12-o'clock seam is the plain difference.  A raw difference of 180 or more
   * (in either direction) is read as a short turn across the seam, and the
   * rotation is cut off at the seam: the result takes `oldAngle` exactly to 0
   * (turning anticlockwise) or to 360 (turning clockwise).
   */
  function Delta(angle: real, oldAngle: real): (d: real)
    requires IsBearing(angle) && IsBearing(oldAngle)
    ensures -180.0 < d <= 180.0
    ensures 0.0 <= oldAngle + d <= 360.0
    ensures -180.0 < angle - oldAngle < 180.0 ==> d == angle - oldAngle
    ensures angle - oldAngle >= 180.0 ==> oldAngle + d == 0.0
    ensures angle - oldAngle <= -180.0 ==> oldAngle + d == 360.0
  {
    var delta := angle - oldAngle;
    if delta >= 180.0 then -oldAngle
    else if delta <= -180.0 then 360.0 - oldAngle
    else delta
  }

  /**
   * The shorter rotation from `oldAngle` to `angle`, in (-180, 180]; used as
   * an independent reference for what a drag step "should" do.
   */
  function ShortestTurn(angle: real, oldAngle: real): (r: real)
    requires IsBearing(angle) && IsBearing(oldAngle)
    ensures -180.0 < r <= 180.0
    ensures r == angle - oldAngle || r == angle - oldAngle - 360.0 || r == angle - oldAngle + 360.0
  {
    var delta := angle - oldAngle;
    if delta > 180.0 then delta - 360.0
    else if delta <= -180.0 then delta + 360.0
    else delta
  }

  /**
   * A drag step never turns the wrong way and never turns further than the
   * shorter rotation to the new bearing: it is that rotation, possibly cut
   * short at the 12-o'clock seam.  The cut only happens when the rotation
   * crosses the seam.  An exact clockwise half turn is the one ambiguous
   * case: it is taken anticlockwise, up to the seam.
   */
  lemma DeltaFollowsShortestTurn(angle: real, oldAngle: real)
    requires IsBearing(angle) && IsBearing(oldAngle)
    ensures var d, r := Delta(angle, oldAngle), ShortestTurn(angle, oldAngle);
      angle - oldAngle != 180.0 ==> (r >= 0.0 ==> 0.0 <= d <= r) && (r <= 0.0 ==> r <= d <= 0.0)
    ensures angle - oldAngle == 180.0 ==> Delta(angle, oldAngle) == -oldAngle <= 0.0
    ensures var d, r := Delta(angle, oldAngle), ShortestTurn(angle, oldAngle);
      d != r ==> oldAngle + r < 0.0 || oldAngle + r >= 360.0 || angle - oldAngle == 180.0
  {
  }
}
