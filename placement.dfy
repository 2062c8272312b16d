/** The random size and roll that `shoot` gives a new decal. Each random
    draw `u` is the value `Math.random()` returned, so `0 <= u < 1`. */
module Placement {
  import opened Geometry

  /** `Math.PI`, the double nearest to pi, written out. */
  const Pi: real := 3.141592653589793

  /** The one scalar used for all three axes of a decal's size:
      `(minScale + u * (maxScale - minScale)) / 500`, where 500 maps the GUI's
      scale units to the head model's units. The GUI lets the two bounds
      cross, and the interval then runs the other way. */
  function DecalScale(minScale: real, maxScale: real, u: real): (scale: real)
    requires 0.0 <= u < 1.0
    ensures minScale < maxScale ==> minScale / 500.0 <= scale < maxScale / 500.0
    ensures minScale == maxScale ==> scale == minScale / 500.0
    ensures maxScale < minScale ==> maxScale / 500.0 < scale <= minScale / 500.0
    ensures 0.0 < minScale && 0.0 < maxScale ==> 0.0 < scale
  {
    StepWithin(u, maxScale - minScale);
    OffsetWithin(minScale, maxScale, RandomStep(u, maxScale - minScale));
    (minScale + RandomStep(u, maxScale - minScale)) / 500.0
  }

  /** The random part `u * d` of a draw over an interval of signed width `d`. */
  function RandomStep(u: real, d: real): real
  {
    u * d
  }

  /** The random part lies between 0 (included) and `d` (excluded), whatever
      the sign of `d`: `d - u * d` is `(1 - u) * d`, which has the sign of `d`. */
  lemma StepWithin(u: real, d: real)
    requires 0.0 <= u < 1.0
    ensures 0.0 < d ==> 0.0 <= RandomStep(u, d) < d
    ensures d < 0.0 ==> d < RandomStep(u, d) <= 0.0
    ensures d == 0.0 ==> RandomStep(u, d) == 0.0
  {
    var rest := 1.0 - u;
    assert d - u * d == rest * d;
    if 0.0 < d {
      assert 0.0 < rest * d;
      assert 0.0 <= u * d;
    } else if d < 0.0 {
      assert rest * d < 0.0;
      assert u * d <= 0.0;
    }
  }

  /** Adding to `lo` a step that lies between 0 and `hi - lo` stays between the two. */
  lemma OffsetWithin(lo: real, hi: real, step: real)
    requires 0.0 < hi - lo ==> 0.0 <= step < hi - lo
    requires hi - lo < 0.0 ==> hi - lo < step <= 0.0
    requires hi == lo ==> step == 0.0
    ensures lo < hi ==> lo / 500.0 <= (lo + step) / 500.0 < hi / 500.0
    ensures lo == hi ==> (lo + step) / 500.0 == lo / 500.0
    ensures hi < lo ==> hi / 500.0 < (lo + step) / 500.0 <= lo / 500.0
    ensures 0.0 < lo && 0.0 < hi ==> 0.0 < (lo + step) / 500.0
  {
  }

  /** The size vector of a decal: the same scalar on every axis. */
  function UniformScale(minScale: real, maxScale: real, u: real): (s: Vec3)
    requires 0.0 <= u < 1.0
    ensures s.x == s.y == s.z
    ensures 1.0 <= minScale && 1.0 <= maxScale ==> 0.0 < s.x
  {
    var scale := DecalScale(minScale, maxScale, u);
    Vec3(scale, scale, scale)
  }

  /** A random roll angle `u * 2 * PI`. */
  function Roll(u: real): (angle: real)
    requires 0.0 <= u < 1.0
    ensures 0.0 <= angle < 2.0 * Pi
  {
    u * 2.0 * Pi
  }

  /** The Euler angles a decal is placed with: those of the projection, with
      only the roll (the z component) replaced when `rotate` is set. */
  function DecalRotation(base: Vec3, rotate: bool, u: real): (r: Vec3)
    requires 0.0 <= u < 1.0
    ensures r.x == base.x && r.y == base.y
    ensures rotate ==> 0.0 <= r.z < 2.0 * Pi
    ensures !rotate ==> r == base
  {
    if rotate then base.(z := Roll(u)) else base
  }

  /** With equal bounds the size is fixed: bounds of 10 give 0.02 on every axis. */
  lemma FixedScale(u: real)
    requires 0.0 <= u < 1.0
    ensures UniformScale(10.0, 10.0, u) == Vec3(0.02, 0.02, 0.02)
  {
  }
}
