/** Pointer normalisation: the mouse and touch handlers turn a device pixel
    position into the [-1, 1] coordinates the ray caster expects, flipping
    the vertical axis (device y grows downwards, normalised y upwards). */
module Pointer {
  import opened Geometry

  /** Horizontal normalisation `(x / width) * 2 - 1`. */
  function NormalizeX(x: real, width: real): (u: real)
    requires width > 0.0
    ensures 0.0 <= x <= width <==> -1.0 <= u <= 1.0
    ensures x == 0.0 ==> u == -1.0
    ensures x == width ==> u == 1.0
    ensures x == width / 2.0 ==> u == 0.0
  {
    (x / width) * 2.0 - 1.0
  }

  /** Vertical normalisation `-(y / height) * 2 + 1`: the top row maps to 1. */
  function NormalizeY(y: real, height: real): (v: real)
    requires height > 0.0
    ensures 0.0 <= y <= height <==> -1.0 <= v <= 1.0
    ensures y == 0.0 ==> v == 1.0
    ensures y == height ==> v == -1.0
    ensures y == height / 2.0 ==> v == 0.0
  {
    -(y / height) * 2.0 + 1.0
  }

  /** The normalised position every pointer handler stores in `mouse`. */
  function Normalize(x: real, y: real, width: real, height: real): (m: Vec2)
    requires width > 0.0 && height > 0.0
    ensures 0.0 <= x <= width && 0.0 <= y <= height ==> -1.0 <= m.x <= 1.0 && -1.0 <= m.y <= 1.0
  {
    Vec2(NormalizeX(x, width), NormalizeY(y, height))
  }

  /** The device pixel a normalised position stands for: the inverse map. */
  function DevicePosition(m: Vec2, width: real, height: real): (p: Vec2)
    requires width > 0.0 && height > 0.0
    ensures -1.0 <= m.x <= 1.0 ==> 0.0 <= p.x <= width
    ensures -1.0 <= m.y <= 1.0 ==> 0.0 <= p.y <= height
  {
    var fx, fy := (m.x + 1.0) / 2.0, (1.0 - m.y) / 2.0;
    FractionOf(fx, width);
    FractionOf(fy, height);
    Vec2(fx * width, fy * height)
  }

  /** Normalisation loses nothing: the device position is recovered exactly. */
  lemma NormalizeRoundTrip(x: real, y: real, width: real, height: real)
    requires width > 0.0 && height > 0.0
    ensures DevicePosition(Normalize(x, y, width, height), width, height) == Vec2(x, y)
  {
  }

  /** A fraction in [0, 1] of a positive extent stays within the extent. */
  lemma FractionOf(f: real, w: real)
    requires w > 0.0
    ensures 0.0 <= f <= 1.0 ==> 0.0 <= f * w <= w
  {
  }

  /** Every normalised position comes from exactly one device position. */
  lemma DevicePositionRoundTrip(m: Vec2, width: real, height: real)
    requires width > 0.0 && height > 0.0
    ensures var p := DevicePosition(m, width, height); Normalize(p.x, p.y, width, height) == m
  {
  }

  /** Dividing by a positive extent keeps the order. */
  lemma DivideOrder(a: real, b: real, w: real)
    requires w > 0.0 && a < b
    ensures a / w < b / w
  {
  }

  /** Moving right moves right; moving down moves down (the flip). */
  lemma NormalizeOrder(x1: real, x2: real, y1: real, y2: real, width: real, height: real)
    requires width > 0.0 && height > 0.0
    requires x1 < x2 && y1 < y2
    ensures Normalize(x1, y1, width, height).x < Normalize(x2, y2, width, height).x
    ensures Normalize(x1, y1, width, height).y > Normalize(x2, y2, width, height).y
  {
    DivideOrder(x1, x2, width);
    DivideOrder(y1, y2, height);
  }
}
