/**
 Screen-space geometry of the Start scene: points, the rotation that carries
 an accessory's offset round the ship, and the ship's straight-line advance.
 A direction is given by its cosine and sine, so that no trigonometry is
 needed; every fact that depends on it being a direction assumes
 `c * c + s * s == 1`.
 */
module Geometry {

  datatype Point = Point(x: real, y: real)

  function SquaredDistance(p: Point, q: Point): real
  {
    (q.x - p.x) * (q.x - p.x) + (q.y - p.y) * (q.y - p.y)
  }

  /** `v` turned by the angle whose cosine is `c` and whose sine is `s`; a
      rotation does not change the length of what it turns. */
  function Rotate(v: Point, c: real, s: real): (r: Point)
    ensures c * c + s * s == 1.0 ==> r.x * r.x + r.y * r.y == v.x * v.x + v.y * v.y
  {
    var r := Point(c * v.x - s * v.y, s * v.x + c * v.y);
    assert r.x * r.x == c * c * v.x * v.x - 2.0 * c * s * v.x * v.y + s * s * v.y * v.y;
    assert r.y * r.y == s * s * v.x * v.x + 2.0 * c * s * v.x * v.y + c * c * v.y * v.y;
    assert r.x * r.x + r.y * r.y == (c * c + s * s) * (v.x * v.x + v.y * v.y);
    r
  }

  /** Where an accessory is drawn: the ship's position minus its offset
      turned by the ship's heading. */
  function Place(ship: Point, offset: Point, c: real, s: real): (r: Point)
    ensures c * c + s * s == 1.0 ==>
      SquaredDistance(ship, r) == offset.x * offset.x + offset.y * offset.y
  {
    var turned := Rotate(offset, c, s);
    Point(ship.x - turned.x, ship.y - turned.y)
  }

  /** The offset an accessory drawn at `pos` was placed with: the inverse of
      Place for the same ship position and heading. */
  function Unplace(ship: Point, pos: Point, c: real, s: real): Point
  {
    Rotate(Point(ship.x - pos.x, ship.y - pos.y), c, -s)
  }

  /** Heading 0 (c = 1, s = 0) leaves the offset untouched: the accessory
      sits at exactly ship - offset. */
  lemma PlaceAtHeadingZero(ship: Point, offset: Point)
    ensures Place(ship, offset, 1.0, 0.0) == Point(ship.x - offset.x, ship.y - offset.y)
  {
  }

  /** Turning back by the same heading recovers the offset, so the position
      of an accessory determines its offset. */
  lemma PlaceRoundTrip(ship: Point, offset: Point, c: real, s: real)
    requires c * c + s * s == 1.0
    ensures Unplace(ship, Place(ship, offset, c, s), c, s) == offset
  {
    var turned := Rotate(offset, c, s);
    var back := Rotate(turned, c, -s);
    assert back.x == (c * c + s * s) * offset.x;
    assert back.y == (c * c + s * s) * offset.y;
  }

  /** The point `len` along the direction (c, s) from `from`: for a unit
      direction it lies exactly `len` away. */
  function Advance(from: Point, c: real, s: real, len: real): (r: Point)
    ensures c * c + s * s == 1.0 ==> SquaredDistance(from, r) == len * len
  {
    var r := Point(from.x + c * len, from.y + s * len);
    assert (c * len) * (c * len) + (s * len) * (s * len) == (c * c + s * s) * (len * len);
    r
  }

  /** The direction (c, s) aims at `to` from `from`: it is a unit vector
      parallel to the line between them and pointing towards `to`. This is
      what cos and sin of Math.atan2(dy, dx) give. */
  predicate AimsAt(from: Point, to: Point, c: real, s: real)
  {
    AimsAlong(to.x - from.x, to.y - from.y, c, s)
  }

  /** (c, s) is a unit vector parallel to (dx, dy) and pointing its way. */
  predicate AimsAlong(dx: real, dy: real, c: real, s: real)
  {
    c * c + s * s == 1.0 && c * dy == s * dx && c * dx + s * dy > 0.0
  }

  /** Moving `len` along a direction that aims at `to` stays on the line to
      `to`: the distance left is |distance - len|, where the distance is
      the (positive) projection of the displacement on the direction. */
  lemma AdvanceAlongLine(from: Point, to: Point, c: real, s: real, len: real)
    requires AimsAt(from, to, c, s)
    ensures var dist := c * (to.x - from.x) + s * (to.y - from.y);
      dist > 0.0 && dist * dist == SquaredDistance(from, to) &&
      SquaredDistance(Advance(from, c, s, len), to) == (dist - len) * (dist - len)
  {
    var dx, dy := to.x - from.x, to.y - from.y;
    var dist := c * dx + s * dy;
    var cross := c * dy - s * dx;
    assert dist * dist + cross * cross == (c * c + s * s) * (dx * dx + dy * dy);
    assert dist * dist == dx * dx + dy * dy;
    var ex, ey := dx - c * len, dy - s * len;
    assert ex * ex + ey * ey == dx * dx + dy * dy - 2.0 * len * dist + (c * c + s * s) * len * len;
  }
}
