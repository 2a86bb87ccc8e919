/**
 The Start scene: a ship that flies towards the point the player clicked or
 drags, two accessories that follow it at fixed offsets turned with its
 heading, and the choice of animation frame for the ship and the
 accessories from that heading.
 */
module StartScene {
  import opened Geometry
  import opened Frames

  datatype Option<T> = None | Some(value: T)

  /** A heading as Math.atan2 gives it and the scene uses it: in degrees
      (what RadToDeg makes of the radians), with its cosine and sine. */
  datatype Angle = Angle(degrees: real, cos: real, sin: real)

  /** The heading the scene starts with: 0 radians. */
  const InitialAngle: Angle := Angle(0.0, 1.0, 0.0)

  /** A heading atan2 can produce: within [-180, 180] degrees, with a unit
      (cos, sin) vector. */
  predicate ValidAngle(a: Angle)
  {
    -180.0 <= a.degrees <= 180.0 && a.cos * a.cos + a.sin * a.sin == 1.0
  }

  /** What Math.atan2(dy, dx) promises for a displacement that is not zero:
      a valid heading whose direction aims along (dx, dy), and heading 0
      when the displacement points along the positive x axis. */
  predicate Atan2Of(a: Angle, dy: real, dx: real)
  {
    ValidAngle(a) && AimsAlong(dx, dy, a.cos, a.sin) &&
    (dy == 0.0 && dx > 0.0 ==> a.degrees == 0.0)
  }

  /** `atan2` behaves as Math.atan2 on every displacement that is not zero. */
  ghost predicate IsAtan2(atan2: (real, real) -> Angle)
  {
    forall dy: real, dx: real :: dy != 0.0 || dx != 0.0 ==> Atan2Of(atan2(dy, dx), dy, dx)
  }

  /** Squared arrival radius: the ship stops within 5 pixels of its
      destination, and sqrt(d) > 5 exactly when d > 25. */
  const ArrivalRadiusSquared: real := 25.0

  /** `to` lies outside the arrival radius around `from`. */
  predicate Far(from: Point, to: Point)
  {
    SquaredDistance(from, to) > ArrivalRadiusSquared
  }

  /** Far is the test `Math.sqrt(dx*dx + dy*dy) > 5`: for the non-negative
      distance `d` whose square is the squared distance, it holds exactly
      when d > 5. */
  lemma FarIffBeyondFive(from: Point, to: Point, d: real)
    requires d >= 0.0 && d * d == SquaredDistance(from, to)
    ensures Far(from, to) <==> d > 5.0
  {
    if d > 5.0 {
      assert d * d > 5.0 * d;
    } else {
      assert d * d <= 5.0 * d;
    }
  }

  /** The atan2 contract pins the direction down: two headings that both
      satisfy it for the same displacement have the same cosine and sine,
      namely (dx, dy) divided by its length. */
  lemma Atan2DirectionUnique(a: Angle, b: Angle, dy: real, dx: real)
    requires Atan2Of(a, dy, dx) && Atan2Of(b, dy, dx)
    ensures a.cos == b.cos && a.sin == b.sin
  {
    var ka := UnitAlong(a.cos, a.sin, dx, dy);
    var kb := UnitAlong(b.cos, b.sin, dx, dy);
    SamePositiveRoot(ka, kb);
    CancelPositive(a.cos, b.cos, ka, dx);
    CancelPositive(a.sin, b.sin, ka, dy);
  }

  /** A unit direction along (dx, dy) is (dx, dy) scaled by 1/k, where k is
      the length of (dx, dy). */
  lemma UnitAlong(c: real, s: real, dx: real, dy: real) returns (k: real)
    requires AimsAlong(dx, dy, c, s)
    ensures k > 0.0 && c * k == dx && s * k == dy && k * k == dx * dx + dy * dy
  {
    k := c * dx + s * dy;
    assert c * s * dy == s * s * dx;
    assert c * k == (c * c + s * s) * dx;
    assert s * c * dx == c * c * dy;
    assert s * k == (c * c + s * s) * dy;
    assert k * k == c * k * dx + s * k * dy;
  }

  /** Two positive numbers with the same square are equal. */
  lemma SamePositiveRoot(a: real, b: real)
    requires a > 0.0 && b > 0.0 && a * a == b * b
    ensures a == b
  {
    assert (a - b) * (a + b) == 0.0;
  }

  /** A positive factor cancels. */
  lemma CancelPositive(x: real, y: real, k: real, v: real)
    requires k > 0.0 && x * k == v && y * k == v
    ensures x == y
  {
    assert (x - y) * k == 0.0;
  }

  /** A Phaser sprite as far as the scene uses it: where it is drawn and
      which frame of its sheet it shows. */
  class Sprite {
    var x: real
    var y: real
    var frame: int

    constructor (x: real, y: real, frame: int)
      ensures this.x == x && this.y == y && this.frame == frame
    {
      this.x, this.y, this.frame := x, y, frame;
    }
  }

  class Start {
    /** Where the ship flies when it is not following the live pointer. */
    var target: Option<Point>
    /** Whether the button is held after a click on empty space. */
    var isMouseDown: bool
    /** Pixels per second. */
    const speed: real
    /** The heading of the ship, kept while the ship stands still. */
    var currentAngle: Angle
    /** Despite its name: whether the ship follows the live pointer. It is
        set by a click on empty space and cleared on release and on
        arrival. */
    var arrived: bool

    const ship: Sprite
    const accessories: seq<Sprite>
    /** Offset of each accessory from the ship, turned with the heading. */
    const accessoryOffsets: seq<Point>

    /** The sprites are distinct objects, one offset per accessory. */
    predicate Wired()
    {
      |accessories| == |accessoryOffsets| &&
      ship !in accessories &&
      (forall i, j :: 0 <= i < j < |accessories| ==> accessories[i] != accessories[j])
    }

    /** The scene invariant: a heading atan2 can give, the pointer followed
        only while the button is held, and every frame shown within its
        sheet. */
    ghost predicate Valid()
      reads this, ship, accessories
    {
      Wired() &&
      ValidAngle(currentAngle) &&
      (arrived ==> isMouseDown) &&
      0 <= ship.frame < VengaFrameCount &&
      (forall i :: 0 <= i < |accessories| ==> 0 <= accessories[i].frame < Ship93FrameCount)
    }

    function ShipAt(): Point
      reads ship
    {
      Point(ship.x, ship.y)
    }

    function AccessoryAt(i: nat): Point
      requires i < |accessories|
      reads accessories[i]
    {
      Point(accessories[i].x, accessories[i].y)
    }

    /** The scene's constructor and the state `create` sets up: the ship at
        a quarter of the width and half of the height of the screen, two
        accessories on top of it with offsets (100, -80) and (100, 80), every
        sprite on frame 0, no target, button up, speed 100, heading 0. */
    constructor (width: real, height: real)
      ensures Valid()
      ensures fresh(ship) && forall i :: 0 <= i < |accessories| ==> fresh(accessories[i])
      ensures target == None && !isMouseDown && !arrived
      ensures speed == 100.0 && currentAngle == InitialAngle
      ensures ShipAt() == Point(width * 1.0 / 4.0, height / 2.0) && ship.frame == 0
      ensures accessoryOffsets == [Point(100.0, -80.0), Point(100.0, 80.0)]
      ensures |accessories| == 2
      ensures forall i :: 0 <= i < 2 ==> AccessoryAt(i) == ShipAt() && accessories[i].frame == 0
    {
      target := None;
      isMouseDown := false;
      speed := 100.0;
      currentAngle := InitialAngle;
      arrived := false;
      var s := new Sprite(width * 1.0 / 4.0, height / 2.0, 0);
      var a0 := new Sprite(s.x, s.y, 0);
      var a1 := new Sprite(s.x, s.y, 0);
      ship := s;
      accessories := [a0, a1];
      accessoryOffsets := [Point(100.0, -80.0), Point(100.0, 80.0)];
    }

    /** The `pointerdown` handler. A click on empty space (no sprite hit)
        makes the clicked point the target and starts following the
        pointer; a click on a sprite only drops the target. */
    method PointerDown(p: Point, hits: nat)
      requires Valid()
      modifies this`target, this`isMouseDown, this`arrived
      ensures Valid()
      ensures hits == 0 ==> target == Some(p) && isMouseDown && arrived
      ensures hits != 0 ==>
        target == None && isMouseDown == old(isMouseDown) && arrived == old(arrived)
    {
      if hits == 0 {
        target := Some(p);
        isMouseDown := true;
        arrived := true;
      } else {
        target := None;
      }
    }

    /** The `pointerup` handler: stops following the pointer and keeps the
        target. */
    method PointerUp()
      requires Valid()
      modifies this`isMouseDown, this`arrived
      ensures Valid()
      ensures !isMouseDown && !arrived
    {
      isMouseDown := false;
      arrived := false;
    }

    /** The `pointermove` handler: the target follows the pointer while the
        ship follows it, and nothing changes otherwise. */
    method PointerMove(p: Point)
      requires Valid()
      modifies this`target
      ensures Valid()
      ensures old(isMouseDown && arrived) ==> target == Some(p)
      ensures !old(isMouseDown && arrived) ==> target == old(target)
    {
      if isMouseDown && arrived {
        target := Some(p);
      }
    }

    /** The point `update` flies towards: the live pointer while following
        it, otherwise the stored target, if any. */
    function Destination(live: Point): (d: Option<Point>)
      reads this
      ensures isMouseDown && arrived ==> d == Some(live)
      ensures !(isMouseDown && arrived) ==> d == target
      ensures d.None? <==> !(isMouseDown && arrived) && target.None?
    {
      if isMouseDown && arrived then Some(live)
      else target
    }

    /** Under the invariant the pointer is followed exactly while `arrived`
        holds: the button state adds nothing to the test. */
    lemma FollowsPointerIffArrived(live: Point)
      requires Valid()
      ensures Destination(live) == if arrived then Some(live) else target
    {
    }

    /** `update`, one simulation step of `delta` milliseconds. `live` is the
        live pointer and `atan2` computes the heading. With no destination
        nothing moves; within the arrival radius the ship stays put and stops
        following the pointer; otherwise it flies `speed * delta / 1000`
        pixels along the heading to the destination and keeps that heading.
        Then the frames and the accessories are brought up to date. */
    method Step(live: Point, delta: real, atan2: (real, real) -> Angle)
      requires Valid() && IsAtan2(atan2)
      modifies this`currentAngle, this`arrived, ship, accessories
      ensures Valid()
      ensures old(Destination(live)).None? ==>
        ShipAt() == old(ShipAt()) && currentAngle == old(currentAngle) && arrived == old(arrived)
      ensures old(Destination(live)).Some? && !Far(old(ShipAt()), old(Destination(live)).value) ==>
        ShipAt() == old(ShipAt()) && currentAngle == old(currentAngle) && !arrived
      ensures old(Destination(live)).Some? && Far(old(ShipAt()), old(Destination(live)).value) ==>
        var to := old(Destination(live)).value;
        currentAngle == atan2(to.y - old(ship.y), to.x - old(ship.x)) &&
        AimsAt(old(ShipAt()), to, currentAngle.cos, currentAngle.sin) &&
        ShipAt() == Advance(old(ShipAt()), currentAngle.cos, currentAngle.sin, speed * (delta / 1000.0)) &&
        arrived == old(arrived)
      ensures ship.frame == VengaFrame(currentAngle.degrees)
      ensures forall i :: 0 <= i < |accessories| ==>
        accessories[i].frame == Ship93Frame(currentAngle.degrees)
      ensures forall i :: 0 <= i < |accessories| ==>
        AccessoryAt(i) == Place(ShipAt(), accessoryOffsets[i], currentAngle.cos, currentAngle.sin)
    {
      Move(live, delta, atan2);
      UpdateVengaFrames();
      UpdateShip93Frames();
      PlaceAccessories();
    }

    /** The movement part of `update`: pick the destination, then stand
        still (and stop following the pointer) within the arrival radius, or
        fly one step along the heading to it. */
    method Move(live: Point, delta: real, atan2: (real, real) -> Angle)
      requires Valid() && IsAtan2(atan2)
      modifies this`currentAngle, this`arrived, ship`x, ship`y
      ensures Valid()
      ensures old(Destination(live)).None? ==>
        ShipAt() == old(ShipAt()) && currentAngle == old(currentAngle) && arrived == old(arrived)
      ensures old(Destination(live)).Some? && !Far(old(ShipAt()), old(Destination(live)).value) ==>
        ShipAt() == old(ShipAt()) && currentAngle == old(currentAngle) && !arrived
      ensures old(Destination(live)).Some? && Far(old(ShipAt()), old(Destination(live)).value) ==>
        var to := old(Destination(live)).value;
        currentAngle == atan2(to.y - old(ship.y), to.x - old(ship.x)) &&
        AimsAt(old(ShipAt()), to, currentAngle.cos, currentAngle.sin) &&
        ShipAt() == Advance(old(ShipAt()), currentAngle.cos, currentAngle.sin, speed * (delta / 1000.0)) &&
        arrived == old(arrived)
    {
      var destination := Destination(live);
      if destination.Some? {
        var dx := destination.value.x - ship.x;
        var dy := destination.value.y - ship.y;
        if dx * dx + dy * dy > ArrivalRadiusSquared {
          assert dx != 0.0 || dy != 0.0;
          var angle := atan2(dy, dx);
          assert Atan2Of(angle, dy, dx);
          var vx := angle.cos * speed * (delta / 1000.0);
          var vy := angle.sin * speed * (delta / 1000.0);
          Associate(angle.cos, speed, delta / 1000.0);
          Associate(angle.sin, speed, delta / 1000.0);
          ship.x := ship.x + vx;
          ship.y := ship.y + vy;
          currentAngle := angle;
        } else {
          if arrived {
            arrived := false;
          }
        }
      }
    }

    /** `updateVengaFrames`: the ship shows the venga frame of the heading. */
    method UpdateVengaFrames()
      requires Wired() && ValidAngle(currentAngle)
      modifies ship`frame
      ensures ship.frame == VengaFrame(currentAngle.degrees)
    {
      ship.frame := VengaFrame(currentAngle.degrees);
    }

    /** `updateShip93Frames`: every accessory shows the same ship93 frame,
        the one of the heading. */
    method UpdateShip93Frames()
      requires Wired() && ValidAngle(currentAngle)
      modifies accessories
      ensures forall i :: 0 <= i < |accessories| ==>
        accessories[i].frame == Ship93Frame(currentAngle.degrees) &&
        AccessoryAt(i) == old(AccessoryAt(i))
    {
      var frame := Ship93Frame(currentAngle.degrees);
      var i := 0;
      while i < |accessories|
        invariant 0 <= i <= |accessories|
        invariant forall k :: 0 <= k < i ==> accessories[k].frame == frame
        invariant forall k :: 0 <= k < |accessories| ==> AccessoryAt(k) == old(AccessoryAt(k))
      {
        accessories[i].frame := frame;
        i := i + 1;
      }
    }

    /** The accessory loop of `update`: each accessory is drawn at the ship's
        position minus its offset turned by the heading. */
    method PlaceAccessories()
      requires Wired()
      modifies accessories
      ensures forall i :: 0 <= i < |accessories| ==>
        AccessoryAt(i) == Place(ShipAt(), accessoryOffsets[i], currentAngle.cos, currentAngle.sin) &&
        accessories[i].frame == old(accessories[i].frame)
    {
      var i := 0;
      while i < |accessories|
        invariant 0 <= i <= |accessories|
        invariant forall k :: 0 <= k < i ==>
          AccessoryAt(k) == Place(ShipAt(), accessoryOffsets[k], currentAngle.cos, currentAngle.sin)
        invariant forall k :: 0 <= k < |accessories| ==> accessories[k].frame == old(accessories[k].frame)
      {
        var offset := accessoryOffsets[i];
        var offsetX := currentAngle.cos * offset.x - currentAngle.sin * offset.y;
        var offsetY := currentAngle.sin * offset.x + currentAngle.cos * offset.y;
        accessories[i].x := ship.x - offsetX;
        accessories[i].y := ship.y - offsetY;
        i := i + 1;
      }
    }
  }

  /** Real multiplication associates. A solver hint that keeps the movement
      step of Move stable; it states no fact about the scene. */
  lemma Associate(a: real, b: real, c: real)
    ensures a * b * c == a * (b * c)
  {
  }

  /** For a displacement straight along the positive x axis, atan2 gives
      heading 0 with cosine 1 and sine 0. */
  lemma Atan2AlongX(a: Angle, dx: real)
    requires dx > 0.0 && Atan2Of(a, 0.0, dx)
    ensures a == InitialAngle
  {
    assert a.sin * dx == 0.0;
    assert a.sin == 0.0;
    assert a.cos * a.cos == 1.0;
    assert a.cos > 0.0;
    PositiveUnit(a.cos);
  }

  /** The positive square root of 1 is 1. A solver hint for Atan2AlongX; it
      states no fact about the scene. */
  lemma PositiveUnit(c: real)
    requires c > 0.0 && c * c == 1.0
    ensures c == 1.0
  {
  }

  /** A click on empty space at (100, 0) with the ship at (0, 0), then one
      step of 100 ms: the ship flies 10 pixels along the x axis, keeps
      heading 0 and shows venga frame 16. */
  method SteerScenario(atan2: (real, real) -> Angle) returns (at: Point, heading: real, frame: int)
    requires IsAtan2(atan2)
    ensures at == Point(10.0, 0.0)
    ensures heading == 0.0
    ensures frame == 16
  {
    var scene := new Start(0.0, 0.0);
    scene.PointerDown(Point(100.0, 0.0), 0);
    assert Far(scene.ShipAt(), Point(100.0, 0.0));
    scene.Step(Point(100.0, 0.0), 100.0, atan2);
    var a := scene.currentAngle;
    at, heading, frame := scene.ShipAt(), a.degrees, scene.ship.frame;
    SteerOutcome(a, at, frame, atan2);
  }

  /** The arithmetic of SteerScenario: heading 0, 10 pixels, frame 16. */
  lemma SteerOutcome(a: Angle, at: Point, frame: int, atan2: (real, real) -> Angle)
    requires IsAtan2(atan2) && a == atan2(0.0 - 0.0, 100.0 - 0.0)
    requires at == Advance(Point(0.0, 0.0), a.cos, a.sin, 100.0 * (100.0 / 1000.0))
    requires ValidAngle(a) && frame == VengaFrame(a.degrees)
    ensures at == Point(10.0, 0.0) && a.degrees == 0.0 && frame == 16
  {
    assert Atan2Of(a, 0.0, 100.0);
    Atan2AlongX(a, 100.0);
    VengaFrameAtZero();
  }

  /** A click on empty space at (3, 4), 5 pixels from the ship at (0, 0),
      then one step: the ship does not move (there is no snap onto the
      target) and stops following the pointer, though the button is held. */
  method ArrivalScenario(atan2: (real, real) -> Angle) returns (at: Point, following: bool, held: bool)
    requires IsAtan2(atan2)
    ensures at == Point(0.0, 0.0) && !following && held
  {
    var scene := new Start(0.0, 0.0);
    scene.PointerDown(Point(3.0, 4.0), 0);
    scene.Step(Point(3.0, 4.0), 16.0, atan2);
    at, following, held := scene.ShipAt(), scene.arrived, scene.isMouseDown;
  }
}
