/**
 Heading-to-frame quantization of the Start scene: the heading of the ship,
 in degrees as Math.atan2 and RadToDeg give it (so within [-180, 180]), picks
 one frame of the 32-frame venga sheet and one of the 72-frame ship93 sheet.
 */
module Frames {

  /** Number of frames in the venga sprite sheet (the ship). */
  const VengaFrameCount: int := 32

  /** Number of frames in the ship93 sprite sheet (every accessory). */
  const Ship93FrameCount: int := 72

  /** JavaScript's `a % 360`: the remainder of truncating division by 360,
      which has the sign of the dividend. */
  function JsRem360(a: real): (r: real)
    ensures 0.0 <= a ==> 0.0 <= r < 360.0
    ensures a <= 0.0 ==> -360.0 < r <= 0.0
    ensures 0.0 <= a < 360.0 ==> r == a
    ensures ((a - r) / 360.0).Floor as real == (a - r) / 360.0
  {
    if a >= 0.0 then
      var q := (a / 360.0).Floor;
      TurnsRemoved(a);
      WholeTurns(q);
      a - 360.0 * q as real
    else
      var q := (-a / 360.0).Floor;
      TurnsRemoved(-a);
      WholeTurns(q);
      -(-a - 360.0 * q as real)
  }

  /** Removing the whole turns from a non-negative angle leaves [0, 360),
      and removes none below 360. A solver hint for JsRem360. */
  lemma TurnsRemoved(b: real)
    requires b >= 0.0
    ensures 0.0 <= b - 360.0 * (b / 360.0).Floor as real < 360.0
    ensures b < 360.0 ==> (b / 360.0).Floor == 0
  {
  }

  /** A whole number of turns, either way round, is divisible by 360. A
      solver hint for JsRem360. */
  lemma WholeTurns(q: int)
    ensures ((360.0 * q as real) / 360.0).Floor == q
    ensures ((-360.0 * q as real) / 360.0).Floor == -q
  {
  }

  /** JavaScript's `Math.round`: the nearest integer, halves going up. */
  function JsRound(x: real): (r: int)
    ensures x - 0.5 < r as real <= x + 0.5
  {
    (x + 0.5).Floor
  }

  /** A fraction below one of a non-negative amount is at most the amount.
      A solver hint for Quantize. */
  lemma FractionOf(fraction: real, m: real)
    requires 0.0 <= fraction < 1.0 && m >= 0.0
    ensures 0.0 <= fraction * m <= m
  {
    assert m - fraction * m == (1.0 - fraction) * m;
  }

  /** The shared step of both frame updates: a heading normalised into
      [0, 360) spread over `count - 1` steps, then reduced modulo `count`.
      The reduction never changes the rounded value. */
  function Quantize(degrees: real, count: int): (f: int)
    requires 0.0 <= degrees < 360.0 && count > 0
    ensures 0 <= f < count
    ensures f == JsRound(degrees / 360.0 * (count - 1) as real)
  {
    var scaled := degrees / 360.0 * (count - 1) as real;
    FractionOf(degrees / 360.0, (count - 1) as real);
    var rounded := JsRound(scaled);
    assert 0 <= rounded < count;
    assert rounded % count == rounded;
    rounded % count
  }

  /** `updateVengaFrames`: turn by 180 degrees, normalise, pick among 32. */
  function VengaFrame(heading: real): (f: int)
    requires -180.0 <= heading <= 180.0
    ensures 0 <= f < VengaFrameCount
  {
    var degrees := heading + 180.0;
    Quantize(JsRem360(degrees + 360.0), VengaFrameCount)
  }

  /** `updateShip93Frames`: mirror the heading, normalise, pick among 72. */
  function Ship93Frame(heading: real): (f: int)
    requires -180.0 <= heading <= 180.0
    ensures 0 <= f < Ship93FrameCount
  {
    var inverseDegrees := JsRem360(360.0 - heading);
    Quantize(inverseDegrees, Ship93FrameCount)
  }

  /** Normalised venga angle: the heading shifted into [0, 360). */
  lemma VengaNormalised(heading: real)
    requires -180.0 <= heading <= 180.0
    ensures heading < 180.0 ==> JsRem360(heading + 180.0 + 360.0) == heading + 180.0
    ensures heading == 180.0 ==> JsRem360(heading + 180.0 + 360.0) == 0.0
  {
    var a := heading + 180.0 + 360.0;
    var q := (a / 360.0).Floor;
    assert 1.0 <= a / 360.0 <= 2.0;
    if heading < 180.0 {
      assert a / 360.0 < 2.0;
      assert q == 1;
    } else {
      assert q == 2;
    }
  }

  /** Normalised ship93 angle: the mirrored heading in [0, 360). */
  lemma Ship93Normalised(heading: real)
    requires -180.0 <= heading <= 180.0
    ensures heading <= 0.0 ==> JsRem360(360.0 - heading) == -heading
    ensures heading > 0.0 ==> JsRem360(360.0 - heading) == 360.0 - heading
  {
    var a := 360.0 - heading;
    var q := (a / 360.0).Floor;
    assert 0.5 <= a / 360.0 <= 1.5;
    if heading <= 0.0 {
      assert q == 1;
    } else {
      assert q == 0;
    }
  }

  /** Heading 0 (pointing right) shows venga frame 16: round(15.5) = 16. */
  lemma VengaFrameAtZero()
    ensures VengaFrame(0.0) == 16
  {
    VengaNormalised(0.0);
    assert 180.0 / 360.0 * 31.0 == 15.5;
  }

  /** Heading 0 shows ship93 frame 0. */
  lemma Ship93FrameAtZero()
    ensures Ship93Frame(0.0) == 0
  {
    Ship93Normalised(0.0);
  }

  /** The two ends of atan2's range are one direction, and both banks agree
      on it: -180 and 180 give the same frame. */
  lemma FramesAgreeAtHalfTurn()
    ensures VengaFrame(-180.0) == VengaFrame(180.0) == 0
    ensures Ship93Frame(-180.0) == Ship93Frame(180.0) == 36
  {
    VengaNormalised(-180.0);
    VengaNormalised(180.0);
    Ship93Normalised(-180.0);
    Ship93Normalised(180.0);
    assert 180.0 / 360.0 * 71.0 == 35.5;
  }

  /** Rounding is monotone and moves by less than the distance plus one. */
  lemma JsRoundStep(x: real, y: real)
    requires x <= y
    ensures JsRound(x) <= JsRound(y)
    ensures (JsRound(y) - JsRound(x)) as real < y - x + 1.0
  {
  }

  /** On [-180, 180) the venga frame never decreases as the heading grows,
      and it advances by at most one frame per 360/31 degrees. */
  lemma VengaFrameMonotone(d1: real, d2: real)
    requires -180.0 <= d1 <= d2 < 180.0
    ensures VengaFrame(d1) <= VengaFrame(d2)
    ensures (VengaFrame(d2) - VengaFrame(d1)) as real < (d2 - d1) / 360.0 * 31.0 + 1.0
  {
    VengaNormalised(d1);
    VengaNormalised(d2);
    var x := (d1 + 180.0) / 360.0 * 31.0;
    var y := (d2 + 180.0) / 360.0 * 31.0;
    assert y - x == (d2 - d1) / 360.0 * 31.0;
    JsRoundStep(x, y);
  }

  /** Just short of the half turn the venga frame is 31, the neighbour of the
      frame 0 shown at 180 degrees: the wrap-around moves by one frame. */
  lemma VengaFrameWrap(heading: real)
    requires 180.0 - 180.0 / 31.0 <= heading < 180.0
    ensures VengaFrame(heading) == VengaFrameCount - 1
    ensures VengaFrame(180.0) == 0
  {
    VengaNormalised(heading);
    VengaNormalised(180.0);
    var x := (heading + 180.0) / 360.0 * 31.0;
    assert 30.5 <= x < 31.0;
  }

  /** On each half of the range the ship93 frame never increases as the
      heading grows, and it moves by at most one frame per 360/71 degrees. */
  lemma Ship93FrameMonotone(d1: real, d2: real)
    requires -180.0 <= d1 <= d2 <= 180.0
    requires d2 <= 0.0 || 0.0 < d1
    ensures Ship93Frame(d2) <= Ship93Frame(d1)
    ensures (Ship93Frame(d1) - Ship93Frame(d2)) as real < (d2 - d1) / 360.0 * 71.0 + 1.0
  {
    Ship93Normalised(d1);
    Ship93Normalised(d2);
    var n1 := JsRem360(360.0 - d1);
    var n2 := JsRem360(360.0 - d2);
    assert n1 - n2 == d2 - d1;
    var x := n2 / 360.0 * 71.0;
    var y := n1 / 360.0 * 71.0;
    assert y - x == (d2 - d1) / 360.0 * 71.0;
    JsRoundStep(x, y);
  }

  /** Just past heading 0 the ship93 frame is 71, the neighbour of the frame
      0 shown at heading 0: the wrap-around moves by one frame. */
  lemma Ship93FrameWrap(heading: real)
    requires 0.0 < heading <= 180.0 / 71.0
    ensures Ship93Frame(heading) == Ship93FrameCount - 1
    ensures Ship93Frame(0.0) == 0
  {
    Ship93Normalised(heading);
    Ship93Normalised(0.0);
    var x := (360.0 - heading) / 360.0 * 71.0;
    assert 70.5 <= x < 71.0;
  }
}
