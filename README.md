# Start scene of the airship game, in Dafny

The game has one scene, `Start`. In it a ship (the "venga" sprite) flies
towards the point the player clicked, or follows the pointer while the button
is held. Two accessories (the "ship93" sprite) are drawn at fixed offsets
from the ship, and those offsets turn with the ship's heading. Each step, the
heading picks the frame each sprite shows: one of 32 venga frames for the ship,
and one of 72 ship93 frames shared by both accessories.

The project has three modules:

- `Frames` (frames.dfy): the heading-to-frame arithmetic of
  `updateVengaFrames` and `updateShip93Frames`, as pure functions on reals.
  JavaScript's `%` and `Math.round` are written out exactly. The file proves
  that each frame stays inside its sheet, gives the concrete frames at
  heading 0 and at ±180, and proves monotonicity, at most one frame per
  quantization step, and the one-frame step at each wrap-around.
- `Geometry` (geometry.dfy): points, the rotation that carries an
  accessory's offset round the ship, and the ship's straight-line advance. A
  direction is given by its cosine and sine, under `c*c + s*s == 1`, so no
  trigonometry is needed.
- `StartScene` (start.dfy): the scene state as a class `Start` with the
  fields the source updates. The pointer handlers and `update` are methods
  with `modifies` frames. `Sprite` stands for a Phaser sprite (position and
  frame). `Valid()` is the scene invariant: the heading is one atan2 can
  give, the pointer is followed only while the button is held, and every
  frame shown lies inside its sheet. The ship, the accessories and their
  offsets are `const` fields, so no method can change an offset. Only the
  drawn positions are recomputed.

How the model represents the source:

- The heading is an `Angle`: its degrees (what `Phaser.Math.RadToDeg` makes of
  `currentAngle`) together with its cosine and sine.
- `Math.atan2` is a function parameter of `Step`. `IsAtan2` states what the
  model relies on: a result within [-180, 180] degrees, a unit direction
  parallel to (dx, dy) and pointing towards it, and 0 degrees when the
  displacement points straight along the positive x axis.
- The test `Math.sqrt(dx*dx + dy*dy) > 5` is `dx*dx + dy*dy > 25`. Over the
  reals the two are exactly equivalent.
- `this.input.activePointer` is the parameter `live` of `Step`.
- The time since the last frame, `delta`, is a parameter of `Step`.
- `isMouseDown & arrived` applies `&` to two booleans. In JavaScript this
  gives 0 or 1, which is truthy exactly when `isMouseDown && arrived` is true,
  and it has no side effects. The model therefore uses `&&`.

Three behaviours of the code are easy to misread:

- On arrival there is no snap. Within 5 pixels of the destination the ship
  stays where it is. The target is not cleared. The only change is that
  `arrived` becomes false (`ArrivalScenario` shows this for the destination
  (3, 4)).
- `arrived` does not mean "has arrived". It means "follows the live pointer".
  A click on empty space sets it, and releasing the button or arriving clears
  it. So the ship stops following the pointer on arrival even while the
  button is still held. After that, `pointermove` no longer updates the
  target.
- The policy for accessory offsets is the rotating one: each accessory sits
  at `ship − R(heading)·offset`.

## Model

| member | source | states |
|---|---|---|
| `Frames.JsRem360` | src/scenes/Start.js:133 | JavaScript `a % 360`: within [0, 360) for a non-negative dividend, within (-360, 0] for a non-positive one, `a` itself when already in range, and `a - r` a whole multiple of 360 |
| `Frames.JsRound` | src/scenes/Start.js:134 | `Math.round`: the result is within half a unit of its argument, with halves going up (`x - 0.5 < r <= x + 0.5`) |
| `Frames.Quantize` | src/scenes/Start.js:134 | for a heading normalised into [0, 360), `round(deg/360*(count-1)) % count` is a frame in [0, count), and the `% count` never alters the rounded value |
| `Frames.VengaFrame` | src/scenes/Start.js:130-136 | the venga frame of every heading in [-180, 180] lies in [0, 32) |
| `Frames.Ship93Frame` | src/scenes/Start.js:138-144 | the ship93 frame of every heading in [-180, 180] lies in [0, 72) |
| `Frames.VengaNormalised` | src/scenes/Start.js:132-133 | adding 180 and then normalising gives `heading + 180` below the half turn, and 0 at heading 180 |
| `Frames.Ship93Normalised` | src/scenes/Start.js:140-141 | `(360 - heading) % 360` is `-heading` for headings up to 0 and `360 - heading` for positive headings |
| `Frames.VengaFrameAtZero` | src/scenes/Start.js:132-134 | heading 0 shows venga frame 16, since round(15.5) rounds half up |
| `Frames.Ship93FrameAtZero` | src/scenes/Start.js:140-142 | heading 0 shows ship93 frame 0 |
| `Frames.FramesAgreeAtHalfTurn` | src/scenes/Start.js:130-144 | atan2's two ends, -180 and 180, name one direction, and both banks give each the same frame (venga 0, ship93 36) |
| `Frames.JsRoundStep` | src/scenes/Start.js:134 | `Math.round` is monotone, and the rounded difference of two values is less than their difference plus one |
| `Frames.VengaFrameMonotone` | src/scenes/Start.js:130-136 | on [-180, 180) the venga frame never decreases as the heading grows, and it advances by at most one frame per 360/31 degrees |
| `Frames.VengaFrameWrap` | src/scenes/Start.js:130-136 | just below the half turn the frame is 31 and at 180 it is 0, so the wrap-around moves by one frame modulo 32 |
| `Frames.Ship93FrameMonotone` | src/scenes/Start.js:138-144 | on each side of heading 0 the ship93 frame never increases as the heading grows, and it moves by at most one frame per 360/71 degrees |
| `Frames.Ship93FrameWrap` | src/scenes/Start.js:138-144 | just above heading 0 the frame is 71 and at 0 it is 0, so the wrap-around moves by one frame modulo 72 |
| `Geometry.Place` | src/scenes/Start.js:118-127 | with `c*c + s*s == 1`, an accessory is drawn at squared distance `ox² + oy²` from the ship |
| `Geometry.Rotate` | src/scenes/Start.js:122-123 | the offset turned by the heading, `(c·ox − s·oy, s·ox + c·oy)`; with `c*c + s*s == 1` the turn keeps the offset's length |
| `Geometry.PlaceAtHeadingZero` | src/scenes/Start.js:122-126 | at heading 0 (c = 1, s = 0) the accessory sits at exactly ship − offset |
| `Geometry.PlaceRoundTrip` | src/scenes/Start.js:118-127 | turning the drawn position back by the heading recovers the offset, so placement loses nothing |
| `Geometry.Advance` | src/scenes/Start.js:99-103 | the ship's step `(x + cos·len, y + sin·len)`; for a unit direction the new position is exactly `len` from the old one |
| `Geometry.AdvanceAlongLine` | src/scenes/Start.js:92-103 | a step along the atan2 direction stays on the line to the destination: the distance left is the absolute value of (distance − step length) |
| `StartScene.Far` | src/scenes/Start.js:94-96 | the moving branch's test: the squared distance to the destination exceeds 25 |
| `StartScene.FarIffBeyondFive` | src/scenes/Start.js:94-96 | for the non-negative distance d with d² the squared distance, `Far` holds exactly when d > 5, so the squared test is the source's `Math.sqrt(...) > 5` |
| `StartScene.Atan2Of` | src/scenes/Start.js:98 | what the model assumes of `Math.atan2(dy, dx)` on one displacement that is not zero: degrees within [-180, 180], a unit (cos, sin) parallel to (dx, dy) and pointing towards it, and 0 degrees along the positive x axis |
| `StartScene.IsAtan2` | src/scenes/Start.js:98 | the one assumed contract of the model: the `atan2` parameter satisfies `Atan2Of` on every displacement that is not zero |
| `StartScene.Atan2DirectionUnique` | src/scenes/Start.js:98-100 | the assumption determines the direction: any two headings satisfying `Atan2Of` for one displacement have the same cosine and sine, so the step is the same whichever function meets `IsAtan2` |
| `StartScene.Sprite.constructor` | src/scenes/Start.js:32-39 | a sprite drawn at (x, y) showing the given frame |
| `StartScene.Start.constructor` | src/scenes/Start.js:2-45 | initial state: no target, button up, not following, speed 100, heading 0, ship at (width/4, height/2), two accessories on the ship with offsets (100, -80) and (100, 80), all on frame 0; the invariant holds |
| `StartScene.Start.PointerDown` | src/scenes/Start.js:50-60 | no hit: target := p, isMouseDown := true, arrived := true; any hit: target := none, and isMouseDown and arrived are unchanged; nothing else changes and the invariant is kept |
| `StartScene.Start.PointerUp` | src/scenes/Start.js:63-66 | isMouseDown and arrived become false, and the target is kept |
| `StartScene.Start.PointerMove` | src/scenes/Start.js:69-74 | target := p exactly when isMouseDown && arrived, and nothing changes otherwise |
| `StartScene.Start.Destination` | src/scenes/Start.js:80-88 | the live pointer if isMouseDown && arrived, else the stored target, and none exactly when neither applies |
| `StartScene.Start.FollowsPointerIffArrived` | src/scenes/Start.js:50-88 | under the invariant `arrived ==> isMouseDown`, the live pointer is used exactly when `arrived` holds |
| `StartScene.Start.Step` | src/scenes/Start.js:77-128 | one `update`: the movement as in Move, then the ship shows VengaFrame of the heading, every accessory shows the same Ship93Frame of it, and every accessory is at Place(ship, its offset, heading); the invariant is kept |
| `StartScene.Start.Move` | src/scenes/Start.js:77-111 | with no destination, position, heading and arrived are unchanged; within distance 5, position and heading are unchanged and arrived ends false; beyond it, the heading becomes atan2(dy, dx), which aims at the destination, and the ship advances speed·delta/1000 along it; the heading is written only in the moving branch |
| `StartScene.Start.UpdateVengaFrames` | src/scenes/Start.js:130-136 | the ship's frame becomes VengaFrame of the heading |
| `StartScene.Start.UpdateShip93Frames` | src/scenes/Start.js:138-144 | every accessory's frame becomes the single value Ship93Frame of the heading, and positions are untouched |
| `StartScene.Start.PlaceAccessories` | src/scenes/Start.js:117-127 | every accessory is moved to ship − R(heading)·offset, and frames are untouched |
| `StartScene.Atan2AlongX` | src/scenes/Start.js:98-100 | for a displacement straight along the positive x axis, the heading atan2 gives is 0 degrees with cosine 1 and sine 0, so the ship moves along +x |
| `StartScene.SteerScenario` | src/scenes/Start.js:50-104 | ship at (0, 0), click at (100, 0), one 100 ms step: the ship is at (10, 0) with heading 0 and shows venga frame 16 |
| `StartScene.ArrivalScenario` | src/scenes/Start.js:50-111 | ship at (0, 0), click at (3, 4): after one step the ship has not moved and stops following the pointer while the button is still held |

## Left out

- Floating point: all arithmetic is on unbounded reals. IEEE rounding in the `(degrees / 360) * 31` product and in the movement is not modelled.
- Trigonometry: `Math.atan2`, `Math.cos`, `Math.sin` and `Math.sqrt` are not computed. atan2 is a parameter constrained by `StartScene.IsAtan2`, and the square root is replaced by comparing squared distances.
- Move: the heading's degrees are tied to its cosine and sine only by the range of atan2 and by the zero case on the positive x axis. So the frame shown is proved to be that of the heading recorded, not that of the true direction of travel.
- `Phaser.Math.RadToDeg`: the heading is kept in degrees directly, so the conversion from radians is not modelled.
- `preload` and the rest of `create`: asset loading, the background and sun images, `setScale`, `setInteractive` and `setOrigin` are rendering calls with no bearing on positions and frames. The scale width and height are constructor parameters.
- `setFrame` is modelled as writing the sprite's `frame` field. How a frame is drawn is not modelled.
- The input system: the pointer events arrive as method calls, and the hit test is given as the number of sprites hit. `this.input.activePointer` is the parameter `live`.
- Event-loop interleaving: each handler and each `update` is one atomic method call on the scene object.
- src/main.js: game configuration and bootstrap only, with no logic.
- Non-finite pointer coordinates cannot arise with reals.
