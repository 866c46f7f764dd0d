# Bouncer: a Dafny model of the frame simulation

The game in `js/main.js` draws four pads on the edges of the screen and a
growing number of balls. The balls are launched from the centre at regular
intervals. They bounce off the screen edges and the pads, and the pointer
moves the pads. This project models the simulation that runs once per
animation frame, and proves what it does.

Modules, in dependency order:

- `JsNumber` (`js_number.dfy`): `Math.round`, and the decimal text of a counter value.
- `Geometry` (`geometry.dfy`):
  - the rectangle of a sprite and its edge and centre getters;
  - the `nextX`/`nextY` targets the `xpos`/`ypos` setters compute;
  - the directional collision test `isCollidingWith`.
- `Physics` (`physics.dfy`), pure functions on a ball's state:
  - the bounce rule on each axis;
  - the position advance;
  - the state of a freshly launched ball;
  - a ball's state after any number of frames.
- `Sprites` (`sprites.dfy`): the class `Sprite`, used for pads and balls alike. Its methods are:
  - `readFromDOM`;
  - the two setters and `setPosition`, which may throw;
  - the pad scan `isCollidingWithAnyPad`, a loop with early exits.
- `Bouncer` (`bouncer.dfy`): the class `Game`, which holds the state of the script's closure:
  - the four pads and the balls in play;
  - the queue of prepared ball ids and the id counter;
  - the time stamps and the viewport size.

  Its methods are the setup code, the pointer listener, `Ball.prepare`,
  `Ball.flushPending`, `nextFrame` (split into its read phase and its update
  phase) and the animation-loop turn.

  The module also holds the id bookkeeping: every ball ever prepared is in
  play or queued, and no id occurs twice. This is stated on values and
  proved kept by every transition.

The page is a parameter. The function `layout` maps an element id to the
rectangle `getBoundingClientRect` reports for that element. The viewport
size, the clock and the launch direction are also parameters. Positions are
`real`, because a centred sprite may sit on a half pixel, and
`Math.round(v)` is `Floor(v + 1/2)`.

The model follows the code also where it does something a reader might not
expect:

- **Positions are not always whole pixels.** `flushPending` copies a centred
  target, which may be a half pixel, into `x`/`y` (js/main.js:310-311).
- **Each setter throws its own error.** An unknown x mode and an unknown y
  mode are different errors, `UnknownXPosition` and `UnknownYPosition`
  (js/main.js:131, 152).
- **A launched ball is centred against the previous frame's viewport.**
  `flushPending` runs before `width` and `height` are polled
  (js/main.js:371-374).
- **No pad is ever excluded from the pad scan.** The exclude arguments
  `sprites.padEast` and the like are read from a `Set`, so they are
  `undefined` (js/main.js:322, 389-397).
- **Setup swaps the east and west pads.** The east pad starts at the left
  edge and the west pad at the right edge (js/main.js:335-336). Every frame
  then puts them the other way round (js/main.js:418-422). `StartPlacement`
  and `PadsPlaced` keep both placements as written.

## Model

| member | source | states |
|---|---|---|
| JsNumber.Round | js/main.js:79-82 | `Math.round`: the result is within half a unit of the argument, and halves go up |
| JsNumber.NatToDecimal | js/main.js:280 | the decimal text of a counter value is non-empty, made of digits, and has no leading zero |
| JsNumber.DecimalRoundTrip | js/main.js:280 | reading the decimal text of `n` gives back `n` |
| JsNumber.DecimalInjective | js/main.js:280 | different counter values have different decimal texts |
| Geometry.CenterIsMidpoint | js/main.js:95-111 | `E - W` is the width and `S - N` the height; each centre is midway between its two edges, and lies between them when the size is non-negative |
| Geometry.XPosTarget | js/main.js:119-133 | "left" gives 0, "right" gives `width - this.width`, "center" gives the centred value; any other mode is the `UnknownXPosition` error |
| Geometry.YPosTarget | js/main.js:140-154 | the vertical mirror: "top", "bottom" and "center"; any other mode is the `UnknownYPosition` error |
| Geometry.Between | js/main.js:185 | the inclusive range test is false whenever `lo > hi` |
| Geometry.IsCollidingWith | js/main.js:182-206 | each of "W", "E", "N" and "S" tests the midpoint of the edge the sprite leads with against the pad's closed rectangle; any other direction is the `UnknownDirection` error |
| Geometry.CollisionImpliesOverlap | js/main.js:182-206 | a reported collision means the two rectangles share a point |
| Geometry.CornerOverlapIsNotCollision | js/main.js:188-191 | the converse fails: a ball over a pad's corner with its centre past the pad is not a collision |
| Geometry.CollisionExamples | js/main.js:188-191 | a ball whose east edge is inside a pad collides from the west; a ball left of the pad does not |
| Physics.Bounce | js/main.js:385-405 | the bounce step changes only `dx` and `dy`, and keeps their magnitudes |
| Physics.BounceRule | js/main.js:385-405 | for each axis, the component flips if and only if it is negative and the near edge is reached or a pad is hit from that side, or it is positive and the far edge is reached or a pad is hit from the other side; so zero never flips, and both axes may flip at once |
| Physics.BounceHeadsInward | js/main.js:385-405 | after the bounce step, a ball at the left edge only, not hit from the west, is not heading left; a ball at the right edge only, not hit from the east, is not heading right |
| Physics.Advance | js/main.js:425-428 | the new target is within half a pixel of `x + dx*speed*deltaT` (and the same for y); nothing but the target changes |
| Physics.AdvanceExample | js/main.js:425-428 | x = 500, dx = -71, speed = 0.1, deltaT = 16 gives the target 386 |
| Physics.RunKeepsSpeedAndMagnitude | js/main.js:385-428 | over any number of frames a ball keeps its speed and the magnitudes of `dx` and `dy` |
| Physics.LaunchedIsCentred | js/main.js:298-313 | a launched ball keeps its element's size, has its centre at the centre of the viewport, sits on its target, and moves with the given direction and speed |
| Sprites.Sprite.constructor | js/main.js:48-72 | `new Sprite(id)` keeps the id and reads the rounded rectangle of its element |
| Sprites.Sprite.ReadFromDOM | js/main.js:77-83 | the rectangle becomes the rounded page rectangle, and no other field changes |
| Sprites.Sprite.SetXPos | js/main.js:119-133 | on success `nextX` is the target for the mode; an unknown mode fails with `UnknownXPosition` and leaves `nextX` as it was; nothing but `nextX` may change |
| Sprites.Sprite.SetYPos | js/main.js:140-154 | the vertical mirror of `SetXPos`, on `nextY` |
| Sprites.Sprite.SetPosition | js/main.js:163-166 | both targets are set when both modes are known; an unknown x mode fails first and sets nothing; an unknown y mode fails after `nextX` is set |
| Sprites.Sprite.IsCollidingWithAnyPad | js/main.js:239-249 | for a known direction, the answer is whether some pad other than `exclude` reports a collision; for an unknown direction, the answer is the error when some pad is tested and false when none is |
| Sprites.ScanWithoutExclusion | js/main.js:389-397 | when `exclude` is not a pad, as at every call site, the scan's answer is exactly `AnyPadHit` over the pads' rectangles |
| Bouncer.BallIdRoundTrip | js/main.js:280 | a ball id gives back the counter value it was made from |
| Bouncer.BallIdInjective | js/main.js:280 | ids made from different counter values differ |
| Bouncer.PreparedIds | js/main.js:279-288 | after `n` preparations there are `n` prepared ids |
| Bouncer.PreparedIdsAt | js/main.js:280 | the `i`-th prepared ball got the id made from `i` |
| Bouncer.PreparedIdsDistinct | js/main.js:280 | no two prepared balls share an id |
| Bouncer.InitialIdsValid | js/main.js:254-262 | the bookkeeping holds with no ball in play, none queued, and the counter at 0 |
| Bouncer.IdsValidMeans | js/main.js:256-262 | under the bookkeeping, the balls in play and the queue together hold `counter` distinct ids, all of them prepared, and the next id is unlike all of them |
| Bouncer.PrepareKeepsIds | js/main.js:279-288 | queuing the id made from the counter and incrementing the counter keeps the bookkeeping |
| Bouncer.FlushKeepsIds | js/main.js:293-316 | moving the last queued id into play keeps the bookkeeping |
| Bouncer.FrameKeepsIds | js/main.js:371 | one frame keeps the bookkeeping: the flush, then a preparation when the timer is due |
| Bouncer.FrameKeepsBallIds | js/main.js:371 | when the balls, the queue and the counter change as `Game.NextFrame` and `Game.Tick` state (the last queued ball launched when there is one, then at most one ball prepared), the ids of the balls in play and the queue keep the bookkeeping |
| Bouncer.Game.constructor | js/main.js:322-340 | the setup (with the viewport poll and time stamps of js/main.js:12-39) polls the viewport, creates four new, distinct pads with their own ids and reads their rectangles; pointers are zero; the pads get the setup placement; there are no balls, no queue and the counter is 0; the game start, previous frame and current frame come from three successive clock reads, the previous one set back 15 ms, so the first frame's elapsed time is 15 ms plus the time between the last two reads; the latest launch is 0 |
| Bouncer.Game.PlaceAtStart | js/main.js:333-336 | north is centred at the top, south centred at the bottom, east at the left edge and west at the right edge, both centred vertically |
| Bouncer.Game.OnMove | js/main.js:346-353 | every pad stores the pointer coordinates, and no pad's rectangle, target or motion changes |
| Bouncer.Game.Prepare | js/main.js:279-288 | the counter goes up by one and the id made from its old value joins the end of the queue |
| Bouncer.Game.NewBall | js/main.js:298-313 | a fresh ball with the given id, its rectangle read and then centred on both axes, its position equal to its target, moving with the launch direction at the configured speed |
| Bouncer.Game.FlushPending | js/main.js:293-316 | with an empty queue nothing changes; otherwise the last queued id leaves the queue, and one fresh ball with that id joins the end of `balls` in its launch state; the balls already in play stay, in order |
| Bouncer.Game.LaunchKeepsValid | js/main.js:314-315 | appending a ball that is neither in play nor a pad keeps the balls distinct and apart from the pads, and keeps the count |
| Bouncer.Game.ReadPads | js/main.js:367-369 | each pad's rectangle becomes the rectangle read for its element |
| Bouncer.Game.ReadBalls | js/main.js:367-369 | each ball's rectangle becomes the rectangle read for its element, and nothing else of the ball changes |
| Bouncer.Game.DecideHorizontal | js/main.js:388-392 | the horizontal decision equals `HorizontalBounce` for the ball's rectangle, its `dx`, the viewport width and the pads' rectangles |
| Bouncer.Game.DecideVertical | js/main.js:394-398 | the vertical decision equals `VerticalBounce` |
| Bouncer.Game.BounceBall | js/main.js:385-405 | the ball's new state is `Bounce` of its old state |
| Bouncer.Game.BounceBalls | js/main.js:385-405 | every ball in play takes its bounce step |
| Bouncer.Game.PlacePads | js/main.js:412-422 | north and south follow the pointer's x at the top and bottom edges; east and west follow the pointer's y at the right and left edges |
| Bouncer.Game.AdvanceBalls | js/main.js:425-428 | every ball's new state is `Advance` of its old state over `deltaT` |
| Bouncer.Game.AdvanceBall | js/main.js:426-427 | one ball's new state is `Advance` of its old state |
| Bouncer.Game.SpawnIfDue | js/main.js:438-442 | when `intervalBetweenBalls` has passed since the latest launch, one ball is prepared and the launch time becomes the current frame's; otherwise counter, queue and launch time stay |
| Bouncer.Game.ReadSprites | js/main.js:367-369 | pads first, then balls: every rectangle is read from the page, and the pointers stay |
| Bouncer.Game.ReadPhase | js/main.js:367-374 | after the reads, the flush and the viewport poll, each ball's state is the one before with its rectangle read; a launched ball is in its launch state against the viewport polled before |
| Bouncer.Game.MovePhase | js/main.js:385-428 | every ball takes one `Step` (bounce, then advance), the pads are placed, and the pads' rectangles stay |
| Bouncer.Game.UpdatePhase | js/main.js:379-442 | every ball takes one `Step` with `deltaT = currentFrame - previousFrame`; the balls stay as they are; then the spawn timer runs |
| Bouncer.Game.NextFrame | js/main.js:359-451 | every ball takes one `Step` from its state as read; a ball is launched exactly when the queue was non-empty; the pads are read and placed; the viewport is the new one; the spawn timer either prepares one ball and records the launch, or changes nothing |
| Bouncer.Game.Tick | js/main.js:456-461 | the time stamps shift to `now`; every ball takes one `Step` over `now` minus the previous frame's time, from its state before the turn with its rectangle read, or, for a launched ball, from its launch state; a ball is launched exactly when the queue was non-empty; the pads are read and placed; the viewport is the new one; the spawn timer compares `now` with the latest launch and either prepares one ball or changes nothing |
| Bouncer.PlayTurn | js/main.js:456-461 | one turn of the animation loop on a valid game leaves it valid with the current frame at `now`; the balls already in play stay, in order; when the queue was non-empty exactly one new ball is added, carrying the last queued id; the queue loses that id and either nothing else changes or one more id, built from the counter, is queued and the counter grows by one |
| Bouncer.PlayTurnKeepingIds | js/main.js:456-461 | one turn keeps the id bookkeeping as well: the ids in play and in the queue stay the run of `Ball.prepare` ids; the balls in play stay and every added ball is new |
| Bouncer.PlayTurns | js/main.js:456-461 | any number of turns keeps the game valid and the id bookkeeping; after the last turn the current frame is that turn's clock read, and with no turn it is unchanged |
| Bouncer.Play | js/main.js:12-461 | the whole script (setup, the first `nextFrame`, then the turns of the loop) yields a new, valid game whose ball ids in play and in the queue are distinct and keep the bookkeeping; the current frame is the last clock read |

## Left out

- DOM writes: `writeToDOM`, the `init` class, `textContent`, `createElement`, `appendChild` and the `screen` style (js/main.js:88-91, 267-274, 281-286, 443-447). The targets `nextX`/`nextY` a frame leaves are the values that would be written.
- `getBoundingClientRect`, `window.innerWidth`/`innerHeight`, `Date.now` and `requestAnimationFrame` are parameters: `layout`, `viewWidth`/`viewHeight`, and the clock values `startClock`, `previousClock`, `currentClock` (the three reads of the setup, one parameter each) and `now` (the read of each turn). `Play` runs the script for a given sequence of turns, each with its own clock read and page; `Tick` is one turn.
- The first `nextFrame()` call after setup (js/main.js:453) is the `NextFrame` call that `Play` makes after the constructor; the endless `requestAnimationFrame` loop (js/main.js:456-461) is a finite sequence of turns.
- The random launch angle and `Math.cos`/`Math.sin` (js/main.js:303-305) are left out. The direction `(launchDx, launchDy)` is a parameter of the flush.
- IEEE-754 doubles are modelled as exact reals, so rounding error in `dx*speed*deltaT` and in the centring is not modelled.
- `Game.Utils.between` is defined in a file that is not part of this model. It is taken to be inclusive at both ends.
- Fields the source leaves `null` or `undefined` start at 0: the targets before the first setter call, and the pointer before the first pointer event.
- Bouncer.PreparedIdsDistinct: holds for the source only below 2^53 preparations. `Ball._counter` is a double (js/main.js:258, 280); once it reaches 2^53, `Ball._counter++` leaves it at 2^53, so every later `Ball.prepare` makes the same id. The model's counter is an unbounded `nat`, which never repeats an id. At one ball per spawn interval that point is unreachable in practice.
- `addEventListener`, `stopPropagation` and `preventDefault` (js/main.js:351-356) are host plumbing. `OnMove` is the listener body.
- The `sprites` set is not a field. Its iteration order (pads first, then balls in launch order) is the order `ReadSprites` reads in.
- Bouncer.Game.NextFrame: does not restate the id bookkeeping `IdsValid` in its own ensures. Its ensures give the exact change to the balls, the queue and the counter, and `FrameKeepsBallIds` proves that this change keeps the bookkeeping of the balls' ids. The same holds for `Tick`, for `Prepare` (with `PrepareKeepsIds`) and for `FlushPending` (with `FlushKeepsIds`).
- Bouncer.Game.Tick: does not restate the id bookkeeping either; see the `NextFrame` line above.
- Sprites.Sprite.IsCollidingWithAnyPad: an error from a pad's test is returned as a `Result` instead of thrown.
