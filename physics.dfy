/**
 * The per-ball rules of `nextFrame` in js/main.js as pure functions: the
 * bounce rule on each axis, the position advance, the state of a freshly
 * launched ball, and what a ball's direction and speed look like after any
 * number of frames.
 */
module Physics {
  import opened JsNumber
  import opened Geometry

  /** The ball fields a frame reads and writes: rectangle, target, and `event.dx`, `event.dy`, `event.speed`. */
  datatype BallState = BallState(box: Box, nextX: real, nextY: real, dx: int, dy: int, speed: real)

  function Abs(n: int): nat {
    if n < 0 then -n else n
  }

  /**
   * Some pad reports a collision with `ball` arriving from `dir`. Every pad
   * is considered: the call sites pass an exclude argument that is always
   * undefined.
   */
  predicate AnyPadHit(pads: seq<Box>, dir: string, ball: Box) {
    exists k :: 0 <= k < |pads| && IsCollidingWith(pads[k], dir, ball) == Ok(true)
  }

  /** The horizontal bounce decision of a ball moving with `dx` in a viewport `viewWidth` wide. */
  predicate HorizontalBounce(b: Box, dx: int, viewWidth: real, pads: seq<Box>) {
    if dx < 0 then b.x <= 0.0 || AnyPadHit(pads, "E", b)
    else if dx > 0 then b.E() >= viewWidth || AnyPadHit(pads, "W", b)
    else false
  }

  /** The vertical bounce decision: the mirror of `HorizontalBounce`. */
  predicate VerticalBounce(b: Box, dy: int, viewHeight: real, pads: seq<Box>) {
    if dy < 0 then b.y <= 0.0 || AnyPadHit(pads, "S", b)
    else if dy > 0 then b.S() >= viewHeight || AnyPadHit(pads, "N", b)
    else false
  }

  /**
   * The bounce step for one ball: each axis is decided on its own and a
   * bounce negates that component. Only the direction changes, and never its
   * magnitude.
   */
  function Bounce(s: BallState, viewWidth: real, viewHeight: real, pads: seq<Box>): (r: BallState)
    ensures r.box == s.box && r.nextX == s.nextX && r.nextY == s.nextY && r.speed == s.speed
    ensures Abs(r.dx) == Abs(s.dx) && Abs(r.dy) == Abs(s.dy)
  {
    s.(dx := if HorizontalBounce(s.box, s.dx, viewWidth, pads) then -s.dx else s.dx,
       dy := if VerticalBounce(s.box, s.dy, viewHeight, pads) then -s.dy else s.dy)
  }

  /**
   * When a component flips: moving left, at or past the left edge or hitting
   * a pad from the east; moving right, at or past the right edge or hitting a
   * pad from the west (and the same vertically). A zero component never flips,
   * and both components may flip in the same frame.
   */
  lemma BounceRule(s: BallState, viewWidth: real, viewHeight: real, pads: seq<Box>)
    ensures var r := Bounce(s, viewWidth, viewHeight, pads);
      (r.dx == s.dx || r.dx == -s.dx) && (r.dy == s.dy || r.dy == -s.dy) &&
      (r.dx != s.dx <==>
        (s.dx < 0 && (s.box.x <= 0.0 || AnyPadHit(pads, "E", s.box))) ||
        (s.dx > 0 && (s.box.x + s.box.width >= viewWidth || AnyPadHit(pads, "W", s.box)))) &&
      (r.dy != s.dy <==>
        (s.dy < 0 && (s.box.y <= 0.0 || AnyPadHit(pads, "S", s.box))) ||
        (s.dy > 0 && (s.box.y + s.box.height >= viewHeight || AnyPadHit(pads, "N", s.box))))
  {
  }

  /**
   * After the bounce step a ball touching the left edge of the viewport, but
   * not also its right edge, and struck by no pad from the west, is not
   * heading further left; a ball touching the right edge, not the left, and
   * struck by no pad from the east, is not heading further right.
   */
  lemma BounceHeadsInward(s: BallState, viewWidth: real, viewHeight: real, pads: seq<Box>)
    ensures var r := Bounce(s, viewWidth, viewHeight, pads);
      (s.box.x <= 0.0 && s.box.E() < viewWidth && !AnyPadHit(pads, "W", s.box) ==> r.dx >= 0) &&
      (s.box.E() >= viewWidth && s.box.x > 0.0 && !AnyPadHit(pads, "E", s.box) ==> r.dx <= 0)
  {
  }

  /** The exact displacement along one axis over `deltaT` milliseconds. */
  function Displacement(d: int, speed: real, deltaT: int): real {
    d as real * speed * deltaT as real
  }

  /**
   * The position advance: the new target is the current position moved by
   * the displacement rounded to a whole pixel, so it is off the exact
   * position by at most half a pixel. Nothing but the target changes.
   */
  function Advance(s: BallState, deltaT: int): (r: BallState)
    ensures r.box == s.box && r.dx == s.dx && r.dy == s.dy && r.speed == s.speed
    ensures -0.5 <= s.box.x + Displacement(s.dx, s.speed, deltaT) - r.nextX < 0.5
    ensures -0.5 <= s.box.y + Displacement(s.dy, s.speed, deltaT) - r.nextY < 0.5
  {
    s.(nextX := s.box.x + Round(Displacement(s.dx, s.speed, deltaT)) as real,
       nextY := s.box.y + Round(Displacement(s.dy, s.speed, deltaT)) as real)
  }

  /** A worked example: x = 500, dx = -71, speed = 0.1, deltaT = 16 gives 386. */
  lemma AdvanceExample()
    ensures Advance(BallState(Box(500.0, 0.0, 10.0, 10.0), 0.0, 0.0, -71, 0, 0.1), 16).nextX == 386.0
  {
  }

  /** Bounce, then advance: what a frame does to a ball once its rectangle is known. */
  function Step(s: BallState, viewWidth: real, viewHeight: real, pads: seq<Box>, deltaT: int): BallState {
    Advance(Bounce(s, viewWidth, viewHeight, pads), deltaT)
  }

  /** What one frame shows a ball: its rectangle as read, the viewport, the pads, the elapsed time. */
  datatype FrameInput = FrameInput(box: Box, viewWidth: real, viewHeight: real, pads: seq<Box>, deltaT: int)

  /** One frame for a ball already in play: its rectangle is read afresh, then `Step`. */
  function FrameStep(s: BallState, f: FrameInput): BallState {
    Step(s.(box := f.box), f.viewWidth, f.viewHeight, f.pads, f.deltaT)
  }

  /** The ball after the given frames, in order. */
  function Run(s: BallState, frames: seq<FrameInput>): BallState
    decreases |frames|
  {
    if frames == [] then s else Run(FrameStep(s, frames[0]), frames[1..])
  }

  /**
   * Over any number of frames a ball keeps its speed and the magnitude of
   * each direction component; only their signs change.
   */
  lemma {:induction false} RunKeepsSpeedAndMagnitude(s: BallState, frames: seq<FrameInput>)
    ensures Run(s, frames).speed == s.speed
    ensures Abs(Run(s, frames).dx) == Abs(s.dx) && Abs(Run(s, frames).dy) == Abs(s.dy)
    decreases |frames|
  {
    if frames != [] {
      RunKeepsSpeedAndMagnitude(FrameStep(s, frames[0]), frames[1..]);
    }
  }

  /**
   * The ball `flushPending` activates, given the rectangle read for its
   * element: placed by the "center" modes of both setters, its position
   * equal to its target, moving along (dx, dy) at `speed`.
   */
  function Launched(dom: Box, viewWidth: real, viewHeight: real, dx: int, dy: int, speed: real): BallState {
    var x, y := (viewWidth - dom.width) / 2.0, (viewHeight - dom.height) / 2.0;
    BallState(Box(x, y, dom.width, dom.height), x, y, dx, dy, speed)
  }

  /**
   * A launched ball keeps the size of its element, its centre is the centre
   * of the viewport, and it starts at rest on its target.
   */
  lemma LaunchedIsCentred(dom: Box, viewWidth: real, viewHeight: real, dx: int, dy: int, speed: real)
    ensures var r := Launched(dom, viewWidth, viewHeight, dx, dy, speed);
      r.box.width == dom.width && r.box.height == dom.height &&
      r.box.CenterX() == viewWidth / 2.0 && r.box.CenterY() == viewHeight / 2.0 &&
      r.nextX == r.box.x && r.nextY == r.box.y &&
      r.dx == dx && r.dy == dy && r.speed == speed
  {
  }
}
