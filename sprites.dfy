/**
 * The `Sprite` of js/main.js, which is also what a `Ball` is: an element id,
 * the rectangle last read from the page, the target position to write back,
 * and the `event` record (pointer coordinates for a pad; direction and speed
 * for a ball).
 */
module Sprites {
  import opened Geometry
  import opened Physics

  /** The completion of a setter: it either ran or threw. */
  datatype Outcome = Pass | Fail(error: Error)

  class Sprite {
    const id: string
    // The rectangle read from the page.
    var x: real
    var y: real
    var width: real
    var height: real
    // The position written to the page at the end of the frame.
    var nextX: real
    var nextY: real
    // The `event` record: pointer coordinates (pads) ...
    var pageX: real
    var pageY: real
    // ... and direction and speed (balls).
    var dx: int
    var dy: int
    var speed: real

    /**
     * `new Sprite(id)`: the rectangle is read from the page at once. Fields
     * the source leaves null or undefined start at zero.
     */
    constructor (id: string, rect: DomRect)
      ensures this.id == id && Bounds() == Rounded(rect)
      ensures nextX == 0.0 && nextY == 0.0 && pageX == 0.0 && pageY == 0.0
      ensures dx == 0 && dy == 0 && speed == 0.0
    {
      this.id := id;
      var b := Rounded(rect);
      x, y, width, height := b.x, b.y, b.width, b.height;
      nextX, nextY, pageX, pageY := 0.0, 0.0, 0.0, 0.0;
      dx, dy, speed := 0, 0, 0.0;
    }

    /** The current rectangle, with the edges and centre the getters `W`, `E`, `N`, `S`, `centerX`, `centerY` give. */
    function Bounds(): Box
      reads this
    {
      Box(x, y, width, height)
    }

    /** The fields the ball rules of a frame work on. */
    function State(): BallState
      reads this
    {
      BallState(Bounds(), nextX, nextY, dx, dy, speed)
    }

    /** The latest pointer coordinates the input listener stored. */
    function Pointer(): (real, real)
      reads this
    {
      (pageX, pageY)
    }

    /** `readFromDOM`: replace the rectangle by the rounded page rectangle; nothing else changes. */
    method ReadFromDOM(rect: DomRect)
      modifies this`x, this`y, this`width, this`height
      ensures Bounds() == Rounded(rect)
    {
      var b := Rounded(rect);
      x, y, width, height := b.x, b.y, b.width, b.height;
    }

    /**
     * The `xpos` setter: set `nextX` for the given mode against a viewport
     * `viewWidth` wide. An unknown mode throws and leaves `nextX` as it was.
     * Nothing but `nextX` changes.
     */
    method SetXPos(mode: string, viewWidth: real) returns (r: Outcome)
      modifies this`nextX
      ensures r.Pass? <==> XPosTarget(mode, viewWidth, width).Ok?
      ensures r.Pass? ==> nextX == XPosTarget(mode, viewWidth, width).value
      ensures r.Fail? ==> r.error == UnknownXPosition(mode) && nextX == old(nextX)
    {
      match XPosTarget(mode, viewWidth, width)
      case Ok(v) =>
        nextX := v;
        r := Pass;
      case Err(e) =>
        r := Fail(e);
    }

    /** The `ypos` setter: the vertical mirror of `SetXPos`; nothing but `nextY` changes. */
    method SetYPos(mode: string, viewHeight: real) returns (r: Outcome)
      modifies this`nextY
      ensures r.Pass? <==> YPosTarget(mode, viewHeight, height).Ok?
      ensures r.Pass? ==> nextY == YPosTarget(mode, viewHeight, height).value
      ensures r.Fail? ==> r.error == UnknownYPosition(mode) && nextY == old(nextY)
    {
      match YPosTarget(mode, viewHeight, height)
      case Ok(v) =>
        nextY := v;
        r := Pass;
      case Err(e) =>
        r := Fail(e);
    }

    /**
     * `setPosition(xpos, ypos)`: the x setter, then the y setter. When the
     * x mode is unknown the y setter never runs; when only the y mode is
     * unknown, `nextX` has already been set.
     */
    method SetPosition(xMode: string, yMode: string, viewWidth: real, viewHeight: real) returns (r: Outcome)
      modifies this`nextX, this`nextY
      ensures var tx, ty := XPosTarget(xMode, viewWidth, width), YPosTarget(yMode, viewHeight, height);
        (r.Pass? <==> tx.Ok? && ty.Ok?) &&
        (nextX == if tx.Ok? then tx.value else old(nextX)) &&
        (nextY == if tx.Ok? && ty.Ok? then ty.value else old(nextY)) &&
        (tx.Err? ==> r == Fail(tx.error)) &&
        (tx.Ok? && ty.Err? ==> r == Fail(ty.error))
    {
      r := SetXPos(xMode, viewWidth);
      if r.Fail? {
        return;
      }
      r := SetYPos(yMode, viewHeight);
    }

    /**
     * `isCollidingWithAnyPad(comingFrom, exclude)`: scan the pads in order,
     * skipping `exclude` (null stands for undefined), and stop at the first
     * one that reports a collision. An unknown direction throws at the first
     * pad tested; with no pad to test the answer is false.
     */
    method IsCollidingWithAnyPad(pads: seq<Sprite>, comingFrom: string, exclude: Sprite?) returns (r: Result<bool>)
      ensures IsDirection(comingFrom) ==>
        r == Ok(exists k :: 0 <= k < |pads| && pads[k] != exclude &&
                            IsCollidingWith(pads[k].Bounds(), comingFrom, Bounds()) == Ok(true))
      ensures !IsDirection(comingFrom) ==>
        r == if exists k :: 0 <= k < |pads| && pads[k] != exclude
             then Err(UnknownDirection(comingFrom)) else Ok(false)
    {
      var i := 0;
      while i < |pads|
        invariant 0 <= i <= |pads|
        invariant forall k :: 0 <= k < i && pads[k] != exclude ==>
          IsCollidingWith(pads[k].Bounds(), comingFrom, Bounds()) == Ok(false)
      {
        var pad := pads[i];
        if pad != exclude {
          var hit := IsCollidingWith(pad.Bounds(), comingFrom, Bounds());
          if hit.Err? {
            return Err(hit.error);
          }
          if hit.value {
            return Ok(true);
          }
        }
        i := i + 1;
      }
      return Ok(false);
    }
  }

  /** The rectangles of the given sprites, in order. */
  function BoundsOf(sprites: seq<Sprite>): (r: seq<Box>)
    reads sprites
    ensures |r| == |sprites| && forall k :: 0 <= k < |r| ==> r[k] == sprites[k].Bounds()
  {
    if sprites == [] then [] else [sprites[0].Bounds()] + BoundsOf(sprites[1..])
  }

  /** The ball states of the given sprites, in order. */
  function StatesOf(sprites: seq<Sprite>): (r: seq<BallState>)
    reads sprites
    ensures |r| == |sprites| && forall k :: 0 <= k < |r| ==> r[k] == sprites[k].State()
  {
    if sprites == [] then [] else [sprites[0].State()] + StatesOf(sprites[1..])
  }

  /**
   * Each of `balls` has taken one `Step` from its state in `before`, against
   * the viewport, the pads' rectangles `pads` and the elapsed time `deltaT`.
   */
  ghost predicate Stepped(balls: seq<Sprite>, before: seq<BallState>, viewWidth: real, viewHeight: real,
                          pads: seq<Box>, deltaT: int)
    reads balls
  {
    |before| == |balls| &&
    forall k {:trigger balls[k].State()} :: 0 <= k < |balls| ==>
      balls[k].State() == Step(before[k], viewWidth, viewHeight, pads, deltaT)
  }

  /**
   * When the excluded sprite is no pad at all (undefined, as at every call
   * site), the pad scan answers exactly `AnyPadHit` over the pads' rectangles.
   */
  lemma ScanWithoutExclusion(pads: seq<Sprite>, comingFrom: string, ball: Sprite, exclude: Sprite?)
    requires exclude !in pads
    ensures (exists k :: 0 <= k < |pads| && pads[k] != exclude &&
                         IsCollidingWith(pads[k].Bounds(), comingFrom, ball.Bounds()) == Ok(true))
            <==> AnyPadHit(BoundsOf(pads), comingFrom, ball.Bounds())
  {
  }
}
