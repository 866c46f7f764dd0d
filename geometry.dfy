/**
 * Sprite rectangles, the positioning modes of the `xpos`/`ypos` setters and
 * the directional collision test `isCollidingWith` of js/main.js, as pure
 * functions over values. Coordinates are screen pixels held as `real`, since
 * JavaScript numbers are not always integral here (a centred sprite may sit
 * on a half pixel).
 */
module Geometry {
  import opened JsNumber

  /** What the core throws: an unknown positioning mode (per axis) or an unknown direction. */
  datatype Error =
    | UnknownXPosition(arg: string)
    | UnknownYPosition(arg: string)
    | UnknownDirection(arg: string)

  datatype Result<T> = Ok(value: T) | Err(error: Error)

  /** What `getBoundingClientRect` reports for an element. */
  datatype DomRect = DomRect(left: real, top: real, width: real, height: real)

  /** A sprite's current rectangle and its derived edges and centre. */
  datatype Box = Box(x: real, y: real, width: real, height: real) {
    function W(): real { x }
    function E(): real { x + width }
    function N(): real { y }
    function S(): real { y + height }
    function CenterX(): real { x + width / 2.0 }
    function CenterY(): real { y + height / 2.0 }
  }

  /** `readFromDOM`: every component of the DOM rectangle is rounded to a whole pixel. */
  function Rounded(r: DomRect): Box
  {
    Box(Round(r.left) as real, Round(r.top) as real, Round(r.width) as real, Round(r.height) as real)
  }

  /** The centre of a box lies midway between its edges, on both axes. */
  lemma CenterIsMidpoint(b: Box)
    ensures b.E() - b.W() == b.width && b.S() - b.N() == b.height
    ensures b.CenterX() - b.W() == b.E() - b.CenterX()
    ensures b.CenterY() - b.N() == b.S() - b.CenterY()
    ensures b.width >= 0.0 ==> b.W() <= b.CenterX() <= b.E()
    ensures b.height >= 0.0 ==> b.N() <= b.CenterY() <= b.S()
  {
  }

  // ---------------------------------------------------------------------------
  // Positioning (the `xpos` and `ypos` setters)

  /**
   * The `nextX` the `xpos` setter computes for a sprite of width `spriteWidth`
   * in a viewport `viewWidth` wide; any mode but "left", "right" and "center"
   * throws.
   */
  function XPosTarget(mode: string, viewWidth: real, spriteWidth: real): (r: Result<real>)
    ensures r.Ok? <==> mode == "left" || mode == "right" || mode == "center"
    ensures r.Err? ==> r.error == UnknownXPosition(mode)
    ensures mode == "left" ==> r == Ok(0.0)
    ensures mode == "right" ==> r.Ok? && r.value + spriteWidth == viewWidth
    ensures mode == "center" ==> r.Ok? && r.value + spriteWidth / 2.0 == viewWidth / 2.0
  {
    if mode == "left" then Ok(0.0)
    else if mode == "right" then Ok(viewWidth - spriteWidth)
    else if mode == "center" then Ok((viewWidth - spriteWidth) / 2.0)
    else Err(UnknownXPosition(mode))
  }

  /** The `nextY` the `ypos` setter computes; the vertical mirror of `XPosTarget`. */
  function YPosTarget(mode: string, viewHeight: real, spriteHeight: real): (r: Result<real>)
    ensures r.Ok? <==> mode == "top" || mode == "bottom" || mode == "center"
    ensures r.Err? ==> r.error == UnknownYPosition(mode)
    ensures mode == "top" ==> r == Ok(0.0)
    ensures mode == "bottom" ==> r.Ok? && r.value + spriteHeight == viewHeight
    ensures mode == "center" ==> r.Ok? && r.value + spriteHeight / 2.0 == viewHeight / 2.0
  {
    if mode == "top" then Ok(0.0)
    else if mode == "bottom" then Ok(viewHeight - spriteHeight)
    else if mode == "center" then Ok((viewHeight - spriteHeight) / 2.0)
    else Err(UnknownYPosition(mode))
  }

  // ---------------------------------------------------------------------------
  // Collision

  /** `Game.Utils.between`, inclusive at both ends. */
  predicate Between(v: real, lo: real, hi: real)
    ensures lo > hi ==> !Between(v, lo, hi)
  {
    lo <= v && v <= hi
  }

  predicate IsDirection(d: string) {
    d == "W" || d == "E" || d == "N" || d == "S"
  }

  /** The closed rectangle `b` holds the point (px, py). */
  predicate Contains(b: Box, px: real, py: real) {
    b.x <= px <= b.x + b.width && b.y <= py <= b.y + b.height
  }

  /**
   * `pad.isCollidingWith(comingFrom, s)`: the sprite `s`, arriving at `pad`
   * from the side `comingFrom`, touches it. Only the midpoint of the edge `s`
   * leads with is tested: its east edge when coming from the west, its west
   * edge from the east, its south edge from the north, its north edge from
   * the south.
   */
  function IsCollidingWith(pad: Box, comingFrom: string, s: Box): (r: Result<bool>)
    ensures r.Ok? <==> IsDirection(comingFrom)
    ensures r.Err? ==> r.error == UnknownDirection(comingFrom)
    ensures comingFrom == "W" ==> r == Ok(Contains(pad, s.x + s.width, s.y + s.height / 2.0))
    ensures comingFrom == "E" ==> r == Ok(Contains(pad, s.x, s.y + s.height / 2.0))
    ensures comingFrom == "N" ==> r == Ok(Contains(pad, s.x + s.width / 2.0, s.y + s.height))
    ensures comingFrom == "S" ==> r == Ok(Contains(pad, s.x + s.width / 2.0, s.y))
  {
    if comingFrom == "W" then
      Ok(Between(s.E(), pad.W(), pad.E()) && Between(s.CenterY(), pad.N(), pad.S()))
    else if comingFrom == "E" then
      Ok(Between(s.W(), pad.W(), pad.E()) && Between(s.CenterY(), pad.N(), pad.S()))
    else if comingFrom == "N" then
      Ok(Between(s.S(), pad.N(), pad.S()) && Between(s.CenterX(), pad.W(), pad.E()))
    else if comingFrom == "S" then
      Ok(Between(s.N(), pad.N(), pad.S()) && Between(s.CenterX(), pad.W(), pad.E()))
    else
      Err(UnknownDirection(comingFrom))
  }

  /** The two closed rectangles share at least one point. */
  predicate Overlap(a: Box, b: Box) {
    a.x <= b.x + b.width && b.x <= a.x + a.width && a.y <= b.y + b.height && b.y <= a.y + a.height
  }

  /** A reported collision always means the two rectangles really touch. */
  lemma CollisionImpliesOverlap(pad: Box, comingFrom: string, s: Box)
    requires s.width >= 0.0 && s.height >= 0.0
    requires IsCollidingWith(pad, comingFrom, s) == Ok(true)
    ensures Overlap(pad, s)
  {
  }

  /**
   * The converse fails: a ball overlapping a pad's corner while its centre is
   * already past the pad's end is not a collision.
   */
  lemma CornerOverlapIsNotCollision()
    ensures var pad, ball := Box(100.0, 100.0, 20.0, 80.0), Box(110.0, 178.0, 10.0, 10.0);
      Overlap(pad, ball) && IsCollidingWith(pad, "W", ball) == Ok(false)
  {
  }

  /** Two literal boxes: one whose east edge is inside the pad, one short of it. */
  lemma CollisionExamples()
    ensures IsCollidingWith(Box(100.0, 100.0, 20.0, 80.0), "W", Box(110.0, 130.0, 10.0, 10.0)) == Ok(true)
    ensures IsCollidingWith(Box(100.0, 100.0, 20.0, 80.0), "W", Box(50.0, 130.0, 10.0, 10.0)) == Ok(false)
  {
  }
}
