/**
 * The game state of js/main.js and its frame: the four pads, the balls in
 * play, the queue of prepared balls, the id counter, the timestamps and the
 * viewport size, with `Ball.prepare`, `Ball.flushPending`, `nextFrame`, the
 * animation-loop tick and the pointer listener.
 *
 * The page is a parameter: `layout` maps an element id to the rectangle
 * `getBoundingClientRect` reports for it. The targets a frame leaves in
 * `nextX`/`nextY` are what `writeToDOM` would write.
 */
module Bouncer {
  import opened JsNumber
  import opened Geometry
  import opened Physics
  import opened Sprites

  datatype Option<T> = None | Some(value: T)

  /** The id `Ball.prepare` gives the ball it prepares when the counter is `n`. */
  function BallId(n: nat): string {
    "ball_" + NatToDecimal(n)
  }

  /** The counter value a ball id was made from, if it is one. */
  function ParseBallId(s: string): Option<nat> {
    if |s| > 5 && s[..5] == "ball_" && AllDigits(s[5..]) then Some(DecimalToNat(s[5..])) else None
  }

  /** A ball id gives back the counter value it was made from. */
  lemma BallIdRoundTrip(n: nat)
    ensures ParseBallId(BallId(n)) == Some(n)
  {
    var s := BallId(n);
    assert s[..5] == "ball_" && s[5..] == NatToDecimal(n);
    DecimalRoundTrip(n);
  }

  /** Ball ids made from different counter values differ. */
  lemma BallIdInjective(m: nat, n: nat)
    requires BallId(m) == BallId(n)
    ensures m == n
  {
    BallIdRoundTrip(m);
    BallIdRoundTrip(n);
  }

  /** The ids of the first `n` balls ever prepared, in order of preparation. */
  function PreparedIds(n: nat): (ids: seq<string>)
    ensures |ids| == n
  {
    if n == 0 then [] else PreparedIds(n - 1) + [BallId(n - 1)]
  }

  /** The `i`-th ball prepared got the id made from `i`. */
  lemma {:induction false} PreparedIdsAt(n: nat, i: nat)
    requires i < n
    ensures PreparedIds(n)[i] == BallId(i)
  {
    if i < n - 1 {
      PreparedIdsAt(n - 1, i);
    }
  }

  /** The ids of the given sprites, in order. */
  function IdsOf(sprites: seq<Sprite>): (ids: seq<string>)
    ensures |ids| == |sprites| && forall i :: 0 <= i < |sprites| ==> ids[i] == sprites[i].id
  {
    seq(|sprites|, i requires 0 <= i < |sprites| => sprites[i].id)
  }

  /**
   * The ids in play after `flushPending`: unchanged when the queue was
   * empty, otherwise followed by the last queued id.
   */
  lemma FlushedIdsOf(before: seq<Sprite>, after: seq<Sprite>, pending: seq<string>)
    requires pending == [] ==> after == before
    requires pending != [] ==>
      |after| == |before| + 1 && after[..|before|] == before && after[|before|].id == pending[|pending| - 1]
    ensures IdsOf(after) == if pending == [] then IdsOf(before) else IdsOf(before) + [pending[|pending| - 1]]
  {
    if pending != [] {
      assert IdsOf(after) == IdsOf(before) + [after[|before|].id];
    }
  }

  /**
   * `FrameKeepsIds` for the balls in play: a frame that changes the balls,
   * the queue and the counter as `Game.NextFrame` and `Game.Tick` state
   * (the last queued ball launched, if any, then maybe one ball prepared)
   * keeps the bookkeeping of the balls' own ids.
   */
  lemma FrameKeepsBallIds(before: seq<Sprite>, pending: seq<string>, counter: nat,
                          after: seq<Sprite>, pending': seq<string>, counter': nat)
    requires IdsValid(IdsOf(before), pending, counter)
    requires pending == [] ==> after == before
    requires pending != [] ==>
      |after| == |before| + 1 && after[..|before|] == before && after[|before|].id == pending[|pending| - 1]
    requires (pending' == Popped(pending) && counter' == counter) ||
             (pending' == Popped(pending) + [BallId(counter)] && counter' == counter + 1)
    ensures IdsValid(IdsOf(after), pending', counter')
  {
    FlushedIdsOf(before, after, pending);
    var due := counter' == counter + 1;
    FrameKeepsIds(IdsOf(before), pending, counter, due);
    if !due {
      assert Popped(pending) + [] == Popped(pending);
    }
  }

  /** No element occurs more than once. */
  predicate Distinct<T(==)>(s: seq<T>) {
    forall x | x in s :: multiset(s)[x] == 1
  }

  /** `Distinct` holds exactly when no two positions hold the same element. */
  lemma {:induction false} DistinctIsPairwise<T>(s: seq<T>)
    ensures Distinct(s) <==> forall i, j :: 0 <= i < j < |s| ==> s[i] != s[j]
    decreases |s|
  {
    if s == [] {
      return;
    }
    var n := |s| - 1;
    var init, last := s[..n], s[n];
    assert s == init + [last];
    assert forall x :: multiset(s)[x] == multiset(init)[x] + (if x == last then 1 else 0);
    DistinctIsPairwise(init);
    if Distinct(s) {
      forall x | x in init
        ensures multiset(init)[x] == 1
      {
        assert x in s;
      }
      forall i, j | 0 <= i < j < |s|
        ensures s[i] != s[j]
      {
        assert s[i] == init[i];
        if j == n {
          assert init[i] in init;
          assert multiset(s)[last] <= 1;
        } else {
          assert s[j] == init[j];
        }
      }
    } else {
      var x :| x in s && multiset(s)[x] != 1;
      if x == last && multiset(init)[x] >= 1 {
        assert x in init;
        var i :| 0 <= i < n && init[i] == x;
        assert s[i] == s[n];
      } else {
        assert !Distinct(init);
        var i, j :| 0 <= i < j < n && init[i] == init[j];
        assert s[i] == s[j];
      }
    }
  }

  /** Appending an element not yet present keeps a sequence distinct. */
  lemma DistinctAppend<T>(s: seq<T>, x: T)
    requires Distinct(s) && x !in s
    ensures Distinct(s + [x])
  {
  }

  /** No two balls ever prepared share an id. */
  lemma {:induction false} PreparedIdsDistinct(n: nat)
    ensures Distinct(PreparedIds(n))
  {
    if n > 0 {
      var earlier := PreparedIds(n - 1);
      PreparedIdsDistinct(n - 1);
      if BallId(n - 1) in earlier {
        var i :| 0 <= i < |earlier| && earlier[i] == BallId(n - 1);
        PreparedIdsAt(n - 1, i);
        BallIdInjective(i, n - 1);
      }
      DistinctAppend(earlier, BallId(n - 1));
    }
  }

  /**
   * The bookkeeping of prepared balls: the ids in play (`ballIds`) and the
   * queued ids (`pending`) are, together, exactly the ids of the `counter`
   * balls prepared so far.
   */
  predicate IdsValid(ballIds: seq<string>, pending: seq<string>, counter: nat) {
    multiset(ballIds + pending) == multiset(PreparedIds(counter))
  }

  /**
   * What the bookkeeping guarantees: every prepared ball is in play or
   * queued, no id occurs twice, and the id the counter would make next is
   * unlike all of them.
   */
  lemma IdsValidMeans(ballIds: seq<string>, pending: seq<string>, counter: nat)
    requires IdsValid(ballIds, pending, counter)
    ensures |ballIds| + |pending| == counter
    ensures Distinct(ballIds + pending)
    ensures forall id | id in ballIds + pending :: id in PreparedIds(counter)
    ensures BallId(counter) !in ballIds + pending
  {
    var all, prepared := ballIds + pending, PreparedIds(counter);
    assert |all| == |multiset(all)| == |multiset(prepared)| == counter;
    PreparedIdsDistinct(counter);
    forall id | id in all
      ensures id in prepared && multiset(all)[id] == 1
    {
      assert multiset(all)[id] > 0;
    }
    if BallId(counter) in all {
      assert BallId(counter) in prepared;
      var i :| 0 <= i < counter && prepared[i] == BallId(counter);
      PreparedIdsAt(counter, i);
      BallIdInjective(i, counter);
    }
  }

  /** Preparing a ball keeps the bookkeeping. */
  lemma PrepareKeepsIds(ballIds: seq<string>, pending: seq<string>, counter: nat)
    requires IdsValid(ballIds, pending, counter)
    ensures IdsValid(ballIds, pending + [BallId(counter)], counter + 1)
  {
  }

  /** Moving the last queued id into play keeps the bookkeeping: the ids are only reordered. */
  lemma FlushKeepsIds(ballIds: seq<string>, pending: seq<string>, counter: nat)
    requires IdsValid(ballIds, pending, counter) && pending != []
    ensures var last := |pending| - 1;
      IdsValid(ballIds + [pending[last]], pending[..last], counter)
  {
    var last := |pending| - 1;
    assert pending == pending[..last] + [pending[last]];
    assert multiset((ballIds + [pending[last]]) + pending[..last]) == multiset(ballIds + pending);
  }

  /** The bookkeeping holds at setup: no ball prepared, none in play, none queued. */
  lemma InitialIdsValid()
    ensures IdsValid([], [], 0)
  {
  }

  /**
   * One frame keeps the bookkeeping: `flushPending` moves the last queued id
   * into play, then, when the spawn timer is due, `Ball.prepare` queues the
   * id made from the counter.
   */
  lemma FrameKeepsIds(ballIds: seq<string>, pending: seq<string>, counter: nat, due: bool)
    requires IdsValid(ballIds, pending, counter)
    ensures var flushed := if pending == [] then ballIds else ballIds + [pending[|pending| - 1]];
      IdsValid(flushed, Popped(pending) + (if due then [BallId(counter)] else []), if due then counter + 1 else counter)
  {
    if pending != [] {
      FlushKeepsIds(ballIds, pending, counter);
    }
    var flushed := if pending == [] then ballIds else ballIds + [pending[|pending| - 1]];
    if due {
      PrepareKeepsIds(flushed, Popped(pending), counter);
    } else {
      assert Popped(pending) + [] == Popped(pending);
    }
  }

  /** The rectangle `readFromDOM` stores for the element with the given id. */
  function BoxOf(layout: string -> DomRect, id: string): Box {
    Rounded(layout(id))
  }

  /** The rectangles of the four pads, in the order of `pads`, as read from the page. */
  function PadLayout(layout: string -> DomRect): seq<Box> {
    [BoxOf(layout, "pad_north"), BoxOf(layout, "pad_south"),
     BoxOf(layout, "pad_east"), BoxOf(layout, "pad_west")]
  }

  /** The queue after `flushPending`: the last id gone, if there was one. */
  function Popped(pending: seq<string>): seq<string> {
    if pending == [] then [] else pending[..|pending| - 1]
  }

  class Game {
    const padNorth: Sprite
    const padSouth: Sprite
    const padEast: Sprite
    const padWest: Sprite
    // Game.Config
    const initialBallSpeed: real
    const intervalBetweenBalls: int
    // The viewport size as last polled.
    var width: real
    var height: real
    // timeStamps, in milliseconds since the epoch.
    var gameStart: int
    var previousFrame: int
    var currentFrame: int
    var latestBallLaunch: int
    // Ball.balls, Ball._counter and Ball._pendingBalls.
    var balls: seq<Sprite>
    var counter: nat
    var pending: seq<string>

    /** The `pads` array. */
    function Pads(): seq<Sprite> {
      [padNorth, padSouth, padEast, padWest]
    }

    /** The pads' rectangles, in the order of `pads`. */
    function PadBoxes(): seq<Box>
      reads padNorth, padSouth, padEast, padWest
    {
      [padNorth.Bounds(), padSouth.Bounds(), padEast.Bounds(), padWest.Bounds()]
    }

    /** The pointer coordinates the pads hold, in the order of `pads`. */
    function PadPointers(): seq<(real, real)>
      reads padNorth, padSouth, padEast, padWest
    {
      [padNorth.Pointer(), padSouth.Pointer(), padEast.Pointer(), padWest.Pointer()]
    }

    /** The four pads are four different objects. */
    predicate PadsDistinct() {
      padNorth != padSouth && padNorth != padEast && padNorth != padWest &&
      padSouth != padEast && padSouth != padWest && padEast != padWest
    }

    /** No ball object occurs twice in `balls`, and no ball is a pad. */
    predicate BallsApart(balls: seq<Sprite>) {
      Distinct(balls) && padNorth !in balls && padSouth !in balls && padEast !in balls && padWest !in balls
    }

    /**
     * The pads are four distinct objects carrying their own ids, the balls
     * are distinct objects apart from the pads, and the counter equals the
     * number of balls in play and queued.
     */
    ghost predicate Valid()
      reads this`balls, this`pending, this`counter
    {
      Consistent(balls, pending, counter)
    }

    /** `Valid` for the given balls, queue and counter. */
    predicate Consistent(balls: seq<Sprite>, pending: seq<string>, counter: nat) {
      PadIds() && PadsDistinct() && BallsApart(balls) && counter == |balls| + |pending|
    }

    /**
     * The setup code: the four pads are created and read from the page, then
     * placed by `PlaceAtStart`; no ball yet. The clock is read three times,
     * in order: `startClock` for the game start, `previousClock` for the
     * previous frame (set 15 ms earlier) and `currentClock` for the current
     * frame, so the first frame's elapsed time is 15 ms plus whatever passed
     * between the last two reads.
     */
    constructor (startClock: int, previousClock: int, currentClock: int, layout: string -> DomRect, viewWidth: real, viewHeight: real,
                 initialBallSpeed: real, intervalBetweenBalls: int)
      ensures Valid()
      ensures fresh(padNorth) && fresh(padSouth) && fresh(padEast) && fresh(padWest)
      ensures padNorth.id == "pad_north" && padSouth.id == "pad_south"
      ensures padEast.id == "pad_east" && padWest.id == "pad_west"
      ensures padNorth.Bounds() == BoxOf(layout, "pad_north") && padSouth.Bounds() == BoxOf(layout, "pad_south")
      ensures padEast.Bounds() == BoxOf(layout, "pad_east") && padWest.Bounds() == BoxOf(layout, "pad_west")
      ensures padNorth.Pointer() == padSouth.Pointer() == padEast.Pointer() == padWest.Pointer() == (0.0, 0.0)
      ensures StartPlacement()
      ensures balls == [] && pending == [] && counter == 0
      ensures width == viewWidth && height == viewHeight
      ensures gameStart == startClock && previousFrame == previousClock - 15 && currentFrame == currentClock
      ensures currentFrame - previousFrame == 15 + (currentClock - previousClock) && latestBallLaunch == 0
      ensures this.initialBallSpeed == initialBallSpeed && this.intervalBetweenBalls == intervalBetweenBalls
    {
      padNorth := new Sprite("pad_north", layout("pad_north"));
      padSouth := new Sprite("pad_south", layout("pad_south"));
      padEast := new Sprite("pad_east", layout("pad_east"));
      padWest := new Sprite("pad_west", layout("pad_west"));
      this.initialBallSpeed := initialBallSpeed;
      this.intervalBetweenBalls := intervalBetweenBalls;
      width, height := viewWidth, viewHeight;
      gameStart, previousFrame, currentFrame, latestBallLaunch := startClock, previousClock - 15, currentClock, 0;
      balls, counter, pending := [], 0, [];
      new;
      PlaceAtStart();
    }

    /**
     * Where the setup code puts the pads: north centred at the top, south
     * centred at the bottom, and, swapped with respect to every later frame,
     * east at the left edge and west at the right edge, both centred
     * vertically.
     */
    ghost predicate StartPlacement()
      reads this, padNorth, padSouth, padEast, padWest
    {
      padNorth.nextX + padNorth.width / 2.0 == width / 2.0 && padNorth.nextY == 0.0 &&
      padSouth.nextX + padSouth.width / 2.0 == width / 2.0 && padSouth.nextY + padSouth.height == height &&
      padEast.nextX == 0.0 && padEast.nextY + padEast.height / 2.0 == height / 2.0 &&
      padWest.nextX + padWest.width == width && padWest.nextY + padWest.height / 2.0 == height / 2.0
    }

    /** The four `setPosition` calls of the setup code; only the pads' targets change. */
    method PlaceAtStart()
      requires PadsDistinct()
      modifies padNorth`nextX, padNorth`nextY, padSouth`nextX, padSouth`nextY
      modifies padEast`nextX, padEast`nextY, padWest`nextX, padWest`nextY
      ensures StartPlacement()
    {
      var r := padNorth.SetPosition("center", "top", width, height);
      r := padSouth.SetPosition("center", "bottom", width, height);
      r := padEast.SetPosition("left", "center", width, height);
      r := padWest.SetPosition("right", "center", width, height);
    }

    /** The pointer listener `onmove`: every pad stores the pointer coordinates. */
    method OnMove(pageX: real, pageY: real)
      modifies padNorth, padSouth, padEast, padWest
      ensures forall p :: p in Pads() ==> p.Pointer() == (pageX, pageY)
      ensures forall p :: p in Pads() ==> p.State() == old(p.State())
    {
      var pads := Pads();
      for i := 0 to |pads|
        invariant forall k :: 0 <= k < i ==> pads[k].Pointer() == (pageX, pageY)
        invariant forall p :: p in pads ==> p.State() == old(p.State())
      {
        pads[i].pageX := pageX;
        pads[i].pageY := pageY;
      }
    }

    /**
     * `Ball.prepare`: the next id is made from the counter, the counter goes
     * up by one and the id joins the end of the queue. The new id is unlike
     * every id in play or queued.
     */
    method Prepare()
      requires Valid()
      modifies this`counter, this`pending
      ensures Valid()
      ensures counter == old(counter) + 1
      ensures pending == old(pending) + [BallId(old(counter))]
    {
      var id := BallId(counter);
      counter := counter + 1;
      pending := pending + [id];
    }

    /**
     * The body of `Ball.flushPending` after the pop: `new Ball(id)` reads the
     * element's rectangle, then the ball is centred against the viewport as
     * last polled, given its launch direction and the configured speed, and
     * its position is set to its target.
     */
    method NewBall(id: string, layout: string -> DomRect, launchDx: int, launchDy: int) returns (ball: Sprite)
      ensures fresh(ball) && ball.id == id && ball.Pointer() == (0.0, 0.0)
      ensures ball.State() == LaunchState(id, layout, width, height, launchDx, launchDy)
    {
      ball := new Sprite(id, layout(id));
      var rx := ball.SetXPos("center", width);
      assert rx.Pass? && ball.nextX == (width - ball.width) / 2.0;
      var ry := ball.SetYPos("center", height);
      assert ry.Pass? && ball.nextY == (height - ball.height) / 2.0;
      ball.dx, ball.dy, ball.speed := launchDx, launchDy, initialBallSpeed;
      ball.x := ball.nextX;
      ball.y := ball.nextY;
    }

    /** The state `flushPending` gives the ball it launches for the element `id`, against the given viewport. */
    function LaunchState(id: string, layout: string -> DomRect, viewWidth: real, viewHeight: real,
                         launchDx: int, launchDy: int): BallState
    {
      Launched(BoxOf(layout, id), viewWidth, viewHeight, launchDx, launchDy, initialBallSpeed)
    }

    /**
     * `Ball.flushPending`: with an empty queue nothing happens; otherwise the
     * most recently queued id leaves the queue and a new ball with that id
     * joins the end of `balls`, in its launch state. The balls already in
     * play are untouched, and the bookkeeping of prepared balls is kept.
     */
    method FlushPending(layout: string -> DomRect, launchDx: int, launchDy: int)
      requires Valid()
      modifies this`balls, this`pending
      ensures Valid() && pending == Popped(old(pending))
      ensures old(pending) == [] ==> balls == old(balls)
      ensures old(pending) != [] ==>
        |balls| == |old(balls)| + 1 && balls[..|old(balls)|] == old(balls) && fresh(balls[|old(balls)|]) &&
        balls[|old(balls)|].id == old(pending)[|old(pending)| - 1] &&
        balls[|old(balls)|].Pointer() == (0.0, 0.0) &&
        balls[|old(balls)|].State() == LaunchState(balls[|old(balls)|].id, layout, width, height, launchDx, launchDy)
    {
      if |pending| == 0 {
        return;
      }
      var id := pending[|pending| - 1];
      pending := pending[..|pending| - 1];
      var ball := NewBall(id, layout, launchDx, launchDy);
      LaunchKeepsValid(balls, old(pending), counter, ball);
      balls := balls + [ball];
    }

    /**
     * Launching a ball that is neither in play nor a pad keeps the balls
     * distinct and apart from the pads, and the count of prepared balls.
     */
    lemma LaunchKeepsValid(balls: seq<Sprite>, pending: seq<string>, counter: nat, ball: Sprite)
      requires Consistent(balls, pending, counter)
      requires pending != [] && ball !in balls && ball !in Pads()
      ensures Consistent(balls + [ball], pending[..|pending| - 1], counter)
    {
    }

    // -------------------------------------------------------------------------
    // The frame (`nextFrame`)

    /** The pads carry the ids of their elements. */
    predicate PadIds() {
      padNorth.id == "pad_north" && padSouth.id == "pad_south" &&
      padEast.id == "pad_east" && padWest.id == "pad_west"
    }

    /**
     * The read loop over `sprites`, for the pads: they were added to the set
     * first, so they are visited first, in the order of `pads`. Only the
     * pads' rectangles change.
     */
    method ReadPads(layout: string -> DomRect)
      requires PadsDistinct() && PadIds()
      modifies padNorth`x, padNorth`y, padNorth`width, padNorth`height
      modifies padSouth`x, padSouth`y, padSouth`width, padSouth`height
      modifies padEast`x, padEast`y, padEast`width, padEast`height
      modifies padWest`x, padWest`y, padWest`width, padWest`height
      ensures PadBoxes() == PadLayout(layout)
    {
      padNorth.ReadFromDOM(layout(padNorth.id));
      padSouth.ReadFromDOM(layout(padSouth.id));
      padEast.ReadFromDOM(layout(padEast.id));
      padWest.ReadFromDOM(layout(padWest.id));
    }

    /**
     * The read loop over `sprites`, for the balls: they follow the pads, in
     * launch order. Each ball's rectangle becomes the one read for its
     * element; nothing else changes.
     */
    method ReadBalls(layout: string -> DomRect)
      requires Distinct(balls)
      modifies balls
      ensures forall k :: 0 <= k < |balls| ==>
        balls[k].State() == old(balls[k].State()).(box := BoxOf(layout, balls[k].id))
    {
      DistinctIsPairwise(balls);
      for i := 0 to |balls|
        invariant forall k :: 0 <= k < i ==>
          balls[k].State() == old(balls[k].State()).(box := BoxOf(layout, balls[k].id))
        invariant forall k :: i <= k < |balls| ==> balls[k].State() == old(balls[k].State())
      {
        balls[i].ReadFromDOM(layout(balls[i].id));
      }
    }

    /**
     * The horizontal decision for one ball: by the sign of `dx`, the viewport
     * edge on that side is tested first and the pads only when the edge is not
     * reached. The pad scan is given an exclude argument that is undefined
     * (null here). Nothing changes.
     */
    method DecideHorizontal(ball: Sprite) returns (bounce: bool)
      ensures bounce == HorizontalBounce(ball.Bounds(), ball.dx, width, PadBoxes())
    {
      bounce := false;
      if ball.dx < 0 {
        bounce := ball.x <= 0.0;
        if !bounce {
          var hit := ball.IsCollidingWithAnyPad(Pads(), "E", null);
          ScanWithoutExclusion(Pads(), "E", ball, null);
          assert BoundsOf(Pads()) == PadBoxes();
          bounce := hit.value;
        }
      } else if ball.dx > 0 {
        bounce := ball.Bounds().E() >= width;
        if !bounce {
          var hit := ball.IsCollidingWithAnyPad(Pads(), "W", null);
          ScanWithoutExclusion(Pads(), "W", ball, null);
          assert BoundsOf(Pads()) == PadBoxes();
          bounce := hit.value;
        }
      }
    }

    /** The vertical decision for one ball: the mirror of `DecideHorizontal`. */
    method DecideVertical(ball: Sprite) returns (bounce: bool)
      ensures bounce == VerticalBounce(ball.Bounds(), ball.dy, height, PadBoxes())
    {
      bounce := false;
      if ball.dy < 0 {
        bounce := ball.y <= 0.0;
        if !bounce {
          var hit := ball.IsCollidingWithAnyPad(Pads(), "S", null);
          ScanWithoutExclusion(Pads(), "S", ball, null);
          assert BoundsOf(Pads()) == PadBoxes();
          bounce := hit.value;
        }
      } else if ball.dy > 0 {
        bounce := ball.Bounds().S() >= height;
        if !bounce {
          var hit := ball.IsCollidingWithAnyPad(Pads(), "N", null);
          ScanWithoutExclusion(Pads(), "N", ball, null);
          assert BoundsOf(Pads()) == PadBoxes();
          bounce := hit.value;
        }
      }
    }

    /** The bounce step for one ball: both decisions are taken first, then each bounce negates its component. */
    method BounceBall(ball: Sprite)
      requires ball !in Pads()
      modifies ball`dx, ball`dy
      ensures ball.State() == Bounce(old(ball.State()), width, height, PadBoxes())
    {
      var horizontal := DecideHorizontal(ball);
      var vertical := DecideVertical(ball);
      ghost var before := ball.State();
      if horizontal {
        ball.dx := -ball.dx;
      }
      if vertical {
        ball.dy := -ball.dy;
      }
      assert ball.State() == before.(dx := ball.dx, dy := ball.dy);
    }

    /** The bounce loop: every ball in play, in order, takes its bounce step against the pads. */
    method BounceBalls()
      requires PadsDistinct() && BallsApart(balls)
      modifies balls
      ensures forall k :: 0 <= k < |balls| ==>
        balls[k].State() == Bounce(old(balls[k].State()), width, height, PadBoxes())
    {
      DistinctIsPairwise(balls);
      for i := 0 to |balls|
        invariant forall k :: 0 <= k < i ==>
          balls[k].State() == Bounce(old(balls[k].State()), width, height, PadBoxes())
        invariant forall k :: i <= k < |balls| ==> balls[k].State() == old(balls[k].State())
      {
        BounceBall(balls[i]);
      }
    }

    /**
     * Where a frame puts the pads: north and south follow the pointer's x at
     * the top and bottom edges, east and west follow the pointer's y at the
     * right and left edges.
     */
    ghost predicate PadsPlaced()
      reads this, padNorth, padSouth, padEast, padWest
    {
      padNorth.nextX == padNorth.pageX && padNorth.nextY == 0.0 &&
      padSouth.nextX == padSouth.pageX && padSouth.nextY + padSouth.height == height &&
      padEast.nextY == padEast.pageY && padEast.nextX + padEast.width == width &&
      padWest.nextY == padWest.pageY && padWest.nextX == 0.0
    }

    /** The pad targets of a frame; only the pads' targets change. */
    method PlacePads()
      requires PadsDistinct()
      modifies padNorth`nextX, padNorth`nextY, padSouth`nextX, padSouth`nextY
      modifies padEast`nextX, padEast`nextY, padWest`nextX, padWest`nextY
      ensures PadsPlaced()
    {
      padNorth.nextX := padNorth.pageX;
      var r := padNorth.SetYPos("top", height);
      padSouth.nextX := padSouth.pageX;
      r := padSouth.SetYPos("bottom", height);
      padEast.nextY := padEast.pageY;
      r := padEast.SetXPos("right", width);
      padWest.nextY := padWest.pageY;
      r := padWest.SetXPos("left", width);
    }

    /** The position loop: every ball's target is its position moved by its rounded displacement. */
    method AdvanceBalls(deltaT: int)
      requires Distinct(balls)
      modifies balls
      ensures forall k :: 0 <= k < |balls| ==> balls[k].State() == Advance(old(balls[k].State()), deltaT)
    {
      DistinctIsPairwise(balls);
      for i := 0 to |balls|
        invariant forall k :: 0 <= k < i ==> balls[k].State() == Advance(old(balls[k].State()), deltaT)
        invariant forall k :: i <= k < |balls| ==> balls[k].State() == old(balls[k].State())
      {
        AdvanceBall(balls[i], deltaT);
      }
    }

    /** The position advance of one ball; only its target changes. */
    static method AdvanceBall(ball: Sprite, deltaT: int)
      modifies ball`nextX, ball`nextY
      ensures ball.State() == Advance(old(ball.State()), deltaT)
    {
      ball.nextX := ball.x + Round(Displacement(ball.dx, ball.speed, deltaT)) as real;
      ball.nextY := ball.y + Round(Displacement(ball.dy, ball.speed, deltaT)) as real;
    }

    /**
     * The spawn timer: once `intervalBetweenBalls` milliseconds have passed
     * since the latest launch, one ball is prepared and the launch time
     * becomes the current frame's.
     */
    method SpawnIfDue()
      requires Valid()
      modifies this`counter, this`pending, this`latestBallLaunch
      ensures Valid()
      ensures old(currentFrame - latestBallLaunch) >= intervalBetweenBalls ==>
        counter == old(counter) + 1 && pending == old(pending) + [BallId(old(counter))] &&
        latestBallLaunch == currentFrame
      ensures old(currentFrame - latestBallLaunch) < intervalBetweenBalls ==>
        counter == old(counter) && pending == old(pending) && latestBallLaunch == old(latestBallLaunch)
    {
      if currentFrame - latestBallLaunch >= intervalBetweenBalls {
        Prepare();
        latestBallLaunch := currentFrame;
      }
    }

    /**
     * The read loop over `sprites`: the pads, which were added to the set
     * first, then the balls in launch order. Only rectangles change.
     */
    method ReadSprites(layout: string -> DomRect)
      requires PadsDistinct() && PadIds() && BallsApart(balls)
      modifies padNorth, padSouth, padEast, padWest, balls
      ensures PadBoxes() == PadLayout(layout) && PadPointers() == old(PadPointers())
      ensures forall k {:trigger balls[k].State()} :: 0 <= k < |balls| ==>
        balls[k].State() == old(balls[k].State()).(box := BoxOf(layout, balls[k].id))
    {
      ReadPads(layout);
      ReadBalls(layout);
    }

    /**
     * The first half of `nextFrame`, up to the end of the reads: every
     * rectangle is read, the most recently prepared ball is launched (centred
     * against the viewport as polled before this frame, its own rectangle read
     * when it is created), then the viewport is polled.
     */
    method ReadPhase(layout: string -> DomRect, viewWidth: real, viewHeight: real, launchDx: int, launchDy: int)
      returns (ghost read: seq<BallState>)
      requires Valid()
      modifies this`balls, this`pending, this`width, this`height, padNorth, padSouth, padEast, padWest, balls
      ensures |read| == |balls| && forall k :: 0 <= k < |balls| ==> balls[k].State() == read[k]
      ensures Valid()
      ensures PadBoxes() == PadLayout(layout) && PadPointers() == old(PadPointers())
      ensures width == viewWidth && height == viewHeight && pending == Popped(old(pending))
      ensures old(pending) == [] ==> balls == old(balls)
      ensures old(pending) != [] ==>
        |balls| == |old(balls)| + 1 && balls[..|old(balls)|] == old(balls) && fresh(balls[|old(balls)|]) &&
        balls[|old(balls)|].id == old(pending)[|old(pending)| - 1] &&
        read[|old(balls)|] == LaunchState(balls[|old(balls)|].id, layout, old(width), old(height), launchDx, launchDy)
      ensures forall k :: 0 <= k < |old(balls)| ==>
        read[k] == old(balls[k].State()).(box := BoxOf(layout, old(balls)[k].id))
    {
      ReadSprites(layout);
      FlushPending(layout, launchDx, launchDy);
      width, height := viewWidth, viewHeight;
      read := StatesOf(balls);
    }

    /**
     * The simulation body of `nextFrame`: every ball is bounced against the
     * viewport and the pads, the pads are placed, and every ball is advanced
     * by `deltaT`. Only the sprites change.
     */
    method MovePhase(deltaT: int, ghost pads: seq<Box>)
      requires PadsDistinct() && BallsApart(balls) && PadBoxes() == pads
      modifies padNorth, padSouth, padEast, padWest, balls
      ensures PadBoxes() == pads && PadsPlaced() && PadPointers() == old(PadPointers())
      ensures forall k {:trigger balls[k].State()} :: 0 <= k < |balls| ==>
        balls[k].State() == Step(old(balls[k].State()), width, height, pads, deltaT)
    {
      BounceBalls();
      PlacePads();
      AdvanceBalls(deltaT);
    }

    /**
     * The rest of `nextFrame` after the reads: the simulation body, then the
     * spawn timer. Each ball in play takes one `Step`; the balls and their
     * order stay as they are.
     */
    method UpdatePhase(ghost pads: seq<Box>, ghost before: seq<BallState>)
      requires Valid() && PadBoxes() == pads
      requires |before| == |balls| && forall k :: 0 <= k < |balls| ==> balls[k].State() == before[k]
      modifies this`counter, this`pending, this`latestBallLaunch, padNorth, padSouth, padEast, padWest, balls
      ensures Valid()
      ensures PadBoxes() == pads && PadsPlaced() && PadPointers() == old(PadPointers())
      ensures Stepped(balls, before, width, height, pads, currentFrame - previousFrame)
      ensures old(currentFrame - latestBallLaunch) >= intervalBetweenBalls ==>
        counter == old(counter) + 1 && pending == old(pending) + [BallId(old(counter))] &&
        latestBallLaunch == currentFrame
      ensures old(currentFrame - latestBallLaunch) < intervalBetweenBalls ==>
        counter == old(counter) && pending == old(pending) && latestBallLaunch == old(latestBallLaunch)
    {
      var deltaT := currentFrame - previousFrame;
      MovePhase(deltaT, pads);
      SpawnIfDue();
    }

    /**
     * `nextFrame`: the read phase, the simulation body with the time elapsed
     * between the previous frame and this one, then the spawn timer. Every
     * ball takes one `Step` from its state as read (`read`): for a ball
     * already in play that is its state with the rectangle read for its
     * element, which makes the step a `FrameStep`; for the launched ball it is
     * its launch state.
     */
    method NextFrame(layout: string -> DomRect, viewWidth: real, viewHeight: real, launchDx: int, launchDy: int)
      returns (ghost read: seq<BallState>)
      requires Valid()
      modifies this`balls, this`pending, this`counter, this`latestBallLaunch, this`width, this`height
      modifies padNorth, padSouth, padEast, padWest, balls
      ensures Stepped(balls, read, width, height, PadLayout(layout), currentFrame - previousFrame)
      ensures |read| == |balls|
      ensures Valid() && width == viewWidth && height == viewHeight
      ensures PadBoxes() == PadLayout(layout) && PadsPlaced() && PadPointers() == old(PadPointers())
      ensures old(pending) == [] ==> balls == old(balls)
      ensures old(pending) != [] ==>
        |balls| == |old(balls)| + 1 && balls[..|old(balls)|] == old(balls) && fresh(balls[|old(balls)|]) &&
        balls[|old(balls)|].id == old(pending)[|old(pending)| - 1] &&
        read[|old(balls)|] == LaunchState(balls[|old(balls)|].id, layout, old(width), old(height), launchDx, launchDy)
      ensures forall k :: 0 <= k < |old(balls)| ==>
        read[k] == old(balls[k].State()).(box := BoxOf(layout, old(balls)[k].id))
      ensures old(currentFrame - latestBallLaunch) >= intervalBetweenBalls ==>
        counter == old(counter) + 1 && pending == Popped(old(pending)) + [BallId(old(counter))] &&
        latestBallLaunch == currentFrame
      ensures old(currentFrame - latestBallLaunch) < intervalBetweenBalls ==>
        counter == old(counter) && pending == Popped(old(pending)) && latestBallLaunch == old(latestBallLaunch)
    {
      read := ReadPhase(layout, viewWidth, viewHeight, launchDx, launchDy);
      UpdatePhase(PadLayout(layout), read);

    }

    /**
     * One turn of the animation loop: the previous frame's time becomes the
     * one before, `now` becomes the current one, then `nextFrame`. The balls
     * move by the time elapsed since the last turn, and the spawn timer
     * compares `now` with the latest launch.
     */
    method Tick(now: int, layout: string -> DomRect, viewWidth: real, viewHeight: real, launchDx: int, launchDy: int)
      returns (ghost read: seq<BallState>)
      requires Valid()
      modifies this`balls, this`pending, this`counter, this`latestBallLaunch, this`width, this`height
      modifies this`previousFrame, this`currentFrame, padNorth, padSouth, padEast, padWest, balls
      ensures Valid() && previousFrame == old(currentFrame) && currentFrame == now
      ensures Stepped(balls, read, width, height, PadLayout(layout), currentFrame - previousFrame)
      ensures |read| == |balls| && width == viewWidth && height == viewHeight
      ensures PadBoxes() == PadLayout(layout) && PadsPlaced() && PadPointers() == old(PadPointers())
      ensures old(pending) == [] ==> balls == old(balls)
      ensures old(pending) != [] ==>
        |balls| == |old(balls)| + 1 && balls[..|old(balls)|] == old(balls) && fresh(balls[|old(balls)|]) &&
        balls[|old(balls)|].id == old(pending)[|old(pending)| - 1] &&
        read[|old(balls)|] == LaunchState(balls[|old(balls)|].id, layout, old(width), old(height), launchDx, launchDy)
      ensures forall k :: 0 <= k < |old(balls)| ==>
        read[k] == old(balls[k].State()).(box := BoxOf(layout, old(balls)[k].id))
      ensures now - old(latestBallLaunch) >= intervalBetweenBalls ==>
        counter == old(counter) + 1 && pending == Popped(old(pending)) + [BallId(old(counter))] &&
        latestBallLaunch == now
      ensures now - old(latestBallLaunch) < intervalBetweenBalls ==>
        counter == old(counter) && pending == Popped(old(pending)) && latestBallLaunch == old(latestBallLaunch)
    {
      previousFrame := currentFrame;
      currentFrame := now;
      read := NextFrame(layout, viewWidth, viewHeight, launchDx, launchDy);
    }
  }

  /** What one turn of the animation loop is given: the clock, the page, the viewport and the launch direction. */
  datatype Turn = Turn(now: int, layout: string -> DomRect, viewWidth: real, viewHeight: real, launchDx: int, launchDy: int)

  /**
   * One turn of the animation loop, as `Game.Tick`, with what the script
   * needs across turns: the game stays valid, the balls already in play
   * stay, the last queued ball is launched when there is one (a new object),
   * and the queue and the counter change as the spawn timer decides.
   */
  method PlayTurn(g: Game, t: Turn)
    requires g.Valid()
    modifies g, g.padNorth, g.padSouth, g.padEast, g.padWest, g.balls
    ensures g.Valid() && g.currentFrame == t.now
    ensures old(g.pending) == [] ==> g.balls == old(g.balls)
    ensures old(g.pending) != [] ==>
      |g.balls| == |old(g.balls)| + 1 && g.balls[..|old(g.balls)|] == old(g.balls) &&
      g.balls[|old(g.balls)|].id == old(g.pending)[|old(g.pending)| - 1]
    ensures forall k :: |old(g.balls)| <= k < |g.balls| ==> fresh(g.balls[k])
    ensures (g.pending == Popped(old(g.pending)) && g.counter == old(g.counter)) ||
            (g.pending == Popped(old(g.pending)) + [BallId(old(g.counter))] && g.counter == old(g.counter) + 1)
  {
    ghost var before := g.balls;
    var _ := g.Tick(t.now, t.layout, t.viewWidth, t.viewHeight, t.launchDx, t.launchDy);
    forall k | |before| <= k < |g.balls|
      ensures fresh(g.balls[k])
    {
      assert k == |before|;
    }
  }

  /**
   * `PlayTurn` together with the ball ids it keeps: the ids in play and the
   * queued ids stay the distinct run of `Ball.prepare` ids.
   */
  method PlayTurnKeepingIds(g: Game, t: Turn)
    requires g.Valid() && IdsValid(IdsOf(g.balls), g.pending, g.counter)
    modifies g, g.padNorth, g.padSouth, g.padEast, g.padWest, g.balls
    ensures g.Valid() && IdsValid(IdsOf(g.balls), g.pending, g.counter) && g.currentFrame == t.now
    ensures |old(g.balls)| <= |g.balls| && g.balls[..|old(g.balls)|] == old(g.balls)
    ensures forall k :: |old(g.balls)| <= k < |g.balls| ==> fresh(g.balls[k])
  {
    ghost var before, pending, counter := g.balls, g.pending, g.counter;
    PlayTurn(g, t);
    FrameKeepsBallIds(before, pending, counter, g.balls, g.pending, g.counter);
  }

  /** The turns of the animation loop, one `PlayTurnKeepingIds` each, in order. */
  method PlayTurns(g: Game, turns: seq<Turn>)
    requires g.Valid() && IdsValid(IdsOf(g.balls), g.pending, g.counter)
    modifies g, g.padNorth, g.padSouth, g.padEast, g.padWest, g.balls
    ensures g.Valid() && IdsValid(IdsOf(g.balls), g.pending, g.counter)
    ensures turns != [] ==> g.currentFrame == turns[|turns| - 1].now
    ensures turns == [] ==> g.currentFrame == old(g.currentFrame)
  {
    for i := 0 to |turns|
      invariant forall k :: 0 <= k < |g.balls| ==> g.balls[k] in old(g.balls) || fresh(g.balls[k])
      invariant g.Valid() && IdsValid(IdsOf(g.balls), g.pending, g.counter)
      invariant g.currentFrame == if i == 0 then old(g.currentFrame) else turns[i - 1].now
    {
      PlayTurnKeepingIds(g, turns[i]);
    }
  }

  /**
   * The whole script: the setup, the first `nextFrame`, then one turn of the
   * animation loop for each entry of `turns`. However many turns run, the
   * game stays valid, the balls in play and the queue hold exactly the ids
   * prepared so far and no id twice, every ball is an object of its own, and
   * the current frame's time is the last clock read.
   */
  method Play(startClock: int, previousClock: int, currentClock: int, layout: string -> DomRect,
              viewWidth: real, viewHeight: real, initialBallSpeed: real, intervalBetweenBalls: int,
              launchDx: int, launchDy: int, turns: seq<Turn>)
    returns (g: Game)
    ensures fresh(g) && g.Valid()
    ensures IdsValid(IdsOf(g.balls), g.pending, g.counter) && Distinct(IdsOf(g.balls) + g.pending)
    ensures g.currentFrame == if turns == [] then currentClock else turns[|turns| - 1].now
  {
    g := new Game(startClock, previousClock, currentClock, layout, viewWidth, viewHeight,
                  initialBallSpeed, intervalBetweenBalls);
    InitialIdsValid();
    assert IdsOf(g.balls) == [];
    ghost var before, pending, counter := g.balls, g.pending, g.counter;
    var _ := g.NextFrame(layout, viewWidth, viewHeight, launchDx, launchDy);
    FrameKeepsBallIds(before, pending, counter, g.balls, g.pending, g.counter);
    PlayTurns(g, turns);
    IdsValidMeans(IdsOf(g.balls), g.pending, g.counter);
  }
}
