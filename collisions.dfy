// Collision predicates: the arena walls, the boxes of the ball, platform and
// bricks, and the first brick in list order that the ball touches.

module Collisions {
  import opened Geometry
  import opened Bricks

  /** shouldReverseX: the ball's left edge lies outside [0, width - ball size]. */
  predicate ShouldReverseX(ballX: real, cfg: Config) {
    ballX > cfg.width as real - cfg.ballSize || ballX < 0.0
  }

  /** shouldReverseY: the ball's top edge lies outside [0, height - ball size]. */
  predicate ShouldReverseY(ballY: real, cfg: Config) {
    ballY > cfg.height as real - cfg.ballSize || ballY < 0.0
  }

  /**
   * The ball reverses on neither wall exactly when its box lies inside the
   * arena: its top-left and bottom-right corners are both arena points.
   */
  lemma InsideArenaNoReverse(x: real, y: real, cfg: Config)
    requires cfg.ballSize >= 0.0
    ensures (!ShouldReverseX(x, cfg) && !ShouldReverseY(y, cfg))
        <==> (Contains(Rect(0.0, 0.0, cfg.width as real, cfg.height as real), x, y)
              && Contains(Rect(0.0, 0.0, cfg.width as real, cfg.height as real), x + cfg.ballSize, y + cfg.ballSize))
  {
  }

  function BallRect(x: real, y: real, cfg: Config): Rect {
    Rect(x, y, x + cfg.ballSize, y + cfg.ballSize)
  }

  function PlatformRect(platX: real, cfg: Config): Rect {
    Rect(platX, cfg.platformTop, platX + cfg.platformWidth, cfg.platformTop + cfg.platformHeight)
  }

  function BrickRect(b: Brick, cfg: Config): Rect {
    Rect(b.x, b.y, b.x + cfg.brickWidth, b.y + cfg.brickHeight)
  }

  /** A shown element has a box; a hidden one (display: none) touches nothing. */
  predicate Touches(box: Option<Rect>, r: Rect) {
    box.Some? && Intersects(box.value, r)
  }

  predicate HitsBrick(box: Option<Rect>, b: Brick, cfg: Config) {
    Touches(box, BrickRect(b, cfg))
  }

  /**
   * The scan of checkBrickCollisions: the index of the first brick, in list
   * order, that the ball touches, whatever its kind.
   */
  function FirstHit(bs: seq<Brick>, box: Option<Rect>, cfg: Config): (r: Option<nat>)
    ensures r.Some? ==> r.value < |bs| && HitsBrick(box, bs[r.value], cfg)
    ensures r.Some? ==> forall j :: 0 <= j < r.value ==> !HitsBrick(box, bs[j], cfg)
    ensures r.None? <==> forall j :: 0 <= j < |bs| ==> !HitsBrick(box, bs[j], cfg)
  {
    if bs == [] then None
    else if HitsBrick(box, bs[0], cfg) then Some(0)
    else match FirstHit(bs[1..], box, cfg)
      case None => None
      case Some(j) => Some(j + 1)
  }

  /** A touched brick with no touched brick before it is the one the scan finds. */
  lemma FirstHitUnique(bs: seq<Brick>, box: Option<Rect>, cfg: Config, i: nat)
    requires i < |bs| && HitsBrick(box, bs[i], cfg)
    requires forall j :: 0 <= j < i ==> !HitsBrick(box, bs[j], cfg)
    ensures FirstHit(bs, box, cfg) == Some(i)
  {
  }
}
