// Axis-aligned rectangles, the closed-interval intersection test the game
// uses for every collision, and the arena configuration.

module Geometry {

  /** A box in arena coordinates: left/top corner and right/bottom corner. */
  datatype Rect = Rect(left: real, top: real, right: real, bottom: real)

  predicate WellFormed(r: Rect) {
    r.left <= r.right && r.top <= r.bottom
  }

  /** The point (px, py) lies in the closed box r. */
  predicate Contains(r: Rect, px: real, py: real) {
    r.left <= px <= r.right && r.top <= py <= r.bottom
  }

  /**
   * isIntersecting: two boxes intersect unless one lies strictly to one side
   * of the other, horizontally or vertically.
   */
  predicate Intersects(a: Rect, b: Rect) {
    !(a.right < b.left || a.left > b.right) && !(a.bottom < b.top || a.top > b.bottom)
  }

  lemma IntersectsSymmetric(a: Rect, b: Rect)
    ensures Intersects(a, b) <==> Intersects(b, a)
  {
  }

  /**
   * Boxes that only share an edge, or part of one, or a corner still
   * intersect: their sides touch on one axis and their extents overlap on
   * the other.
   */
  lemma TouchingIntersects(a: Rect, b: Rect)
    requires WellFormed(a) && WellFormed(b)
    requires ((a.right == b.left || a.left == b.right) && a.top <= b.bottom && b.top <= a.bottom)
          || ((a.bottom == b.top || a.top == b.bottom) && a.left <= b.right && b.left <= a.right)
    ensures Intersects(a, b)
  {
  }

  /**
   * The test agrees with the reference meaning of intersection on
   * well-formed boxes: the two closed boxes have a point in common.
   */
  lemma IntersectsIffCommonPoint(a: Rect, b: Rect)
    requires WellFormed(a) && WellFormed(b)
    ensures Intersects(a, b) <==> exists px: real, py: real :: Contains(a, px, py) && Contains(b, px, py)
  {
    if Intersects(a, b) {
      var px := if a.left < b.left then b.left else a.left;
      var py := if a.top < b.top then b.top else a.top;
      assert Contains(a, px, py) && Contains(b, px, py);
    }
  }

  /**
   * The sizes the game reads from its page: the arena (its left edge, width
   * and height), the ball's side, the platform's width, top and height, and
   * a brick's width and height.
   */
  datatype Config = Config(
    left: real,
    width: nat,
    height: nat,
    ballSize: real,
    platformWidth: real,
    platformTop: real,
    platformHeight: real,
    brickWidth: real,
    brickHeight: real)

  function Right(cfg: Config): real {
    cfg.left + cfg.width as real
  }
}
