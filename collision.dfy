/** Axis-aligned bounding boxes and the strict overlap test used for every hit. */
module Collision {

  /** A rectangle given by its top-left corner and its extent. */
  datatype Rect = Rect(x: int, y: int, width: int, height: int)

  /** `isColliding`: the two extents overlap strictly on both axes. */
  predicate IsColliding(a: Rect, b: Rect) {
    a.x < b.x + b.width &&
    a.x + a.width > b.x &&
    a.y < b.y + b.height &&
    a.y + a.height > b.y
  }

  /** The unit cell whose top-left corner is (px, py) lies inside r. */
  predicate Covers(r: Rect, px: int, py: int) {
    r.x <= px < r.x + r.width && r.y <= py < r.y + r.height
  }

  /** Every rectangle the game builds has a positive extent. */
  predicate Proper(r: Rect) {
    r.width > 0 && r.height > 0
  }

  /** The test does not depend on the order of its arguments. */
  lemma CollidingIsSymmetric(a: Rect, b: Rect)
    ensures IsColliding(a, b) <==> IsColliding(b, a)
  {
  }

  /** Rectangles that only share an edge do not collide. */
  lemma TouchingIsNotColliding(a: Rect, b: Rect)
    requires a.x + a.width == b.x || b.x + b.width == a.x ||
             a.y + a.height == b.y || b.y + b.height == a.y
    ensures !IsColliding(a, b)
  {
  }

  /** Rectangles separated on either axis do not collide. */
  lemma SeparatedIsNotColliding(a: Rect, b: Rect)
    requires a.x + a.width <= b.x || b.x + b.width <= a.x ||
             a.y + a.height <= b.y || b.y + b.height <= a.y
    ensures !IsColliding(a, b)
  {
  }

  /** For rectangles of positive extent, colliding means sharing at least one unit cell. */
  lemma CollidingIffSharedCell(a: Rect, b: Rect)
    requires Proper(a) && Proper(b)
    ensures IsColliding(a, b) <==> exists px, py :: Covers(a, px, py) && Covers(b, px, py)
  {
    if IsColliding(a, b) {
      var px := if a.x < b.x then b.x else a.x;
      var py := if a.y < b.y then b.y else a.y;
      assert Covers(a, px, py) && Covers(b, px, py);
    }
  }
}
