/**
 * Collision geometry: the box a collision test uses for a game object (its physics
 * body centred on the object's position) and the engine's axis-aligned intersection test.
 */
module Collision {

  import opened PhaserMath

  /** A Phaser.Geom.Rectangle: top-left corner and size. */
  datatype Rect = Rect(x: real, y: real, width: real, height: real) {
    function CentreX(): real { x + width / 2.0 }
    function CentreY(): real { y + height / 2.0 }
  }

  /** getBodyBounds: the body's box, centred on the object's position. */
  function GetBodyBounds(x: real, y: real, bodyWidth: real, bodyHeight: real): (r: Rect)
    ensures r.CentreX() == x && r.CentreY() == y
    ensures r.width == bodyWidth && r.height == bodyHeight
  {
    Rect(x - bodyWidth / 2.0, y - bodyHeight / 2.0, bodyWidth, bodyHeight)
  }

  /**
   * rectanglesIntersect delegates to Phaser.Geom.Intersects.RectangleToRectangle: a box
   * with no area never intersects, and boxes that only share an edge do intersect.
   */
  predicate RectanglesIntersect(a: Rect, b: Rect) {
    && a.width > 0.0 && a.height > 0.0 && b.width > 0.0 && b.height > 0.0
    && a.x <= b.x + b.width
    && a.x + a.width >= b.x
    && a.y <= b.y + b.height
    && a.y + a.height >= b.y
  }

  /** The strict axis-aligned overlap test that the collision test file writes out. */
  predicate StrictOverlap(a: Rect, b: Rect) {
    && a.x < b.x + b.width
    && a.x + a.width > b.x
    && a.y < b.y + b.height
    && a.y + a.height > b.y
  }

  lemma IntersectSymmetric(a: Rect, b: Rect)
    ensures RectanglesIntersect(a, b) == RectanglesIntersect(b, a)
    ensures StrictOverlap(a, b) == StrictOverlap(b, a)
  {
  }

  /**
   * The engine's test and the strict one agree on boxes with area, except when the boxes
   * only touch: then the engine reports a hit and the strict test does not.
   */
  lemma EngineAndStrictAgree(a: Rect, b: Rect)
    requires a.width > 0.0 && a.height > 0.0 && b.width > 0.0 && b.height > 0.0
    ensures StrictOverlap(a, b) ==> RectanglesIntersect(a, b)
    ensures RectanglesIntersect(a, b) && !StrictOverlap(a, b) <==>
      RectanglesIntersect(a, b) &&
      (a.x == b.x + b.width || a.x + a.width == b.x || a.y == b.y + b.height || a.y + a.height == b.y)
  {
  }

  /** Two boxes side by side, sharing the edge x = 10. */
  lemma TouchingEdgesExample()
    ensures RectanglesIntersect(Rect(0.0, 0.0, 10.0, 10.0), Rect(10.0, 0.0, 10.0, 10.0))
    ensures !StrictOverlap(Rect(0.0, 0.0, 10.0, 10.0), Rect(10.0, 0.0, 10.0, 10.0))
    ensures !RectanglesIntersect(Rect(0.0, 0.0, 0.0, 10.0), Rect(0.0, 0.0, 10.0, 10.0))
  {
  }

  /**
   * Two centred boxes with area intersect iff their centres are at most half their summed
   * sizes apart on both axes; a box without area hits nothing.
   */
  lemma CentredBoxesIntersect(x1: real, y1: real, w1: real, h1: real, x2: real, y2: real, w2: real, h2: real)
    ensures RectanglesIntersect(GetBodyBounds(x1, y1, w1, h1), GetBodyBounds(x2, y2, w2, h2))
        <==> w1 > 0.0 && h1 > 0.0 && w2 > 0.0 && h2 > 0.0 &&
             Abs(x1 - x2) <= (w1 + w2) / 2.0 && Abs(y1 - y2) <= (h1 + h2) / 2.0
  {
  }

  /** A body centred at (100, 100) of size 50 x 50 has the box (75, 75, 50, 50). */
  lemma BodyBoundsExample()
    ensures GetBodyBounds(100.0, 100.0, 50.0, 50.0) == Rect(75.0, 75.0, 50.0, 50.0)
    ensures GetBodyBounds(200.0, 150.0, 60.0, 30.0) == Rect(170.0, 135.0, 60.0, 30.0)
  {
  }

  /** The test file's two cases give the same answers under the strict test and the engine's. */
  lemma IntersectExample()
    ensures StrictOverlap(Rect(100.0, 100.0, 50.0, 50.0), Rect(120.0, 120.0, 50.0, 50.0))
    ensures !StrictOverlap(Rect(100.0, 100.0, 50.0, 50.0), Rect(200.0, 200.0, 50.0, 50.0))
    ensures RectanglesIntersect(Rect(100.0, 100.0, 50.0, 50.0), Rect(120.0, 120.0, 50.0, 50.0))
    ensures !RectanglesIntersect(Rect(100.0, 100.0, 50.0, 50.0), Rect(200.0, 200.0, 50.0, 50.0))
  {
  }
}
