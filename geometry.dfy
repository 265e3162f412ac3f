/**
 * Axis-aligned boxes and the strict overlap test shared by collision,
 * coin pickup and the goal trigger, plus the size of the Game Boy screen.
 */
module Geometry {

  /** Screen size in logical pixels (160 x 144). */
  const ScreenWidth: int := 160
  const ScreenHeight: int := 144

  /** A rectangle anchored at its top-left corner (y grows downwards). */
  datatype Box = Box(x: real, y: real, w: real, h: real)

  /**
   * True iff the two rectangles share interior points: all four tests are
   * strict, so boxes that only touch along an edge do not overlap.
   */
  predicate Overlaps(a: Box, b: Box)
  {
    a.x < b.x + b.w && a.x + a.w > b.x &&
    a.y < b.y + b.h && a.y + a.h > b.y
  }

  lemma OverlapsSymmetric(a: Box, b: Box)
    ensures Overlaps(a, b) <==> Overlaps(b, a)
  {
  }

  /** Boxes that meet along a vertical or horizontal edge do not collide. */
  lemma TouchingDoesNotOverlap(a: Box, b: Box)
    requires a.x + a.w == b.x || b.x + b.w == a.x || a.y + a.h == b.y || b.y + b.h == a.y
    ensures !Overlaps(a, b)
  {
  }
}
