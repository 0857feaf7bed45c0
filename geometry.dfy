/** Geometry shared by every entity of the game: the fixed simulation step,
    the axis-aligned box overlap test and the bounded one-axis move. */
module Geometry {

  /** Every timer in the game advances by one sixtieth of a second per tick. */
  const FrameStep: real := 1.0 / 60.0

  /** An axis-aligned box given by its top-left corner and its size. */
  datatype Box = Box(x: real, y: real, w: real, h: real)

  /** The collision test of Player, Enemy and Projectile: both axes must overlap
      strictly, so boxes that only share an edge do not collide. */
  predicate Overlaps(a: Box, b: Box)
  {
    a.x < b.x + b.w && a.x + a.w > b.x && a.y < b.y + b.h && a.y + a.h > b.y
  }

  /** The test does not depend on which box asks. */
  lemma OverlapsSymmetric(a: Box, b: Box)
    ensures Overlaps(a, b) <==> Overlaps(b, a)
  {
  }

  /** Boxes touching along an edge (or a corner) do not collide. */
  lemma TouchingIsNotOverlapping(a: Box, b: Box)
    requires a.x + a.w == b.x || b.x + b.w == a.x || a.y + a.h == b.y || b.y + b.h == a.y
    ensures !Overlaps(a, b)
  {
  }

  /** One axis of a bounded move: the coordinate takes `pos + delta` only when
      that stays within [0, limit]; otherwise it keeps its old value. */
  function StepWithin(pos: real, delta: real, limit: real): (r: real)
    ensures r == pos + delta || r == pos
    ensures 0.0 <= pos + delta <= limit ==> r == pos + delta
    ensures !(0.0 <= pos + delta <= limit) ==> r == pos
    ensures 0.0 <= pos <= limit ==> 0.0 <= r <= limit
  {
    if 0.0 <= pos + delta && pos + delta <= limit then pos + delta else pos
  }
}
