/** Axis-aligned rectangles and the centre-distance collision test that
    `collisionCheck` performs between a moving shape and a static one.
    Coordinates are exact reals; y grows downwards, as on a canvas. */
module Shapes {

  /** The `null` / non-null result of the side classification. */
  datatype Option<T> = None | Some(value: T)

  /** A rectangle given by its top-left corner and its extents. */
  datatype Rect = Rect(x: real, y: real, width: real, height: real)

  /** The side of the moving shape on which a collision is reported. */
  datatype Side = Top | Bottom | Left | Right

  function Abs(v: real): real {
    if v < 0.0 then -v else v
  }

  function Min(a: real, b: real): real {
    if a <= b then a else b
  }

  function CentreX(r: Rect): real { r.x + r.width / 2.0 }
  function CentreY(r: Rect): real { r.y + r.height / 2.0 }

  /** Signed distances between the centres of `a` and `b`. */
  function DistanceX(a: Rect, b: Rect): real { CentreX(a) - CentreX(b) }
  function DistanceY(a: Rect, b: Rect): real { CentreY(a) - CentreY(b) }

  /** Sums of the half extents of `a` and `b`. */
  function HalfWidths(a: Rect, b: Rect): real { a.width / 2.0 + b.width / 2.0 }
  function HalfHeights(a: Rect, b: Rect): real { a.height / 2.0 + b.height / 2.0 }

  /** The collision test: both centre distances strictly below the half extents. */
  predicate Overlaps(a: Rect, b: Rect)
    ensures Overlaps(a, b) ==> OffsetX(a, b) > 0.0 && OffsetY(a, b) > 0.0
    ensures Overlaps(a, b) ==> a.width + b.width > 0.0 && a.height + b.height > 0.0
  {
    Abs(DistanceX(a, b)) < HalfWidths(a, b) && Abs(DistanceY(a, b)) < HalfHeights(a, b)
  }

  /** Penetration depths along each axis (meaningful when the shapes overlap). */
  function OffsetX(a: Rect, b: Rect): real { HalfWidths(a, b) - Abs(DistanceX(a, b)) }
  function OffsetY(a: Rect, b: Rect): real { HalfHeights(a, b) - Abs(DistanceY(a, b)) }

  /** The side of `a` that `b` collides with, or None when they do not overlap.
      The vertical axis is chosen when the horizontal penetration is at least
      the vertical one, so ties resolve vertically. */
  function Classify(a: Rect, b: Rect): (r: Option<Side>)
    ensures r.None? <==> !Overlaps(a, b)
    ensures r == Some(Top) || r == Some(Bottom) ==> OffsetY(a, b) <= OffsetX(a, b)
    ensures r == Some(Left) || r == Some(Right) ==> OffsetX(a, b) < OffsetY(a, b)
  {
    if !Overlaps(a, b) then None
    else if OffsetX(a, b) >= OffsetY(a, b) then
      if DistanceY(a, b) > 0.0 then Some(Top) else Some(Bottom)
    else
      if DistanceX(a, b) > 0.0 then Some(Left) else Some(Right)
  }

  /** Where `a` ends up after `collisionCheck` pushes it out of `b` along
      the classified axis by that axis's penetration depth. */
  function PushOut(a: Rect, b: Rect): (r: Rect)
    ensures r.width == a.width && r.height == a.height
    ensures !Overlaps(a, b) ==> r == a
    ensures Overlaps(a, b) ==> !Overlaps(r, b)
    ensures Classify(a, b) == Some(Bottom) ==> r.x == a.x && r.y + a.height == b.y
    ensures Classify(a, b) == Some(Top) ==> r.x == a.x && r.y == b.y + b.height
    ensures Classify(a, b) == Some(Left) ==> r.y == a.y && r.x == b.x + b.width
    ensures Classify(a, b) == Some(Right) ==> r.y == a.y && r.x + a.width == b.x
    ensures Overlaps(a, b) ==>
              Abs(r.x - a.x) + Abs(r.y - a.y) == Min(OffsetX(a, b), OffsetY(a, b)) > 0.0
  {
    match Classify(a, b)
    case None => a
    case Some(Top) => a.(y := a.y + OffsetY(a, b))
    case Some(Bottom) => a.(y := a.y - OffsetY(a, b))
    case Some(Left) => a.(x := a.x + OffsetX(a, b))
    case Some(Right) => a.(x := a.x - OffsetX(a, b))
  }

  /** The test does not depend on which shape is the moving one. */
  lemma OverlapsSymmetric(a: Rect, b: Rect)
    ensures Overlaps(a, b) <==> Overlaps(b, a)
    ensures Abs(DistanceX(a, b)) == Abs(DistanceX(b, a))
    ensures Abs(DistanceY(a, b)) == Abs(DistanceY(b, a))
  {
  }

  /** The centre-distance test is exactly strict intersection of the open
      intervals the rectangles span on both axes. */
  lemma OverlapsIffIntervalsIntersect(a: Rect, b: Rect)
    ensures Overlaps(a, b) <==>
              a.x < b.x + b.width && b.x < a.x + a.width &&
              a.y < b.y + b.height && b.y < a.y + a.height
  {
  }

  /** Rectangles that only share an edge do not collide. */
  lemma SharedEdgeIsNoCollision(a: Rect, b: Rect)
    requires a.y + a.height == b.y || b.y + b.height == a.y ||
             a.x + a.width == b.x || b.x + b.width == a.x
    ensures !Overlaps(a, b) && Classify(a, b) == None && PushOut(a, b) == a
  {
  }

  /** The classified side, read geometrically: for a vertical resolution the
      side is the top exactly when the centre of `a` lies strictly below the
      centre of `b`; for a horizontal one it is the left exactly when the
      centre of `a` lies strictly right of the centre of `b`. */
  lemma ClassifiedSide(a: Rect, b: Rect)
    requires Overlaps(a, b)
    ensures Classify(a, b) == Some(Top) <==>
              OffsetY(a, b) <= OffsetX(a, b) && CentreY(a) > CentreY(b)
    ensures Classify(a, b) == Some(Bottom) <==>
              OffsetY(a, b) <= OffsetX(a, b) && CentreY(a) <= CentreY(b)
    ensures Classify(a, b) == Some(Left) <==>
              OffsetX(a, b) < OffsetY(a, b) && CentreX(a) > CentreX(b)
    ensures Classify(a, b) == Some(Right) <==>
              OffsetX(a, b) < OffsetY(a, b) && CentreX(a) <= CentreX(b)
  {
  }
}
