/**
 * The geometry extensions of the viewer: classifying a 2-D vector (a drag
 * velocity) by direction and orientation, swapping the components of a point
 * or a size, and the centre of a view's bounds. CGFloat is modelled by `real`.
 */
module Geometry {

  datatype Point = Point(x: real, y: real)
  datatype Size = Size(width: real, height: real)
  datatype Rect = Rect(origin: Point, size: Size)

  const Zero := Point(0.0, 0.0)

  datatype Direction = Left | Right | Up | Down | NoDirection
  datatype Orientation = VerticalOrientation | HorizontalOrientation | NoOrientation

  function Abs(r: real): real {
    if r < 0.0 then -r else r
  }

  // ---------------------------------------------------------------- CGPoint

  /** `CGPoint.inverted()`: the point with its coordinates swapped. */
  function InvertedPoint(p: Point): Point {
    Point(p.y, p.x)
  }

  /**
   * `CGPoint.direction`, branch for branch. Note that `Up` is chosen for a
   * positive y, and that ties of magnitude go to the vertical axis.
   */
  function DirectionOf(p: Point): Direction {
    if p.x == 0.0 && p.y == 0.0 then NoDirection
    else if Abs(p.x) > Abs(p.y) && p.x > 0.0 then Right
    else if Abs(p.x) > Abs(p.y) && p.x <= 0.0 then Left
    else if Abs(p.x) <= Abs(p.y) && p.y > 0.0 then Up
    else if Abs(p.x) <= Abs(p.y) && p.y <= 0.0 then Down
    else NoDirection
  }

  /** `CGPoint.orientation`, derived from the direction. */
  function OrientationOf(p: Point): Orientation {
    var d := DirectionOf(p);
    if d == NoDirection then NoOrientation
    else if d == Left || d == Right then HorizontalOrientation
    else VerticalOrientation
  }

  /** Only the zero vector has no direction: the last `else` of `direction` is dead. */
  lemma DirectionNoneIffZero(p: Point)
    ensures DirectionOf(p) == NoDirection <==> p == Zero
  {
  }

  /** A vector whose horizontal magnitude dominates points right or left by the sign of x. */
  lemma DirectionHorizontalDominant(p: Point)
    requires Abs(p.x) > Abs(p.y)
    ensures DirectionOf(p) == (if p.x > 0.0 then Right else Left)
    ensures p.x != 0.0
  {
  }

  /** A non-zero vector whose vertical magnitude is at least the horizontal one points up or down by the sign of y. */
  lemma DirectionVerticalDominant(p: Point)
    requires p != Zero && Abs(p.x) <= Abs(p.y)
    ensures DirectionOf(p) == (if p.y > 0.0 then Up else Down)
  {
  }

  /** `orientation` in terms of the vector itself: horizontal exactly when |x| > |y|. */
  lemma OrientationCharacterised(p: Point)
    ensures OrientationOf(p) == NoOrientation <==> p == Zero
    ensures OrientationOf(p) == HorizontalOrientation <==> Abs(p.x) > Abs(p.y)
    ensures OrientationOf(p) == VerticalOrientation <==> p != Zero && Abs(p.x) <= Abs(p.y)
  {
  }

  /** Swapping the coordinates twice gives back the point; a point is fixed exactly when x == y. */
  lemma InvertedPointInvolution(p: Point)
    ensures InvertedPoint(InvertedPoint(p)) == p
    ensures InvertedPoint(p) == p <==> p.x == p.y
    ensures InvertedPoint(p).x == p.y && InvertedPoint(p).y == p.x
  {
  }

  /** Swapping the coordinates swaps the orientation, except on the diagonal where both are vertical. */
  lemma InvertedPointOrientation(p: Point)
    requires p != Zero
    ensures Abs(p.x) != Abs(p.y) ==> OrientationOf(InvertedPoint(p)) != OrientationOf(p)
    ensures Abs(p.x) == Abs(p.y) ==> OrientationOf(InvertedPoint(p)) == VerticalOrientation == OrientationOf(p)
  {
    OrientationCharacterised(p);
    OrientationCharacterised(InvertedPoint(p));
  }

  // ----------------------------------------------------------------- CGSize

  /** `CGSize.inverted()`: width and height swapped. */
  function InvertedSize(s: Size): Size {
    Size(s.height, s.width)
  }

  lemma InvertedSizeInvolution(s: Size)
    ensures InvertedSize(s).width == s.height && InvertedSize(s).height == s.width
    ensures InvertedSize(InvertedSize(s)) == s
    ensures s.width == s.height ==> InvertedSize(s) == s
  {
  }

  // ----------------------------------------------------------------- UIView

  /** `UIView.boundsCenter`: the centre of the bounds in the view's own coordinates. */
  function BoundsCenter(bounds: Rect): Point {
    Point(bounds.size.width / 2.0, bounds.size.height / 2.0)
  }

  /**
   * The centre lies halfway along each side of the bounds, whatever the
   * bounds' origin, and zero-sized bounds have their centre at the origin.
   */
  lemma BoundsCenterProperties(bounds: Rect, other: Point)
    ensures BoundsCenter(bounds).x + BoundsCenter(bounds).x == bounds.size.width
    ensures BoundsCenter(bounds).y + BoundsCenter(bounds).y == bounds.size.height
    ensures BoundsCenter(Rect(other, bounds.size)) == BoundsCenter(bounds)
    ensures bounds.size == Size(0.0, 0.0) ==> BoundsCenter(bounds) == Zero
  {
  }
}
