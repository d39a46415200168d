// Geometry that the sketch view needs from CoreGraphics: points, the quadratic
// segments a pen path is made of, and axis-aligned bounding boxes.

module Optional {
  datatype Option<T> = None | Some(value: T)
}

module Geometry {

  datatype Point = Point(x: real, y: real)

  function Mid(a: Point, b: Point): Point {
    Point((a.x + b.x) / 2.0, (a.y + b.y) / 2.0)
  }

  function Min(a: real, b: real): real { if a <= b then a else b }
  function Max(a: real, b: real): real { if a <= b then b else a }

  /** An axis-aligned rectangle. `Null` is the box of a path with no
      segments (CoreGraphics' null rectangle), which meets nothing. */
  datatype Box = Null | Rect(minX: real, maxX: real, minY: real, maxY: real)

  /** Overlap of two boxes, closed intervals on both axes. */
  predicate Intersects(a: Box, b: Box) {
    a.Rect? && b.Rect? &&
    a.minX <= b.maxX && b.minX <= a.maxX &&
    a.minY <= b.maxY && b.minY <= a.maxY
  }

  /** `a` lies inside `b`. */
  predicate Within(a: Box, b: Box) {
    a.Rect? && b.Rect? &&
    b.minX <= a.minX && a.maxX <= b.maxX &&
    b.minY <= a.minY && a.maxY <= b.maxY
  }

  function Union(a: Box, b: Box): (r: Box)
    ensures r == Null <==> a == Null && b == Null
    ensures a.Rect? ==> Within(a, r)
    ensures b.Rect? ==> Within(b, r)
  {
    match a
    case Null => b
    case Rect(ax0, ax1, ay0, ay1) =>
      match b
      case Null => a
      case Rect(bx0, bx1, by0, by1) =>
        Rect(Min(ax0, bx0), Max(ax1, bx1), Min(ay0, by0), Max(ay1, by1))
  }

  /** One smoothed piece of a pen path: a quadratic curve from `start` to `end`
      pulled towards `control`. */
  datatype Segment = Quad(start: Point, control: Point, end: Point)

  type Path = seq<Segment>

  function PointsBox(a: Point, b: Point, c: Point): Box {
    Rect(Min(a.x, Min(b.x, c.x)), Max(a.x, Max(b.x, c.x)),
         Min(a.y, Min(b.y, c.y)), Max(a.y, Max(b.y, c.y)))
  }

  /** The box of a segment counts its control point, as CGPath's
      `boundingBox` does. */
  function SegmentBox(s: Segment): Box {
    PointsBox(s.start, s.control, s.end)
  }

  function BoundingBox(p: Path): Box {
    if p == [] then Null else Union(BoundingBox(p[..|p| - 1]), SegmentBox(p[|p| - 1]))
  }

  /** Only an empty path has the null box, so an empty path intersects nothing. */
  lemma EmptyPathIntersectsNothing(p: Path, b: Box)
    ensures BoundingBox(p) == Null <==> p == []
    ensures p == [] ==> !Intersects(BoundingBox(p), b) && !Intersects(b, BoundingBox(p))
  {
  }

  lemma WithinTransitive(a: Box, b: Box, c: Box)
    requires Within(a, b) && Within(b, c)
    ensures Within(a, c)
  {
  }

  /** The box of a path covers the box of each of its segments. */
  lemma {:induction false} BoundingBoxCovers(p: Path, k: nat)
    requires k < |p|
    ensures Within(SegmentBox(p[k]), BoundingBox(p))
  {
    var n := |p| - 1;
    if k < n {
      assert p[..n][k] == p[k];
      BoundingBoxCovers(p[..n], k);
      WithinTransitive(SegmentBox(p[k]), BoundingBox(p[..n]), BoundingBox(p));
    }
  }

  /** Hence a box that meets any one segment of a path meets the path's box. */
  lemma SegmentHitIsPathHit(p: Path, k: nat, b: Box)
    requires k < |p| && Intersects(SegmentBox(p[k]), b)
    ensures Intersects(BoundingBox(p), b)
  {
    BoundingBoxCovers(p, k);
  }
}
