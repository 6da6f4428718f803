/**
 * The capture service's orientation correction: moving a normalised
 * rectangle seen in the camera's current orientation into the portrait
 * preview, and moving a point from the preview back. Coordinates are
 * normalised, with (0, 0) at the top left and (1, 1) at the bottom right.
 * Each map is an exact reflection or quarter turn of the unit square.
 */
module CaptureGeometry {
  import opened Geometry
  import opened DataTypes

  /** Moves a rectangle from the camera's orientation into the portrait preview. */
  function ConvertToCorrected(o: CameraOrientation, r: Rect): (c: Rect)
    ensures o == Portrait || o == Unknown ==> c == r
    ensures o == PortraitUpsideDown ==> Width(c) == Width(r) && Height(c) == Height(r)
    ensures o == LandscapeLeft || o == LandscapeRight ==> Width(c) == Height(r) && Height(c) == Width(r)
    ensures InUnitSquare(r) ==> InUnitSquare(c)
  {
    match o
    case Portrait => r
    case PortraitUpsideDown => Rect(1.0 - MaxX(r), 1.0 - MaxY(r), Width(r), Height(r))
    case LandscapeLeft => Rect(MinY(r), 1.0 - MaxX(r), Height(r), Width(r))
    case LandscapeRight => Rect(1.0 - MaxY(r), MinX(r), Height(r), Width(r))
    case Unknown => r
  }

  /** Moves a point from the portrait preview back into the camera's orientation. */
  function ConvertFromCorrected(o: CameraOrientation, p: Point): (q: Point)
    ensures o == Portrait || o == Unknown ==> q == p
    ensures 0.0 <= p.x <= 1.0 && 0.0 <= p.y <= 1.0 ==> 0.0 <= q.x <= 1.0 && 0.0 <= q.y <= 1.0
  {
    match o
    case Portrait => p
    case PortraitUpsideDown => Point(1.0 - p.x, 1.0 - p.y)
    case LandscapeLeft => Point(1.0 - p.y, p.x)
    case LandscapeRight => Point(p.y, 1.0 - p.x)
    case Unknown => p
  }

  /** The point lies in the closed rectangle. */
  predicate InRect(p: Point, r: Rect) {
    MinX(r) <= p.x <= MaxX(r) && MinY(r) <= p.y <= MaxY(r)
  }

  /** Turning the preview upside down twice gives back the point. */
  lemma UpsideDownInvolution(p: Point)
    ensures ConvertFromCorrected(PortraitUpsideDown, ConvertFromCorrected(PortraitUpsideDown, p)) == p
  {
  }

  /**
   * On a rectangle of zero size (a point), the point map undoes the
   * rectangle map in every orientation.
   */
  lemma FromCorrectedUndoesToCorrected(o: CameraOrientation, x: real, y: real)
    ensures var c := ConvertToCorrected(o, Rect(x, y, 0.0, 0.0));
            ConvertFromCorrected(o, Point(c.x, c.y)) == Point(x, y)
  {
  }

  /**
   * Every point of the corrected rectangle is taken back into the original
   * rectangle: the two maps describe the same movement of the unit square.
   */
  lemma FromCorrectedMapsBack(o: CameraOrientation, r: Rect, p: Point)
    requires InRect(p, ConvertToCorrected(o, r))
    ensures InRect(ConvertFromCorrected(o, p), r)
  {
  }

  /** The corrected rectangle's corners come back as the original rectangle's corners. */
  lemma CornersCorrespond(o: CameraOrientation, r: Rect)
    ensures var c := ConvertToCorrected(o, r);
            var a := ConvertFromCorrected(o, Point(MinX(c), MinY(c)));
            var b := ConvertFromCorrected(o, Point(MaxX(c), MaxY(c)));
            Min(a.x, b.x) == MinX(r) && Max(a.x, b.x) == MaxX(r) &&
            Min(a.y, b.y) == MinY(r) && Max(a.y, b.y) == MaxY(r)
  {
  }
}
