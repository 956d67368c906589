/**
 * The point clamping of the PCB analysis's drawing helpers: points are
 * limited to the pixels of the image before lines are drawn to them.
 */
module Visualization {
  import PythonNumeric

  datatype Point = Point(x: int, y: int)

  function Max(a: int, b: int): int { if a >= b then a else b }
  function Min(a: int, b: int): int { if a <= b then a else b }

  /** Whether a point is a pixel of a `width` by `height` image. */
  predicate Inside(p: Point, width: int, height: int)
  {
    0 <= p.x < width && 0 <= p.y < height
  }

  /**
   * `limit_point`: each coordinate is cut to the last pixel, then raised to 0.
   * In a non-empty image the result is a pixel, a pixel stays where it is,
   * and of the coordinates outside the image each moves to the nearest border.
   */
  function LimitPoint(p: Point, width: int, height: int): (r: Point)
    ensures width >= 1 && height >= 1 ==> Inside(r, width, height)
    ensures Inside(p, width, height) ==> r == p
    ensures width >= 1 ==> (p.x < 0 ==> r.x == 0) && (p.x >= width ==> r.x == width - 1)
    ensures height >= 1 ==> (p.y < 0 ==> r.y == 0) && (p.y >= height ==> r.y == height - 1)
  {
    Point(Max(0, Min(p.x, width - 1)), Max(0, Min(p.y, height - 1)))
  }

  /** Limiting twice is limiting once. */
  lemma LimitIdempotent(p: Point, width: int, height: int)
    ensures LimitPoint(LimitPoint(p, width, height), width, height) == LimitPoint(p, width, height)
  {
  }

  /** In an image without pixels every point goes to the origin. */
  lemma LimitEmptyImage(p: Point, width: int, height: int)
    requires width <= 0 && height <= 0
    ensures LimitPoint(p, width, height) == Point(0, 0)
  {
  }

  /**
   * The outer ends of the four crosshair arms of `draw_crosshair`, half the
   * size (truncated as `int(0.5 * size)` does) to the right, left, below and
   * above the centre, each limited to the image.
   */
  function CrosshairEnds(center: Point, size: int, width: int, height: int): (r: seq<Point>)
    ensures |r| == 4
    ensures width >= 1 && height >= 1 ==> forall k :: 0 <= k < 4 ==> Inside(r[k], width, height)
  {
    var half := PythonNumeric.Trunc(0.5 * size as real);
    [LimitPoint(Point(center.x + half, center.y), width, height),
     LimitPoint(Point(center.x - half, center.y), width, height),
     LimitPoint(Point(center.x, center.y + half), width, height),
     LimitPoint(Point(center.x, center.y - half), width, height)]
  }

  /** For a centre inside the image the arms stay on its row and column, and within half the size of it. */
  lemma CrosshairArms(center: Point, size: int, width: int, height: int)
    requires Inside(center, width, height) && size >= 0
    ensures var r := CrosshairEnds(center, size, width, height); var half := size / 2;
      r[0].y == center.y && r[1].y == center.y && r[2].x == center.x && r[3].x == center.x &&
      center.x <= r[0].x <= center.x + half && center.x - half <= r[1].x <= center.x &&
      center.y <= r[2].y <= center.y + half && center.y - half <= r[3].y <= center.y
  {
    var half := PythonNumeric.Trunc(0.5 * size as real);
    assert half == size / 2;
  }
}
