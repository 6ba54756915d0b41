/**
 * Integer points and half-open rectangles, as the image package of the Go
 * standard library defines them (only the parts the dashboard uses).
 */
module Geometry {

  datatype Point = Point(x: int, y: int)

  const Origin := Point(0, 0)

  /** The rectangle [min.x, max.x) x [min.y, max.y). */
  datatype Rect = Rect(min: Point, max: Point) {

    /** A rectangle with no points; the zero rectangle is one. */
    predicate Empty() {
      min.x >= max.x || min.y >= max.y
    }

    function Dx(): int { max.x - min.x }

    function Dy(): int { max.y - min.y }

    /** The point lies inside the rectangle. */
    predicate Contains(p: Point) {
      min.x <= p.x < max.x && min.y <= p.y < max.y
    }

    /** Both rectangles are non-empty and share at least one point. */
    predicate Overlaps(s: Rect) {
      !Empty() && !s.Empty()
      && min.x < s.max.x && s.min.x < max.x
      && min.y < s.max.y && s.min.y < max.y
    }
  }

  const ZeroRect := Rect(Origin, Origin)

  /** `image.Rect(x0, y0, x1, y1)` for already ordered corners. */
  function R(x0: int, y0: int, x1: int, y1: int): Rect {
    Rect(Point(x0, y0), Point(x1, y1))
  }

  /** An empty rectangle contains no point. */
  lemma EmptyContainsNothing(r: Rect, p: Point)
    requires r.Empty()
    ensures !r.Contains(p)
  {
  }

  /** Two rectangles overlap exactly when some point lies in both. */
  lemma OverlapsIffCommonPoint(r: Rect, s: Rect)
    ensures r.Overlaps(s) <==> exists p :: r.Contains(p) && s.Contains(p)
  {
    if r.Overlaps(s) {
      var p := Point(if r.min.x < s.min.x then s.min.x else r.min.x,
                     if r.min.y < s.min.y then s.min.y else r.min.y);
      assert r.Contains(p) && s.Contains(p);
    }
  }
}

/**
 * Images are abstract to the dashboard's core: only where they come from and
 * where they are pushed matters, never their pixels.
 */
module Imaging {
  import opened Geometry

  datatype Image =
    | Black(bounds: Rect)                         // image.NewRGBA(bounds): all pixels zero
    | Picture(tag: nat)                           // any image a module or device produced
    | Composite(bounds: Rect, layers: seq<Image>) // layers drawn over a black canvas, in order
}
