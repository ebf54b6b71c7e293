/** Integer screen rectangles with the semantics of Go's `image.Rectangle`,
    which the scene and the sprite sheets build on: `Rect` swaps coordinates
    into canonical order, `Max` is an exclusive bound, `In` is containment. */
module Geometry {

  datatype Point = Point(x: int, y: int)

  /** A rectangle spanning `min.x <= x < max.x` and `min.y <= y < max.y`. */
  datatype Rectangle = Rectangle(min: Point, max: Point)

  function Min(a: int, b: int): int { if a <= b then a else b }
  function Max(a: int, b: int): int { if a <= b then b else a }

  ghost predicate Canonical(r: Rectangle) {
    r.min.x <= r.max.x && r.min.y <= r.max.y
  }

  /** Go's `image.Rect(x0, y0, x1, y1)`: the coordinates are swapped if
      needed so that the result is canonical. */
  function Rect(x0: int, y0: int, x1: int, y1: int): (r: Rectangle)
    ensures Canonical(r)
    ensures r.min.x == Min(x0, x1) && r.max.x == Max(x0, x1)
    ensures r.min.y == Min(y0, y1) && r.max.y == Max(y0, y1)
  {
    var (loX, hiX) := if x0 > x1 then (x1, x0) else (x0, x1);
    var (loY, hiY) := if y0 > y1 then (y1, y0) else (y0, y1);
    Rectangle(Point(loX, loY), Point(hiX, hiY))
  }

  /** `image.Rectangle.Empty`: the rectangle holds no point. */
  predicate Empty(r: Rectangle) {
    r.min.x >= r.max.x || r.min.y >= r.max.y
  }

  /** `image.Rectangle.In`: every point of `r` is a point of `s`. */
  predicate In(r: Rectangle, s: Rectangle) {
    Empty(r) ||
    (s.min.x <= r.min.x && r.max.x <= s.max.x &&
     s.min.y <= r.min.y && r.max.y <= s.max.y)
  }

  ghost predicate Contains(r: Rectangle, p: Point) {
    r.min.x <= p.x < r.max.x && r.min.y <= p.y < r.max.y
  }

  /** `In` means what Go documents: every point of `r` lies in `s`, and
      conversely. */
  lemma InMeansContainment(r: Rectangle, s: Rectangle)
    ensures In(r, s) <==> (forall p :: Contains(r, p) ==> Contains(s, p))
  {
    if !Empty(r) {
      if forall p :: Contains(r, p) ==> Contains(s, p) {
        assert Contains(r, r.min);
        var corner := Point(r.max.x - 1, r.max.y - 1);
        assert Contains(r, corner);
      }
    }
  }
}
