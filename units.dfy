/** Lengths in PDF points, as reportlab measures them. All arithmetic is on exact reals. */
module Units {

  /** One centimetre in points: 72 points per inch, 2.54 cm per inch. */
  const Cm: real := 72.0 / 2.54

  /** The A4 page, 210 mm by 297 mm. */
  const PageWidth: real := 21.0 * Cm
  const PageHeight: real := 29.7 * Cm

  datatype Point = Point(x: real, y: real)

  /** An axis-aligned rectangle given by its lower-left corner and its size, as reportlab's rect takes it. */
  datatype Rect = Rect(x: real, y: real, w: real, h: real) {
    function Right(): real { x + w }
    function Top(): real { y + h }
    predicate Contains(p: Point) { x <= p.x <= x + w && y <= p.y <= y + h }
    predicate Within(outer: Rect) {
      outer.x <= x && x + w <= outer.x + outer.w && outer.y <= y && y + h <= outer.y + outer.h
    }
    /** The interiors of the two rectangles have a point in common. */
    predicate Overlaps(other: Rect) {
      x < other.x + other.w && other.x < x + w && y < other.y + other.h && other.y < y + h
    }
  }
}
