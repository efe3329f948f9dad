/** Straight-line helpers of the drawing code (the `Math.Linear` namespace of
    MetalDoodle/Math.swift), over exact reals in place of CGFloat. */
module Linear {

  /** A coordinate pair: the `(x:, y:)` tuple the Swift helpers take. */
  type Coord = (real, real)

  /** The line y = a·x + b: the `(a:, b:)` tuple the Swift helpers return. */
  datatype Line = Line(a: real, b: real)

  /** The point c lies on the line f. */
  predicate OnLine(f: Line, c: Coord) {
    f.a * c.0 + f.b == c.1
  }

  /** `equation(through:and:)`: slope and intercept of the line through p and q.
      A vertical pair (same x) has no such line and yields (0, 0). */
  function Equation(p: Coord, q: Coord): (f: Line)
    ensures q.0 == p.0 ==> f == Line(0.0, 0.0)
    ensures q.0 != p.0 ==> OnLine(f, p) && OnLine(f, q)
  {
    if q.0 - p.0 == 0.0 then
      Line(0.0, 0.0)
    else
      Line((q.1 - p.1) / (q.0 - p.0), (q.0 * p.1 - p.0 * q.1) / (q.0 - p.0))
  }

  /** Two distinct x coordinates determine the line: any line through both
      points is the one `Equation` returns. */
  lemma EquationUnique(p: Coord, q: Coord, f: Line)
    requires q.0 != p.0
    requires OnLine(f, p) && OnLine(f, q)
    ensures Equation(p, q) == f
  {
    var g := Equation(p, q);
    var dx := q.0 - p.0;
    // Both slopes times the run give the rise.
    assert f.a * dx == q.1 - p.1;
    assert g.a * dx == q.1 - p.1;
    assert (f.a - g.a) * dx == 0.0;
    assert f.a == g.a;
  }

  /** The order of the two points does not matter. */
  lemma EquationSymmetric(p: Coord, q: Coord)
    ensures Equation(p, q) == Equation(q, p)
  {
    if q.0 != p.0 {
      EquationUnique(p, q, Equation(q, p));
    }
  }

  /** Two points at the same height give the horizontal line through them. */
  lemma EquationHorizontal(p: Coord, q: Coord)
    requires p.1 == q.1 && p.0 != q.0
    ensures Equation(p, q) == Line(0.0, p.1)
  {
    EquationUnique(p, q, Line(0.0, p.1));
  }

  /** `orthogonalEquation(to:)`: the perpendicular slope, keeping the intercept.
      A horizontal line yields slope 0 with the same intercept. */
  function OrthogonalEquation(f: Line): (g: Line)
    ensures g.b == f.b
    ensures f.a == 0.0 ==> g.a == 0.0
    ensures f.a != 0.0 ==> g.a * f.a == -1.0
  {
    if f.a == 0.0 then Line(0.0, f.b) else Line(-1.0 / f.a, f.b)
  }

  /** Taking the orthogonal twice gives the line back. */
  lemma OrthogonalTwice(f: Line)
    ensures OrthogonalEquation(OrthogonalEquation(f)) == f
  {
  }

  /** `slope(of:)`: the slope component of a line, the rise of the line per
      unit of run. */
  function SlopeOf(f: Line): (r: real)
    ensures forall c: Coord :: OnLine(f, c) ==> OnLine(f, (c.0 + 1.0, c.1 + r))
  {
    f.a
  }

  /** The slope of the line through two points is rise over run. */
  lemma SlopeOfEquation(p: Coord, q: Coord)
    requires q.0 != p.0
    ensures SlopeOf(Equation(p, q)) * (q.0 - p.0) == q.1 - p.1
  {
  }
}
