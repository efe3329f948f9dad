/** The CGPoint vector algebra of MetalDoodle/CGPoint+.swift, over exact reals
    in place of CGFloat. */
module Points {
  import Linear

  datatype Point = Point(x: real, y: real)

  /** `CGPoint.zero`. */
  const Zero := Point(0.0, 0.0)

  /** `p.add(q)`: componentwise sum; moving p by the offset q. Taking q back
      off gives p, and adding the zero offset changes nothing. */
  function Add(p: Point, q: Point): (r: Point)
    ensures r.x - q.x == p.x && r.y - q.y == p.y
    ensures q == Zero ==> r == p
  {
    Point(p.x + q.x, p.y + q.y)
  }

  /** `p.sub(q)`: componentwise difference; adding q back restores p. */
  function Sub(p: Point, q: Point): (r: Point)
    ensures Add(r, q) == p
  {
    Point(p.x - q.x, p.y - q.y)
  }

  /** `p.mul(v)`: scaling by v. Scaling by 1 keeps the point, by 0 gives the
      origin and by 2 gives the point added to itself; dividing back out is
      `Div`'s round trip. */
  function Mul(p: Point, v: real): (r: Point)
    ensures v == 1.0 ==> r == p
    ensures v == 0.0 ==> r == Zero
    ensures v == 2.0 ==> r == Add(p, p)
  {
    Point(p.x * v, p.y * v)
  }

  /** `p.div(v)`: scaling by 1/v; undefined for v == 0, which on CGFloat would
      produce infinities. Scaling back by v restores p. */
  function Div(p: Point, v: real): (r: Point)
    requires v != 0.0
    ensures Mul(r, v) == p
  {
    Point(p.x / v, p.y / v)
  }

  /** The quantity under the square root of `p.euclideanDistance(to: q)`: the
      sum of the squared component differences. It is never negative and is
      zero when the points coincide. */
  function SquaredDistance(p: Point, q: Point): (r: real)
    ensures r >= 0.0
    ensures p == q ==> r == 0.0
  {
    var d := Sub(p, q);
    d.x * d.x + d.y * d.y
  }

  /** `p.distance(to: q)`: not a length but the offset from p to q, i.e. "target
      minus self"; moving p by it lands on q. */
  function DistanceTo(p: Point, q: Point): (r: Point)
    ensures r == Sub(q, p)
    ensures Add(p, r) == q
  {
    Point(q.x - p.x, q.y - p.y)
  }

  /** `p.average(with: q)`: the midpoint, as far from p as q is from it. */
  function Average(p: Point, q: Point): (r: Point)
    ensures Sub(r, p) == Sub(q, r)
  {
    Point((p.x + q.x) / 2.0, (p.y + q.y) / 2.0)
  }

  /** Dot product; used to state perpendicularity. */
  function Dot(p: Point, q: Point): (r: real) {
    p.x * q.x + p.y * q.y
  }

  /** `Math.Linear.equation(through:and:)` on two CGPoints: the line through both
      points, or (0, 0) for a vertical pair. */
  function EquationThrough(p: Point, q: Point): (f: Linear.Line)
    ensures q.x == p.x ==> f == Linear.Line(0.0, 0.0)
    ensures q.x != p.x ==> Linear.OnLine(f, (p.x, p.y)) && Linear.OnLine(f, (q.x, q.y))
  {
    Linear.Equation((p.x, p.y), (q.x, q.y))
  }

  lemma EquationThroughComponents(p: Point, q: Point)
    ensures EquationThrough(p, q) == Linear.Equation((p.x, p.y), (q.x, q.y))
  {
  }

  lemma AddSubRoundTrip(p: Point, q: Point)
    ensures Sub(Add(p, q), q) == p
  {
  }

  lemma AddCommutative(p: Point, q: Point)
    ensures Add(p, q) == Add(q, p)
  {
  }

  lemma MulDivRoundTrip(p: Point, v: real)
    requires v != 0.0
    ensures Div(Mul(p, v), v) == p
  {
  }

  lemma AverageSymmetric(p: Point, q: Point)
    ensures Average(p, q) == Average(q, p)
  {
  }

  lemma AverageSelf(p: Point)
    ensures Average(p, p) == p
  {
  }

  lemma SquaredDistanceSymmetric(p: Point, q: Point)
    ensures SquaredDistance(p, q) == SquaredDistance(q, p)
  {
    var d, e := Sub(p, q), Sub(q, p);
    assert e.x == -d.x && e.y == -d.y;
    NegatedSquare(d.x);
    NegatedSquare(d.y);
  }

  /** The squared distance is zero only when the points coincide. */
  lemma SquaredDistanceZero(p: Point, q: Point)
    requires SquaredDistance(p, q) == 0.0
    ensures p == q
  {
    var d := Sub(p, q);
    SquareNonNegative(d.x);
    SquareNonNegative(d.y);
    SquareZero(d.x);
    SquareZero(d.y);
  }

  lemma SquareNonNegative(u: real)
    ensures u * u >= 0.0
  {
  }

  /** A real whose square is zero is zero. */
  lemma SquareZero(u: real)
    requires u * u == 0.0
    ensures u == 0.0
  {
    if u != 0.0 {
      MulByZeroSquare(u);
      MulDivRoundTrip(Point(u, u), u);
      assert false;
    }
  }

  lemma MulByZeroSquare(u: real)
    requires u * u == 0.0
    ensures Mul(Point(u, u), u) == Zero
  {
  }

  lemma NegatedSquare(u: real)
    ensures (-u) * (-u) == u * u
  {
  }
}
