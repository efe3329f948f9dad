/** Ribbon sample points of MetalDoodle/WeightedPoint.swift: the y-up wrapper,
    the weighted point with its two edge points, the process-wide id counter
    that every initializer bumps, and the two averaging combinators. */
module WeightedPoints {
  import opened Points

  /** `YUpCGPoint`: a UIKit (y-down) point together with its y-up counterpart. */
  datatype YUpPoint = YUpPoint(cgPoint: Point, point: Point)

  /** `YUpCGPoint.init(cgPoint:viewHeight:)`. The view height is accepted but
      not used: the flip negates y about the x axis, not about the view's
      middle. */
  function MakeYUp(cgPoint: Point, viewHeight: real): (r: YUpPoint)
    ensures r.cgPoint == cgPoint
    ensures r.point.x == cgPoint.x && r.point.y == -cgPoint.y
  {
    YUpPoint(cgPoint, Point(cgPoint.x, -cgPoint.y))
  }

  /** The view height has no influence on the result. */
  lemma YUpIgnoresViewHeight(cgPoint: Point, h1: real, h2: real)
    ensures MakeYUp(cgPoint, h1) == MakeYUp(cgPoint, h2)
  {
  }

  /** Flipping the flipped point gives the original point back. */
  lemma YUpFlipTwice(cgPoint: Point, h1: real, h2: real)
    ensures MakeYUp(MakeYUp(cgPoint, h1).point, h2).point == cgPoint
  {
  }

  /** The flip is an isometry: it keeps squared distances. */
  lemma YUpKeepsDistance(p: Point, q: Point, h: real)
    ensures SquaredDistance(MakeYUp(p, h).point, MakeYUp(q, h).point) == SquaredDistance(p, q)
  {
    var d, e := Sub(p, q), Sub(MakeYUp(p, h).point, MakeYUp(q, h).point);
    assert e.x == d.x && e.y == -d.y;
    NegatedSquare(d.y);
  }

  /** `WeightedPoint`: a sample `origin`, the two ribbon edge points `a` and `b`
      on either side of it, the ribbon `weight` and the id stamped at
      construction. */
  datatype WeightedPoint = WeightedPoint(origin: Point, a: Point, b: Point, weight: real, id: int)

  /** The edges are mirror images of each other about the origin. */
  predicate EdgeSymmetric(w: WeightedPoint) {
    Add(w.a, w.b) == Mul(w.origin, 2.0)
  }

  /** The offset of edge `a` from the origin before the swap rule:
      `(-relativeX, relativeY)` with `relativeX = weight/2 · cos θ` and
      `relativeY = weight/2 · sin θ`, where θ = π/2 − atan(slope) is given by
      its cosine `cosT` and sine `sinT`. */
  function EdgeOffset(weight: real, cosT: real, sinT: real): (r: Point) {
    var hypotenuse := weight / 2.0;
    Point(-(hypotenuse * cosT), hypotenuse * sinT)
  }

  /** The swap rule: the edges are exchanged when `current.distance(to: previous)`
      points left, that is when the stroke moves right. */
  predicate ShouldSwap(current: Point, previous: Point) {
    DistanceTo(current, previous).x < 0.0
  }

  /** The value `init(current:previous:weightProvider:)` builds with id `id`.
      `weight` stands for `weightProvider.weight(distance:)` of the sample
      distance, and `cosT`/`sinT` for the cosine and sine of the orthogonal
      angle; all three are left abstract. A previous point of exactly (0, 0)
      is taken as "no previous sample" and gives a degenerate point. */
  function Sampled(current: Point, previous: Point, weight: real, cosT: real, sinT: real, id: int): (w: WeightedPoint)
    ensures w.id == id
    ensures previous == Zero ==> w.weight == 0.0 && w.origin == current && w.a == current && w.b == current
    ensures previous != Zero ==> w.origin == current && w.weight == weight
    ensures EdgeSymmetric(w)
  {
    if previous == Zero then
      WeightedPoint(current, current, current, 0.0, id)
    else
      var relativeA := EdgeOffset(weight, cosT, sinT);
      var relativeB := Point(-relativeA.x, -relativeA.y);
      if ShouldSwap(current, previous) then
        WeightedPoint(current, Add(current, relativeB), Add(current, relativeA), weight, id)
      else
        WeightedPoint(current, Add(current, relativeA), Add(current, relativeB), weight, id)
  }

  /** The swap fires exactly when the stroke moves right (current.x > previous.x),
      provided the two candidate edges differ. */
  lemma SwapFiresWhenMovingRight(current: Point, previous: Point, weight: real, cosT: real, sinT: real, id: int)
    requires previous != Zero
    requires EdgeOffset(weight, cosT, sinT) != Zero
    ensures Sampled(current, previous, weight, cosT, sinT, id).a == Sub(current, EdgeOffset(weight, cosT, sinT))
            <==> current.x > previous.x
  {
    var off := EdgeOffset(weight, cosT, sinT);
    assert off.x != 0.0 || off.y != 0.0;
  }

  /** The swap only exchanges the two edges: a point built while moving right
      equals one built while not moving right with `a` and `b` exchanged, and
      origin, weight and id unchanged. */
  lemma SwapOnlyExchangesEdges(current: Point, left: Point, right: Point, weight: real, cosT: real, sinT: real, id: int)
    requires left != Zero && right != Zero
    requires left.x < current.x && right.x >= current.x
    ensures var s, u := Sampled(current, left, weight, cosT, sinT, id), Sampled(current, right, weight, cosT, sinT, id);
            s.a == u.b && s.b == u.a && s.origin == u.origin && s.weight == u.weight && s.id == u.id
  {
  }

  /** With a genuine cosine/sine pair the edges lie at half the weight from the
      origin. */
  lemma EdgesAtHalfWeight(current: Point, previous: Point, weight: real, cosT: real, sinT: real, id: int)
    requires previous != Zero
    requires cosT * cosT + sinT * sinT == 1.0
    ensures var w := Sampled(current, previous, weight, cosT, sinT, id);
            SquaredDistance(w.a, w.origin) == (weight / 2.0) * (weight / 2.0) &&
            SquaredDistance(w.b, w.origin) == (weight / 2.0) * (weight / 2.0)
  {
    var w := Sampled(current, previous, weight, cosT, sinT, id);
    var h := weight / 2.0;
    var off := EdgeOffset(weight, cosT, sinT);
    assert off.x * off.x + off.y * off.y == h * h by {
      NegatedSquare(h * cosT);
      assert (h * cosT) * (h * cosT) + (h * sinT) * (h * sinT) == h * h * (cosT * cosT + sinT * sinT);
    }
    NegatedSquare(off.x);
    NegatedSquare(off.y);
  }

  /** When θ is the orthogonal of the direction through the two samples
      (cos θ · Δx == sin θ · Δy), the edges are perpendicular to the direction
      of travel. */
  lemma EdgesPerpendicular(current: Point, previous: Point, weight: real, cosT: real, sinT: real, id: int)
    requires previous != Zero
    requires cosT * (previous.x - current.x) == sinT * (previous.y - current.y)
    ensures var w := Sampled(current, previous, weight, cosT, sinT, id);
            Dot(Sub(w.a, w.origin), Sub(previous, current)) == 0.0 &&
            Dot(Sub(w.b, w.origin), Sub(previous, current)) == 0.0
  {
    var h := weight / 2.0;
    var dx, dy := previous.x - current.x, previous.y - current.y;
    assert h * (cosT * dx) == h * (sinT * dy);
  }

  /** `average(with:)` with id `id`: componentwise midpoints of origin and
      edges, and the mean weight. */
  function Averaged(w: WeightedPoint, p: WeightedPoint, id: int): (r: WeightedPoint)
    ensures r.id == id
    ensures r.weight == (w.weight + p.weight) / 2.0
    ensures Sub(r.origin, w.origin) == Sub(p.origin, r.origin)
    ensures Sub(r.a, w.a) == Sub(p.a, r.a) && Sub(r.b, w.b) == Sub(p.b, r.b)
    ensures EdgeSymmetric(w) && EdgeSymmetric(p) ==> EdgeSymmetric(r)
  {
    WeightedPoint(Average(w.origin, p.origin), Average(w.a, p.a), Average(w.b, p.b), (w.weight + p.weight) / 2.0, id)
  }

  /** The two-way average does not depend on the order of its operands. */
  lemma AveragedSymmetric(w: WeightedPoint, p: WeightedPoint, id: int)
    ensures Averaged(w, p, id) == Averaged(p, w, id)
  {
  }

  /** The weighted combination 1/4·u + 1/4·v + 1/2·z. */
  function QuarterQuarterHalf(u: Point, v: Point, z: Point): (r: Point) {
    Add(Add(Mul(u, 0.25), Mul(v, 0.25)), Mul(z, 0.5))
  }

  /** `average(with:and:)` with id `id`: origin and edges are averaged twice
      in a row, so the first two operands count a quarter each and the last
      one half, while the weight is the plain mean of the three. */
  function Averaged3(w: WeightedPoint, p: WeightedPoint, q: WeightedPoint, id: int): (r: WeightedPoint)
    ensures r.id == id
    ensures 3.0 * r.weight == w.weight + p.weight + q.weight
    ensures r.origin == QuarterQuarterHalf(w.origin, p.origin, q.origin)
    ensures r.a == QuarterQuarterHalf(w.a, p.a, q.a) && r.b == QuarterQuarterHalf(w.b, p.b, q.b)
    ensures EdgeSymmetric(w) && EdgeSymmetric(p) && EdgeSymmetric(q) ==> EdgeSymmetric(r)
  {
    WeightedPoint(
      Average(Average(w.origin, p.origin), q.origin),
      Average(Average(w.a, p.a), q.a),
      Average(Average(w.b, p.b), q.b),
      (w.weight + p.weight + q.weight) / 3.0,
      id)
  }

  /** The three-way average is symmetric in its first two operands ... */
  lemma Averaged3SymmetricInFirstTwo(w: WeightedPoint, p: WeightedPoint, q: WeightedPoint, id: int)
    ensures Averaged3(w, p, q, id) == Averaged3(p, w, q, id)
  {
  }

  /** ... but not in its last: exchanging the last two operands keeps the
      origin only when those two operands share their origin. */
  lemma Averaged3LastCountsDouble(w: WeightedPoint, p: WeightedPoint, q: WeightedPoint, id: int)
    ensures Averaged3(w, p, q, id).origin == Averaged3(w, q, p, id).origin <==> p.origin == q.origin
  {
    var r, s := Averaged3(w, p, q, id).origin, Averaged3(w, q, p, id).origin;
    assert r.x - s.x == (q.origin.x - p.origin.x) / 4.0;
    assert r.y - s.y == (q.origin.y - p.origin.y) / 4.0;
  }

  /** The process-wide `_id` counter: the last id handed out. */
  class IdCounter {
    var last: int

    /** `var _id = 0`. */
    constructor ()
      ensures last == 0
    {
      last := 0;
    }

    /** `init(origin:a:b:weight:)`: stores its arguments and takes the next id. */
    method Memberwise(origin: Point, a: Point, b: Point, weight: real) returns (w: WeightedPoint)
      modifies this
      ensures last == old(last) + 1
      ensures w == WeightedPoint(origin, a, b, weight, last)
    {
      last := last + 1;
      w := WeightedPoint(origin, a, b, weight, last);
    }

    /** The private `init()` behind `WeightedPoint.zero`: everything zero, next id. */
    method ZeroPoint() returns (w: WeightedPoint)
      modifies this
      ensures last == old(last) + 1
      ensures w == WeightedPoint(Zero, Zero, Zero, 0.0, last)
    {
      last := last + 1;
      w := WeightedPoint(Zero, Zero, Zero, 0.0, last);
    }

    /** `init(current:previous:weightProvider:)`: takes the next id, then either
        returns the degenerate seed or builds both edge offsets and swaps them
        in place when the stroke moves right. */
    method FromSamples(current: Point, previous: Point, weight: real, cosT: real, sinT: real) returns (w: WeightedPoint)
      modifies this
      ensures last == old(last) + 1
      ensures w == Sampled(current, previous, weight, cosT, sinT, last)
    {
      last := last + 1;
      var id := last;
      if previous == Zero {
        w := WeightedPoint(current, current, current, 0.0, id);
        return;
      }
      var hypotenuse := weight / 2.0;
      var relativeX := hypotenuse * cosT;
      var relativeY := hypotenuse * sinT;
      var relativeA := Point(-relativeX, relativeY);
      var relativeB := Point(relativeX, -relativeY);
      var shouldSwap := DistanceTo(current, previous).x < 0.0;
      if shouldSwap {
        relativeA, relativeB := relativeB, relativeA;
      }
      w := WeightedPoint(current, Add(current, relativeA), Add(current, relativeB), weight, id);
    }
  }

  /** `w.average(with: p)`: the two-way average, stamped with the next id. */
  method AverageWith(ids: IdCounter, w: WeightedPoint, p: WeightedPoint) returns (r: WeightedPoint)
    modifies ids
    ensures ids.last == old(ids.last) + 1
    ensures r == Averaged(w, p, ids.last)
  {
    r := ids.Memberwise(Average(w.origin, p.origin), Average(w.a, p.a), Average(w.b, p.b), (w.weight + p.weight) / 2.0);
  }

  /** `w.average(with: p, and: q)`: the three-way average, stamped with the
      next id. */
  method AverageWith3(ids: IdCounter, w: WeightedPoint, p: WeightedPoint, q: WeightedPoint) returns (r: WeightedPoint)
    modifies ids
    ensures ids.last == old(ids.last) + 1
    ensures r == Averaged3(w, p, q, ids.last)
  {
    var origin := Average(Average(w.origin, p.origin), q.origin);
    var a := Average(Average(w.a, p.a), q.a);
    var b := Average(Average(w.b, p.b), q.b);
    var weight := (w.weight + p.weight + q.weight) / 3.0;
    r := ids.Memberwise(origin, a, b, weight);
  }

  /** Points built one after another carry strictly increasing ids. */
  method SuccessiveIdsIncrease(ids: IdCounter, current: Point, previous: Point, weight: real, cosT: real, sinT: real)
    returns (first: WeightedPoint, second: WeightedPoint)
    modifies ids
    ensures ids.last == old(ids.last) + 2
    ensures first.id == old(ids.last) + 1 && second.id == ids.last
    ensures first.id < second.id
  {
    first := ids.FromSamples(current, previous, weight, cosT, sinT);
    second := AverageWith(ids, first, first);
  }
}
