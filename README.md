# MetalDoodle core in Dafny

MetalDoodle is a small iOS drawing app. For every touch sample it builds a "weighted point": the sample plus two ribbon edge points on either side of it, spaced by a pen weight. This project models the arithmetic under that drawing surface, and the one stateful container the app has:

- `Linear` (`Linear.dfy`) covers the `Math.Linear` helpers on `(x, y)` tuples. It models the line through two points, the orthogonal line and the slope of a line.
- `Points` (`Points.dfy`) covers the `CGPoint` extension: `add`, `sub`, `mul`, `div`, the offset `distance(to:)`, the midpoint `average(with:)`, the quantity under the square root of `euclideanDistance`, and the `CGPoint` overload of `equation(through:and:)`.
- `WeightedPoints` (`WeightedPoint.dfy`) covers the following:
  - the y-up wrapper `YUpCGPoint`;
  - the `WeightedPoint` value and its three initializers, including the degenerate guard and the edge construction with its swap rule;
  - the two- and three-way averages;
  - the process-wide `_id` counter that every initializer bumps. It is modelled as a class `IdCounter` whose methods are the initializers.
- `RingBuffers` (`RingBuffer.dfy`) covers `RingBuffer<T>`: a class over an `array` of optional slots with a signed index. It has in-place `Enqueue`, `Dequeue` and `Clear`. Each method is specified against the pure state functions `Enqueued`, `Dequeued` and `Cleared`, and the lemmas about the buffer's behaviour are proved on those functions.

`CGFloat` is modelled as exact `real`. Swift's `Int` is modelled as `int`, with the 64-bit bounds stated where an operation could trap. Swift's `%` truncates toward zero and is written out as `SwiftRem`. Dafny's own `%` is Euclidean.

## Notes on the code

- A previous point of exactly (0, 0) stands for "no previous sample" (MetalDoodle/WeightedPoint.swift:122); there is no separate "first sample" case.
- The edge points come from a cosine/sine construction on π/2 − atan(slope) (MetalDoodle/WeightedPoint.swift:131-141), followed by a swap of the two edges decided by the sign of Δx (lines 143-157).
- The ring buffer is not a FIFO: `enqueue` writes the slot after the index and `dequeue` reads the slot before it (MetalDoodle/RingBuffer.swift:23, 30).

## Model

| member | source | states |
|---|---|---|
| Linear.Equation | MetalDoodle/Math.swift:14-30 | a vertical pair (equal x) yields (0, 0); otherwise both points lie on the returned line |
| Linear.EquationUnique | MetalDoodle/Math.swift:26-29 | for distinct x, any line through both points is the returned one |
| Linear.EquationSymmetric | MetalDoodle/Math.swift:14-30 | swapping the two points gives the same line |
| Linear.EquationHorizontal | MetalDoodle/Math.swift:26-29 | two points at the same height and different x give slope 0 and intercept equal to that height |
| Linear.OrthogonalEquation | MetalDoodle/Math.swift:32-47 | the intercept is kept; slope 0 stays 0; otherwise the new slope times the old is −1 |
| Linear.OrthogonalTwice | MetalDoodle/Math.swift:32-47 | taking the orthogonal twice returns the original line |
| Linear.SlopeOf | MetalDoodle/Math.swift:56-60 | the returned slope is the rise of the line per unit of run: from any point on the line, one step right and that much up stays on it |
| Linear.SlopeOfEquation | MetalDoodle/Math.swift:56-60 | `slope(of:)` of the line through two points with distinct x, times the run, is the rise |
| Points.Add | MetalDoodle/CGPoint+.swift:12-17 | taking q back off p + q gives p, componentwise; adding the zero point changes nothing |
| Points.Sub | MetalDoodle/CGPoint+.swift:19-24 | adding q back to p − q gives p |
| Points.AddSubRoundTrip | MetalDoodle/CGPoint+.swift:12-24 | (p + q) − q == p |
| Points.AddCommutative | MetalDoodle/CGPoint+.swift:12-17 | p + q == q + p |
| Points.Mul | MetalDoodle/CGPoint+.swift:26-31 | scaling by 1 keeps the point, by 0 gives the origin, by 2 gives p + p |
| Points.Div | MetalDoodle/CGPoint+.swift:33-38 | for a non-zero divisor, scaling the quotient back gives the point |
| Points.MulDivRoundTrip | MetalDoodle/CGPoint+.swift:26-38 | for v ≠ 0, p·v / v == p |
| Points.SquaredDistance | MetalDoodle/CGPoint+.swift:40-42 | the sum of squared differences is non-negative and is zero for coinciding points (the converse is `SquaredDistanceZero`) |
| Points.SquaredDistanceZero | MetalDoodle/CGPoint+.swift:40-42 | the squared distance is zero only when the two points coincide |
| Points.SquaredDistanceSymmetric | MetalDoodle/CGPoint+.swift:40-42 | the squared distance does not depend on the order of the points |
| Points.DistanceTo | MetalDoodle/CGPoint+.swift:44-49 | `distance(to:)` is the offset q − p ("target minus self"), and moving p by it lands on q |
| Points.Average | MetalDoodle/CGPoint+.swift:51-56 | the midpoint is as far from p as q is from it |
| Points.AverageSymmetric | MetalDoodle/CGPoint+.swift:51-56 | the midpoint does not depend on the order of the points |
| Points.AverageSelf | MetalDoodle/CGPoint+.swift:51-56 | the midpoint of a point with itself is that point |
| Points.EquationThrough | MetalDoodle/CGPoint+.swift:60-65 | a vertical pair yields (0, 0); otherwise both points lie on the returned line |
| Points.EquationThroughComponents | MetalDoodle/CGPoint+.swift:60-65 | the `CGPoint` overload is the tuple overload on the components |
| WeightedPoints.MakeYUp | MetalDoodle/WeightedPoint.swift:19-22 | `cgPoint` is stored unchanged and `point` is (x, −y) |
| WeightedPoints.YUpIgnoresViewHeight | MetalDoodle/WeightedPoint.swift:19-22 | the view height has no effect |
| WeightedPoints.YUpFlipTwice | MetalDoodle/WeightedPoint.swift:19-22 | flipping twice gives the original point |
| WeightedPoints.YUpKeepsDistance | MetalDoodle/WeightedPoint.swift:19-22 | the flip keeps squared distances |
| WeightedPoints.Sampled | MetalDoodle/WeightedPoint.swift:113-162 | carries the given id. A previous point of (0, 0) gives weight 0 with origin, a and b all equal to the current point. Otherwise origin is the current point and the weight is the provided one. The edges are always mirror images about the origin |
| WeightedPoints.SwapFiresWhenMovingRight | MetalDoodle/WeightedPoint.swift:140-161 | when the two candidate edges differ, `a` is the swapped edge exactly when current.x > previous.x |
| WeightedPoints.SwapOnlyExchangesEdges | MetalDoodle/WeightedPoint.swift:143-161 | the swap exchanges a and b and leaves origin, weight and id unchanged |
| WeightedPoints.EdgesAtHalfWeight | MetalDoodle/WeightedPoint.swift:136-141 | for a genuine cosine/sine pair, both edges lie at half the weight from the origin |
| WeightedPoints.EdgesPerpendicular | MetalDoodle/WeightedPoint.swift:131-141 | when the angle is orthogonal to the direction of travel, both edge offsets are perpendicular to it |
| WeightedPoints.IdCounter.constructor | MetalDoodle/WeightedPoint.swift:65 | the counter starts at 0, so the first id handed out is 1 |
| WeightedPoints.IdCounter.Memberwise | MetalDoodle/WeightedPoint.swift:164-177 | stores its arguments, bumps the counter by one and stamps the new value |
| WeightedPoints.IdCounter.ZeroPoint | MetalDoodle/WeightedPoint.swift:179-187 | everything zero, counter bumped by one, new value stamped |
| WeightedPoints.IdCounter.FromSamples | MetalDoodle/WeightedPoint.swift:113-162 | the in-place construction, including the swap of the two edge variables, equals `Sampled` with the next id, and bumps the counter by one |
| WeightedPoints.Averaged | MetalDoodle/WeightedPoint.swift:208-221 | componentwise midpoints of origin, a and b; the mean weight; mirror symmetry of edges is preserved |
| WeightedPoints.AveragedSymmetric | MetalDoodle/WeightedPoint.swift:208-221 | the two-way average does not depend on operand order |
| WeightedPoints.Averaged3 | MetalDoodle/WeightedPoint.swift:192-206 | the weight is the mean of the three; origin, a and b are weighted ¼, ¼, ½; mirror symmetry of edges is preserved |
| WeightedPoints.Averaged3SymmetricInFirstTwo | MetalDoodle/WeightedPoint.swift:194-197 | exchanging the first two operands does not change the result |
| WeightedPoints.Averaged3LastCountsDouble | MetalDoodle/WeightedPoint.swift:194-197 | exchanging the last two operands keeps the origin if and only if they share their origin |
| WeightedPoints.AverageWith | MetalDoodle/WeightedPoint.swift:208-221 | the result is `Averaged` stamped with the next id; the counter grows by one |
| WeightedPoints.AverageWith3 | MetalDoodle/WeightedPoint.swift:192-206 | the result is `Averaged3` stamped with the next id; the counter grows by one |
| WeightedPoints.SuccessiveIdsIncrease | MetalDoodle/WeightedPoint.swift:65 | two points built one after the other get consecutive, strictly increasing ids |
| RingBuffers.SwiftRem | MetalDoodle/RingBuffer.swift:23 | Swift's remainder: dividend = truncated quotient · divisor + remainder, with \|remainder\| below the divisor and the dividend's sign |
| RingBuffers.SwiftRemNonNegative | MetalDoodle/RingBuffer.swift:23 | on a non-negative dividend Swift's remainder is the Euclidean one |
| RingBuffers.SwiftRemNegative | MetalDoodle/RingBuffer.swift:30 | on a negative dividend that is not a multiple of the divisor, the remainder is negative, an invalid index |
| RingBuffers.EnqueueSlot | MetalDoodle/RingBuffer.swift:23 | when index + 1 ≥ 0 the slot is in [0, count) and is (index + 1) mod count |
| RingBuffers.DequeueSlot | MetalDoodle/RingBuffer.swift:30 | when index + count − 1 ≥ 0 the slot is in [0, count) and is (index − 1) mod count |
| RingBuffers.Fresh | MetalDoodle/RingBuffer.swift:17-20 | `count` slots, all nil, index 0 |
| RingBuffers.CanEnqueue | MetalDoodle/RingBuffer.swift:22-26 | enqueue does not trap: count > 0, index + 1 does not overflow, and the subscript (index + 1) % count lies in [0, count) |
| RingBuffers.CanDequeue | MetalDoodle/RingBuffer.swift:28-35 | dequeue does not trap: count > 0, neither index + count nor index − 1 overflows, and the subscript (index + count − 1) % count lies in [0, count) |
| RingBuffers.Enqueued | MetalDoodle/RingBuffer.swift:22-26 | the value is in slot (index + 1) % count; other slots and the size are unchanged; the index grows by one |
| RingBuffers.Dequeued | MetalDoodle/RingBuffer.swift:28-35 | returns the old content of slot (index + count − 1) % count and empties it; other slots and the size are unchanged; the index shrinks by one |
| RingBuffers.Cleared | MetalDoodle/RingBuffer.swift:37-41 | a fresh buffer of the same size |
| RingBuffers.DequeueAfterEnqueue | MetalDoodle/RingBuffer.swift:22-34 | with one slot, the dequeue returns the value just enqueued. With more slots it returns the old content of slot index mod count, and the enqueued value stays in its different slot |
| RingBuffers.NegativeIndexBlocksDequeue | MetalDoodle/RingBuffer.swift:22-34 | with more than one slot and index + 1 < 0, an enqueue that does not trap is followed by a dequeue that would read a negative slot and trap |
| RingBuffers.ConsecutiveSlotsDiffer | MetalDoodle/RingBuffer.swift:23-30 | consecutive indices map to different slots when count > 1 |
| RingBuffers.DequeueEmpty | MetalDoodle/RingBuffer.swift:28-35 | on an all-nil buffer, dequeue returns nil and keeps the slots, but still decrements the index |
| RingBuffers.SecondDequeueBlocksEnqueue | MetalDoodle/RingBuffer.swift:22-35 | on a fresh buffer of two or more slots two dequeues are fine, but the following enqueue would index slot −1 and trap |
| RingBuffers.RunKeepsCount | MetalDoodle/RingBuffer.swift:15-41 | any sequence of enqueue, dequeue and clear calls that does not trap leaves the buffer with its original number of slots |
| RingBuffers.RunMovesIndex | MetalDoodle/RingBuffer.swift:22-35 | without a clear, a sequence of calls that does not trap moves the index by the number of enqueues minus the number of dequeues |
| RingBuffers.RingBuffer.constructor | MetalDoodle/RingBuffer.swift:17-20 | the array has `count` nil slots, the index is 0 |
| RingBuffers.RingBuffer.Enqueue | MetalDoodle/RingBuffer.swift:22-26 | the new state is `Enqueued` of the old one; the array stays the same object with `count` slots |
| RingBuffers.RingBuffer.Dequeue | MetalDoodle/RingBuffer.swift:28-35 | the new state and the returned value are `Dequeued` of the old state |
| RingBuffers.RingBuffer.Clear | MetalDoodle/RingBuffer.swift:37-41 | a new array of `count` nil slots and index 0 |

## Left out

- The SwiftUI/UIKit views (`DoodleView`, `ContentView`), touch handling and path rendering: user-interface plumbing, not part of this model.
- `WeightProvider.weight(distance:)` (atan-based gain) and `SimpleWeightProvider`: transcendental functions. The weight enters `Sampled` and `FromSamples` as an abstract real.
- The cosine and sine of π/2 − atan(slope) in the weighted-point initializer: transcendental. They enter as abstract reals `cosT` and `sinT`, and the lemmas that need them to be a genuine pair say so in their preconditions.
- `Math.Linear.slope(through:and:)` and its `CGPoint` overload: atan, and IEEE ±∞ for vertical pairs.
- `Math.Linear.trigonometricRatio(from:)`: tan.
- The square root of `euclideanDistance`: only the quantity under it is modelled.
- `Math.NonLinear.splineInterpolation`: an unfinished stub with fixed points that produces no result.
- IEEE NaN, infinities and rounding of `CGFloat`: reals are exact. Division by zero is a precondition of `Points.Div` and a guarded branch in `Linear.Equation` and `Linear.OrthogonalEquation`. The atan division of the weighted-point initializer is not guarded; see the next line.
- WeightedPoints.Sampled: a repeated sample (previous == current, not (0, 0)) makes `slope(through:and:)` compute atan(0/0) (MetalDoodle/Math.swift:53, called at MetalDoodle/WeightedPoint.swift:132), so in the source `relativeX`, `relativeY`, `a` and `b` are NaN and `a + b == 2·origin` fails. The model's `cosT`/`sinT` are reals for every input, so `Sampled`'s edge symmetry and the edge lemmas (`EdgesAtHalfWeight`, `EdgesPerpendicular`, the swap lemmas) do not cover this input.
- The commented-out earlier version of the weighted-point initializer: dead code.
- `WeightedPoint.zero` is a lazily initialised `static let` that takes one id the first time it is touched: the model offers `IdCounter.ZeroPoint` as the initializer, but not the once-only caching.
- `_id` overflow: the counter is an unbounded `int`, so the trap after 2^63 − 1 points is not modelled.
- `RingBuffer` traps (negative count, remainder by zero with count 0, out-of-range subscripts, `Int` overflow of the index) are preconditions of the model's operations (`CanEnqueue`, `CanDequeue`), not modelled failures.
- The unused expression `self.count` at the end of `clear()` has no effect and is not modelled.
