/** Points and vectors of the scroll plane (CGPoint) and the private operators
    the decelerator defines on them. CGFloat is modelled as `real`. */
module Geometry {

  datatype Point = Point(x: real, y: real)

  /** `CGPoint.zero`. */
  const Zero: Point := Point(0.0, 0.0)

  /** Component-wise sum, `lhs + rhs`; the zero point is its neutral element. */
  function Add(lhs: Point, rhs: Point): (r: Point)
    ensures rhs == Zero ==> r == lhs
    ensures lhs == Zero ==> r == rhs
  {
    Point(lhs.x + rhs.x, lhs.y + rhs.y)
  }

  /** Scalar multiple, `k * p`: the zero factor and the zero vector give the
      zero point, the unit factor leaves the vector as it is. */
  function Scale(k: real, p: Point): (r: Point)
    ensures k == 0.0 || p == Zero ==> r == Zero
    ensures k == 1.0 ==> r == p
  {
    Point(k * p.x, k * p.y)
  }

  /** `length != 0`. The length `sqrt(x * x + y * y)` of a vector of reals is
      zero exactly when both components are zero, so the test is stated on the
      components. */
  predicate HasLength(p: Point): (b: bool)
    ensures b <==> p != Zero
  {
    p.x != 0.0 || p.y != 0.0
  }
}
