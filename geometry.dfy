/** Integer sizes and points, and Python's `int()` applied to a float. */
module Geometry {

  /** A pixel size `(width, height)`, as PIL's `Image.size`. */
  datatype Size = Size(width: int, height: int)

  /** A pixel position `(x, y)`, as the box argument of PIL's `paste`. */
  datatype Point = Point(x: int, y: int)

  function Abs(r: real): (a: real)
    ensures a >= 0.0 && (a == r || a == -r)
  {
    if r < 0.0 then -r else r
  }

  /** Python's `int(f)` on a float: truncation toward zero (not floor). */
  function Trunc(r: real): (t: int)
    ensures 0.0 <= r ==> t as real <= r < t as real + 1.0
    ensures r < 0.0 ==> t as real - 1.0 < r <= t as real
    ensures Abs(r - t as real) < 1.0
    ensures Abs(t as real) <= Abs(r)
  {
    if r >= 0.0 then r.Floor else -((-r).Floor)
  }

  /** Truncation toward zero is symmetric: `int(-f) == -int(f)`, which floor is not. */
  lemma TruncOfNegation(r: real)
    ensures Trunc(-r) == -Trunc(r)
  {
  }
}
