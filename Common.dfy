/** Small value types shared by every component: the optional handle
    (a COM pointer that may be null) and the float vectors of DirectXMath,
    with reals standing in for floats. */
module Common {

  /** A handle that may be null. */
  datatype Option<T> = None | Some(value: T)

  datatype Vec2 = Vec2(x: real, y: real)

  datatype Vec3 = Vec3(x: real, y: real, z: real)

  /** An RGBA colour, as the four floats passed to a clear call. */
  datatype Color = Color(r: real, g: real, b: real, a: real)

  const Zero3 := Vec3(0.0, 0.0, 0.0)

  /** A value of `(float)rand() / RAND_MAX`. */
  predicate UnitInterval(u: real) {
    0.0 <= u <= 1.0
  }

  /** `b` lies between `lo` and `hi`, whichever of the two is smaller. */
  predicate Within(b: real, lo: real, hi: real) {
    (lo <= b <= hi) || (hi <= b <= lo)
  }

  function Min(a: int, b: int): int {
    if a <= b then a else b
  }

  function Max(a: int, b: int): int {
    if a >= b then a else b
  }
}
