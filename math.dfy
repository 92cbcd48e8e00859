/** The interpolators the tests pass in: linear interpolation of scalars and
    three-component vectors, and the step function used for `Constant`
    interpolation. */
module Math {

  datatype Vector3 = Vector3(x: real, y: real, z: real)

  datatype Vector3i = Vector3i(x: int, y: int, z: int)

  /** Linear interpolation, `(1 - t)*a + t*b`; any `t`, so it also extrapolates. */
  function Lerp(a: real, b: real, t: real): (r: real)
    ensures t == 0.0 ==> r == a
    ensures t == 1.0 ==> r == b
    ensures a == b ==> r == a
  {
    (1.0 - t) * a + t * b
  }

  /** Component-wise linear interpolation. */
  function Lerp3(a: Vector3, b: Vector3, t: real): (r: Vector3)
    ensures t == 0.0 ==> r == a
    ensures t == 1.0 ==> r == b
  {
    Vector3(Lerp(a.x, b.x, t), Lerp(a.y, b.y, t), Lerp(a.z, b.z, t))
  }

  function Scale(v: Vector3, s: real): Vector3
  {
    Vector3(v.x * s, v.y * s, v.z * s)
  }

  /** Conversion of an integer vector to a real one. */
  function ToVector3(v: Vector3i): Vector3
  {
    Vector3(v.x as real, v.y as real, v.z as real)
  }

  /** Step interpolation: the first value for the whole segment, the second
      one from its end on. */
  function Select<T>(a: T, b: T, t: real): (r: T)
    ensures t < 1.0 ==> r == a
    ensures t >= 1.0 ==> r == b
  {
    if t < 1.0 then a else b
  }
}
