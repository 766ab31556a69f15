/**
 * Vectors and the JavaScript numbers the hand-geometry code computes with.
 *
 * Numbers are exact reals. A division by zero, which in IEEE arithmetic yields
 * NaN or an infinity, is not given a value here: it becomes `Degenerate`, and
 * every operation applied to a degenerate operand stays degenerate.
 */
module Geometry {

  /** A point or displacement with the three coordinates the tracking data carries. */
  datatype Vec3 = Vec3(x: real, y: real, z: real)

  const Origin: Vec3 := Vec3(0.0, 0.0, 0.0)

  /** The index into a position array: 0, 1 or 2. */
  datatype Axis = X | Y | Z

  function Coord(v: Vec3, a: Axis): real
  {
    match a
    case X => v.x
    case Y => v.y
    case Z => v.z
  }

  /** A JavaScript number as far as this model determines it. */
  datatype Number = Finite(value: real) | Degenerate

  function Div(a: Number, b: Number): (r: Number)
    ensures r.Finite? <==> a.Finite? && b.Finite? && b.value != 0.0
  {
    if a.Finite? && b.Finite? && b.value != 0.0 then Finite(a.value / b.value) else Degenerate
  }

  function Add(a: Number, b: Number): (r: Number)
    ensures r.Finite? <==> a.Finite? && b.Finite?
  {
    if a.Finite? && b.Finite? then Finite(a.value + b.value) else Degenerate
  }

  function Neg(a: Number): (r: Number)
    ensures r.Finite? <==> a.Finite?
  {
    if a.Finite? then Finite(-a.value) else Degenerate
  }

  /** `Math.atan` applied to a number; `atan` is the real arctangent, left abstract. */
  function Atan(atan: real -> real, a: Number): (r: Number)
    ensures r.Finite? <==> a.Finite?
  {
    if a.Finite? then Finite(atan(a.value)) else Degenerate
  }
}
