/** Exact-real stand-ins for the WPF value types the rig works with:
    `Vector3D` (a reading or a filtered vector) and `Point` (a pixel location). */
module Vectors {

  /** A value, or none: a read that timed out, a key that changes nothing. */
  datatype Option<T> = None | Some(value: T)

  datatype Vec3 = Vec3(x: real, y: real, z: real)

  datatype Point = Point(x: real, y: real)

  /** The three axes, so that per-axis facts can be stated once. */
  datatype Axis = X | Y | Z

  const Zero: Vec3 := Vec3(0.0, 0.0, 0.0)

  function Coord(v: Vec3, a: Axis): real
  {
    match a
    case X => v.x
    case Y => v.y
    case Z => v.z
  }

  /** Component-wise difference, `Vector3D - Vector3D`. */
  function Sub(a: Vec3, b: Vec3): Vec3
  {
    Vec3(a.x - b.x, a.y - b.y, a.z - b.z)
  }

  function LengthSquared(v: Vec3): real
  {
    v.x * v.x + v.y * v.y + v.z * v.z
  }

  function DistanceSquared(p: Point, q: Point): real
  {
    (p.x - q.x) * (p.x - q.x) + (p.y - q.y) * (p.y - q.y)
  }
}
