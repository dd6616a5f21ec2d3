// Value types shared by the scene and the renderer: the Qt vectors and points
// the viewer works with, with single-precision floats modelled as reals.

module Geometry {

  datatype Option<+T> = None | Some(value: T)

  /** QVector3D, with its float components taken as exact reals. */
  datatype Vec3 = Vec3(x: real, y: real, z: real)
  {
    function Plus(v: Vec3): Vec3 { Vec3(x + v.x, y + v.y, z + v.z) }
    function Minus(v: Vec3): Vec3 { Vec3(x - v.x, y - v.y, z - v.z) }
    function Times(k: real): Vec3 { Vec3(x * k, y * k, z * k) }
    function Over(k: real): Vec3 requires k != 0.0 { Vec3(x / k, y / k, z / k) }
  }

  /** QVector2D (texture coordinates). */
  datatype Vec2 = Vec2(u: real, v: real)

  /** QPoint: integer widget or screen coordinates. */
  datatype Point = Point(x: int, y: int)

  /** A default-constructed QVector3D. */
  const Zero := Vec3(0.0, 0.0, 0.0)

  /** The three axes, so that one statement can speak of every coordinate. */
  datatype Axis = X | Y | Z

  function Coord(v: Vec3, a: Axis): real
  {
    match a
    case X => v.x
    case Y => v.y
    case Z => v.z
  }
}
