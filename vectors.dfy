/** Plain value vectors: screen points (Vec2) and world-space offsets (Vec3). */
module Vectors {

  datatype Vec2 = Vec2(x: real, y: real)

  datatype Vec3 = Vec3(x: real, y: real, z: real)

  const Origin: Vec3 := Vec3(0.0, 0.0, 0.0)

  function Add(u: Vec3, v: Vec3): Vec3 {
    Vec3(u.x + v.x, u.y + v.y, u.z + v.z)
  }

  function Scaled(v: Vec3, k: real): Vec3 {
    Vec3(v.x * k, v.y * k, v.z * k)
  }

  /** The point halfway between two screen points. */
  function Midpoint(a: Vec2, b: Vec2): Vec2 {
    Vec2(0.5 * (a.x + b.x), 0.5 * (a.y + b.y))
  }
}
