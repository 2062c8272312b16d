/** Value types shared by the model. Vectors, matrices and triangles are the
    rendering engine's; the model never computes with them, it only moves them
    between the engine's calls and the application's state. */
module Geometry {

  /** A pointer position in normalised device coordinates. */
  datatype Vec2 = Vec2(x: real, y: real)

  /** A point, a direction, a set of Euler angles or a per-axis scale. */
  datatype Vec3 = Vec3(x: real, y: real, z: real)

  /** An orientation as delivered by the tracker. */
  datatype Quat = Quat(x: real, y: real, z: real, w: real)

  /** A 4x4 transform, kept as the engine's sixteen elements. */
  datatype Mat4 = Mat4(elements: seq<real>)

  /** One face of a decal's clipped patch. */
  datatype Triangle = Triangle(a: Vec3, b: Vec3, c: Vec3)

  /** One ray-cast hit: the world-space point and the face normal in mesh coordinates. */
  datatype Hit = Hit(point: Vec3, faceNormal: Vec3)

  const Origin: Vec3 := Vec3(0.0, 0.0, 0.0)
}
