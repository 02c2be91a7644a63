/**
 * The small part of glm the model needs, over exact reals: 3- and
 * 4-component vectors, a 4x4 matrix stored by rows, dot products and
 * componentwise min/max.
 */
module LinearAlgebra {

  datatype Vec3 = Vec3(x: real, y: real, z: real)
  datatype Vec4 = Vec4(x: real, y: real, z: real, w: real)

  /** A 4x4 matrix given by its rows; `row(i)` is glm::row(m, i). */
  datatype Mat4 = Mat4(r0: Vec4, r1: Vec4, r2: Vec4, r3: Vec4)

  function Identity(): Mat4 {
    Mat4(Vec4(1.0, 0.0, 0.0, 0.0), Vec4(0.0, 1.0, 0.0, 0.0),
         Vec4(0.0, 0.0, 1.0, 0.0), Vec4(0.0, 0.0, 0.0, 1.0))
  }

  function Add3(a: Vec3, b: Vec3): Vec3 { Vec3(a.x + b.x, a.y + b.y, a.z + b.z) }
  function Sub3(a: Vec3, b: Vec3): Vec3 { Vec3(a.x - b.x, a.y - b.y, a.z - b.z) }
  function Scale3(a: Vec3, s: real): Vec3 { Vec3(a.x * s, a.y * s, a.z * s) }
  function Dot3(a: Vec3, b: Vec3): real { a.x * b.x + a.y * b.y + a.z * b.z }

  function Add4(a: Vec4, b: Vec4): Vec4 { Vec4(a.x + b.x, a.y + b.y, a.z + b.z, a.w + b.w) }
  function Sub4(a: Vec4, b: Vec4): Vec4 { Vec4(a.x - b.x, a.y - b.y, a.z - b.z, a.w - b.w) }

  /** The xyz part of a 4-vector (glm::vec3(v)). */
  function Xyz(v: Vec4): Vec3 { Vec3(v.x, v.y, v.z) }

  function Min(a: real, b: real): real { if a <= b then a else b }
  function Max(a: real, b: real): real { if a >= b then a else b }

  /** glm::min / glm::max on vec3: componentwise. */
  function Min3(a: Vec3, b: Vec3): Vec3 { Vec3(Min(a.x, b.x), Min(a.y, b.y), Min(a.z, b.z)) }
  function Max3(a: Vec3, b: Vec3): Vec3 { Vec3(Max(a.x, b.x), Max(a.y, b.y), Max(a.z, b.z)) }

  /** Componentwise a <= b. */
  predicate LessEq3(a: Vec3, b: Vec3) { a.x <= b.x && a.y <= b.y && a.z <= b.z }

  /** xyz of `m * vec4(p, 1)`: the point transform used for box corners. */
  function TransformPoint(m: Mat4, p: Vec3): Vec3 {
    Vec3(m.r0.x * p.x + m.r0.y * p.y + m.r0.z * p.z + m.r0.w,
         m.r1.x * p.x + m.r1.y * p.y + m.r1.z * p.z + m.r1.w,
         m.r2.x * p.x + m.r2.y * p.y + m.r2.z * p.z + m.r2.w)
  }
}
