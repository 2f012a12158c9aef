/** Vector and matrix values used by the camera and the resource descriptors.

    DirectXMath's XMFLOAT3, XMFLOAT4 and XMFLOAT4X4 become records of exact reals:
    float32 rounding is not modelled. The library routines whose results depend on
    floating-point numerics (normalisation, square roots, trigonometry and the
    matrix builders) are not given definitions here; a `Numerics` value carries them
    as opaque total functions, so every statement about the camera holds for every
    choice of those routines. */
module Geometry {

  datatype Vec3 = Vec3(x: real, y: real, z: real)

  datatype Vec4 = Vec4(x: real, y: real, z: real, w: real)

  /** Row-major 4x4 matrix: `r0` is the row `_11 _12 _13 _14`. */
  datatype Mat4 = Mat4(r0: Vec4, r1: Vec4, r2: Vec4, r3: Vec4)

  function Add(a: Vec3, b: Vec3): Vec3 {
    Vec3(a.x + b.x, a.y + b.y, a.z + b.z)
  }

  function Sub(a: Vec3, b: Vec3): Vec3 {
    Vec3(a.x - b.x, a.y - b.y, a.z - b.z)
  }

  function Scale(s: real, v: Vec3): Vec3 {
    Vec3(s * v.x, s * v.y, s * v.z)
  }

  function Dot(a: Vec3, b: Vec3): real {
    a.x * b.x + a.y * b.y + a.z * b.z
  }

  /** XMVector3Cross. */
  function Cross(a: Vec3, b: Vec3): (c: Vec3)
    ensures Dot(c, a) == 0.0 && Dot(c, b) == 0.0
  {
    Vec3(a.y * b.z - a.z * b.y, a.z * b.x - a.x * b.z, a.x * b.y - a.y * b.x)
  }

  /** Component `i` of a 3-vector (0 = x, 1 = y, 2 = z). */
  function Comp3(v: Vec3, i: nat): real
    requires i < 3
  {
    if i == 0 then v.x else if i == 1 then v.y else v.z
  }

  /** Component `j` of a 4-vector. */
  function Comp4(v: Vec4, j: nat): real
    requires j < 4
  {
    if j == 0 then v.x else if j == 1 then v.y else if j == 2 then v.z else v.w
  }

  function Row(m: Mat4, i: nat): Vec4
    requires i < 4
  {
    if i == 0 then m.r0 else if i == 1 then m.r1 else if i == 2 then m.r2 else m.r3
  }

  /** The element `m(i, j)`, that is `_{i+1}{j+1}`. */
  function At(m: Mat4, i: nat, j: nat): real
    requires i < 4 && j < 4
  {
    Comp4(Row(m, i), j)
  }

  /** The first three rows of column `j`, as the camera reads a basis vector back out of a view matrix. */
  function Column3(m: Mat4, j: nat): (c: Vec3)
    requires j < 4
    ensures forall i :: 0 <= i < 3 ==> Comp3(c, i) == At(m, i, j)
  {
    Vec3(At(m, 0, j), At(m, 1, j), At(m, 2, j))
  }

  function XYZ(v: Vec4): Vec3 {
    Vec3(v.x, v.y, v.z)
  }

  /** XMVector3TransformNormal: the row vector (v, 0) times `m`, keeping x, y and z. A
      direction is rotated and scaled like a point, but the translation row is not applied. */
  function TransformNormal(v: Vec3, m: Mat4): (n: Vec3)
    ensures Add(n, XYZ(m.r3)) == XYZ(TransformPoint(v, m))
  {
    Add(Add(Scale(v.x, XYZ(m.r0)), Scale(v.y, XYZ(m.r1))), Scale(v.z, XYZ(m.r2)))
  }

  /** The row vector (p, 1) times `m`: how a view matrix maps a world-space point. */
  function TransformPoint(p: Vec3, m: Mat4): Vec4 {
    Vec4(p.x * m.r0.x + p.y * m.r1.x + p.z * m.r2.x + m.r3.x,
         p.x * m.r0.y + p.y * m.r1.y + p.z * m.r2.y + m.r3.y,
         p.x * m.r0.z + p.y * m.r1.z + p.z * m.r2.z + m.r3.z,
         p.x * m.r0.w + p.y * m.r1.w + p.z * m.r2.w + m.r3.w)
  }

  /** MathHelper::Identity4x4. */
  const Identity4x4: Mat4 :=
    Mat4(Vec4(1.0, 0.0, 0.0, 0.0), Vec4(0.0, 1.0, 0.0, 0.0),
         Vec4(0.0, 0.0, 1.0, 0.0), Vec4(0.0, 0.0, 0.0, 1.0))

  /** The floating-point routines of DirectXMath and the C runtime that the camera calls,
      left uninterpreted. */
  datatype Numerics = Numerics(
    normalize: Vec3 -> Vec3,                            // XMVector3Normalize
    length: Vec3 -> real,                               // XMVector3Length
    tan: real -> real,                                  // tanf
    sin: real -> real,                                  // sinf
    cos: real -> real,                                  // cosf
    atan: real -> real,                                 // atan
    modAngle: real -> real,                             // XMScalarModAngle
    rotationAxis: (Vec3, real) -> Mat4,                 // XMMatrixRotationAxis
    rotationY: real -> Mat4,                            // XMMatrixRotationY
    perspectiveFovLH: (real, real, real, real) -> Mat4, // XMMatrixPerspectiveFovLH
    lookAtLH: (Vec3, Vec3, Vec3) -> Mat4                // XMMatrixLookAtLH
  )
}
