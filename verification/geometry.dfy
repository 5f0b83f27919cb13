/** Exact 3D vector and 3x3 matrix algebra over the reals, standing in for
    the engine's Vector3r and Matrix3r. Rounding is not modelled. */
module Geometry {

  datatype Vec3 = Vec3(x: real, y: real, z: real)

  const Zero: Vec3 := Vec3(0.0, 0.0, 0.0)

  function Add(a: Vec3, b: Vec3): Vec3 {
    Vec3(a.x + b.x, a.y + b.y, a.z + b.z)
  }

  function Sub(a: Vec3, b: Vec3): Vec3 {
    Vec3(a.x - b.x, a.y - b.y, a.z - b.z)
  }

  function Dot(a: Vec3, b: Vec3): real {
    a.x * b.x + a.y * b.y + a.z * b.z
  }

  function Cross(a: Vec3, b: Vec3): Vec3 {
    Vec3(a.y * b.z - a.z * b.y, a.z * b.x - a.x * b.z, a.x * b.y - a.y * b.x)
  }

  /** A 3x3 matrix given by its rows. */
  datatype Mat3 = Mat3(r0: Vec3, r1: Vec3, r2: Vec3)

  const Identity: Mat3 := Mat3(Vec3(1.0, 0.0, 0.0), Vec3(0.0, 1.0, 0.0), Vec3(0.0, 0.0, 1.0))

  function Transpose(m: Mat3): Mat3 {
    Mat3(Vec3(m.r0.x, m.r1.x, m.r2.x),
         Vec3(m.r0.y, m.r1.y, m.r2.y),
         Vec3(m.r0.z, m.r1.z, m.r2.z))
  }

  function MatVec(m: Mat3, v: Vec3): Vec3 {
    Vec3(Dot(m.r0, v), Dot(m.r1, v), Dot(m.r2, v))
  }

  function MatMul(a: Mat3, b: Mat3): Mat3 {
    var bt := Transpose(b);
    Mat3(Vec3(Dot(a.r0, bt.r0), Dot(a.r0, bt.r1), Dot(a.r0, bt.r2)),
         Vec3(Dot(a.r1, bt.r0), Dot(a.r1, bt.r1), Dot(a.r1, bt.r2)),
         Vec3(Dot(a.r2, bt.r0), Dot(a.r2, bt.r1), Dot(a.r2, bt.r2)))
  }

  /** A rotation matrix: its transpose is its inverse on both sides. */
  predicate Orthonormal(r: Mat3) {
    MatMul(r, Transpose(r)) == Identity && MatMul(Transpose(r), r) == Identity
  }

  /** Applying two matrices in turn is applying their product. */
  lemma MatVecMatMul(a: Mat3, b: Mat3, v: Vec3)
    ensures MatVec(a, MatVec(b, v)) == MatVec(MatMul(a, b), v)
  {
  }

  lemma MatVecIdentity(v: Vec3)
    ensures MatVec(Identity, v) == v
  {
  }

  /** Moving the lever arm's origin: (a - b) x f == a x f - b x f. */
  lemma CrossSubLeft(a: Vec3, b: Vec3, f: Vec3)
    ensures Cross(Sub(a, b), f) == Sub(Cross(a, f), Cross(b, f))
  {
  }

  /** Cross product distributes over a difference in its second argument. */
  lemma CrossSubRight(a: Vec3, u: Vec3, w: Vec3)
    ensures Cross(a, Sub(u, w)) == Sub(Cross(a, u), Cross(a, w))
  {
  }

  /** Cross product distributes over a sum in its second argument. */
  lemma CrossAddRight(a: Vec3, f: Vec3, g: Vec3)
    ensures Cross(a, Add(f, g)) == Add(Cross(a, f), Cross(a, g))
  {
  }
}
