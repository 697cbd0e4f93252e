/** Three-component vectors over the reals, standing in for THREE.Vector3.
    JavaScript numbers are modelled as mathematical reals (no rounding). */
module Vectors {

  datatype Vec3 = Vec3(x: real, y: real, z: real)

  const Zero: Vec3 := Vec3(0.0, 0.0, 0.0)

  /** `a.add(b)` */
  function Add(a: Vec3, b: Vec3): Vec3 {
    Vec3(a.x + b.x, a.y + b.y, a.z + b.z)
  }

  /** `a.clone().sub(b)` */
  function Sub(a: Vec3, b: Vec3): Vec3 {
    Vec3(a.x - b.x, a.y - b.y, a.z - b.z)
  }

  /** `a.multiplyScalar(k)` */
  function Scale(a: Vec3, k: real): Vec3 {
    Vec3(a.x * k, a.y * k, a.z * k)
  }

  function Dot(a: Vec3, b: Vec3): real {
    a.x * b.x + a.y * b.y + a.z * b.z
  }

  /** `a.normalize()` given `len`, the vector's length: Three.js divides by
      `length || 1`, so the zero vector stays zero. The length itself (a square
      root) is supplied by the caller. */
  function Normalize(a: Vec3, len: real): (r: Vec3)
    ensures len == 0.0 ==> r == a
    ensures len != 0.0 ==> Scale(r, len) == a
  {
    if len == 0.0 then a else Scale(a, 1.0 / len)
  }
}
