/**
 * The small part of glm the viewer relies on: 2- and 3-component vectors
 * over the reals, and the polynomial operations (sum, difference, scaling,
 * dot and cross product), which are defined exactly.
 */
module Geometry {

  datatype Vec2 = Vec2(x: real, y: real)
  datatype Vec3 = Vec3(x: real, y: real, z: real)

  function Add(a: Vec3, b: Vec3): Vec3 {
    Vec3(a.x + b.x, a.y + b.y, a.z + b.z)
  }

  function Sub(a: Vec3, b: Vec3): Vec3 {
    Vec3(a.x - b.x, a.y - b.y, a.z - b.z)
  }

  function Scale(a: Vec3, s: real): Vec3 {
    Vec3(a.x * s, a.y * s, a.z * s)
  }

  function Dot(a: Vec3, b: Vec3): real {
    a.x * b.x + a.y * b.y + a.z * b.z
  }

  predicate Orthogonal(a: Vec3, b: Vec3) {
    Dot(a, b) == 0.0
  }

  function Cross(a: Vec3, b: Vec3): Vec3 {
    Vec3(a.y * b.z - a.z * b.y, a.z * b.x - a.x * b.z, a.x * b.y - a.y * b.x)
  }

  /** The cross product is orthogonal to both of its factors. */
  lemma {:induction false} CrossOrthogonal(a: Vec3, b: Vec3)
    ensures Orthogonal(Cross(a, b), a)
    ensures Orthogonal(Cross(a, b), b)
  {
    var c := Cross(a, b);
    assert c.x * a.x + c.y * a.y + c.z * a.z
        == (a.y * b.z) * a.x - (a.z * b.y) * a.x + (a.z * b.x) * a.y - (a.x * b.z) * a.y
           + (a.x * b.y) * a.z - (a.y * b.x) * a.z;
    assert c.x * b.x + c.y * b.y + c.z * b.z
        == (a.y * b.z) * b.x - (a.z * b.y) * b.x + (a.z * b.x) * b.y - (a.x * b.z) * b.y
           + (a.x * b.y) * b.z - (a.y * b.x) * b.z;
  }

  /** Subtracting what was added gives the original vector back. */
  lemma {:induction false} AddSubCancel(p: Vec3, d: Vec3)
    ensures Sub(Add(p, d), d) == p
    ensures Add(Sub(p, d), d) == p
    ensures Sub(Add(p, d), p) == d
  {
  }
}
