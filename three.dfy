/** The Three.js value types the core reads and writes (Vector3, Euler, Color)
    and the MathUtils helpers it calls, over exact reals. */
module Three {

  /** THREE.Vector3, and THREE.Euler read as its (x, y, z) angles. */
  datatype Vec3 = Vec3(x: real, y: real, z: real)

  /** THREE.Color with components in Three's 0..1 range. */
  datatype Color = Color(r: real, g: real, b: real)

  const Origin := Vec3(0.0, 0.0, 0.0)
  const White := Color(1.0, 1.0, 1.0)
  const Black := Color(0.0, 0.0, 0.0)

  function Abs(v: real): (r: real)
    ensures r >= 0.0 && (r == v || r == -v)
  {
    if v < 0.0 then -v else v
  }

  function Max(a: real, b: real): (r: real)
    ensures r >= a && r >= b && (r == a || r == b)
  {
    if a >= b then a else b
  }

  /** THREE.MathUtils.clamp(v, lo, hi), written in Three as Math.max(lo, Math.min(hi, v)). */
  function Clamp(v: real, lo: real, hi: real): (r: real)
    requires lo <= hi
    ensures lo <= r <= hi
    ensures lo <= v <= hi ==> r == v
    ensures v < lo ==> r == lo
    ensures v > hi ==> r == hi
  {
    if v < lo then lo else if v > hi then hi else v
  }

  /** Linear interpolation a + (b - a) * t (Vector3.lerp per component; MathUtils.lerp,
      written (1 - t) * a + t * b, is the same value over the reals). */
  function Lerp(a: real, b: real, t: real): (r: real)
    ensures r - b == (1.0 - t) * (a - b)
  {
    a + (b - a) * t
  }

  /** Vector3.lerp(target, t) applied to v. */
  function LerpVec(v: Vec3, target: Vec3, t: real): (r: Vec3)
    ensures r.x - target.x == (1.0 - t) * (v.x - target.x)
    ensures r.y - target.y == (1.0 - t) * (v.y - target.y)
    ensures r.z - target.z == (1.0 - t) * (v.z - target.z)
  {
    Vec3(Lerp(v.x, target.x, t), Lerp(v.y, target.y, t), Lerp(v.z, target.z, t))
  }

  /** Color.multiplyScalar(s) on a copy of c. */
  function ScaleColor(c: Color, s: real): Color
  {
    Color(c.r * s, c.g * s, c.b * s)
  }
}
