/**
  Exact real-valued stand-ins for the engine's Vector3 and Quaternion
  operations that the throw estimator uses.
*/
module Vectors {

  /** A 3D vector; the engine's single-precision components become reals. */
  datatype Vec3 = Vec3(x: real, y: real, z: real)

  const Zero: Vec3 := Vec3(0.0, 0.0, 0.0)

  function Add(a: Vec3, b: Vec3): Vec3 {
    Vec3(a.x + b.x, a.y + b.y, a.z + b.z)
  }

  function Sub(a: Vec3, b: Vec3): Vec3 {
    Vec3(a.x - b.x, a.y - b.y, a.z - b.z)
  }

  /** `v * k` */
  function Scale(v: Vec3, k: real): Vec3 {
    Vec3(v.x * k, v.y * k, v.z * k)
  }

  /** `v / d`, component by component. */
  function Div(v: Vec3, d: real): Vec3
    requires d != 0.0
  {
    Vec3(v.x / d, v.y / d, v.z / d)
  }

  /** Right-handed cross product `a × b`. */
  function Cross(a: Vec3, b: Vec3): Vec3 {
    Vec3(a.y * b.z - a.z * b.y, a.z * b.x - a.x * b.z, a.x * b.y - a.y * b.x)
  }

  /** The engine clamps the interpolation parameter to [0, 1]. */
  function Clamp01(t: real): (r: real)
    ensures 0.0 <= r <= 1.0
    ensures 0.0 <= t <= 1.0 ==> r == t
    ensures t < 0.0 ==> r == 0.0
    ensures 1.0 < t ==> r == 1.0
  {
    if t < 0.0 then 0.0 else if t > 1.0 then 1.0 else t
  }

  lemma AddZero(v: Vec3)
    ensures Add(v, Zero) == v
  {
  }

  /** Clamped linear interpolation `a + (b - a) * Clamp01(t)`. */
  function Lerp(a: Vec3, b: Vec3, t: real): Vec3 {
    Add(a, Scale(Sub(b, a), Clamp01(t)))
  }

  /** Interpolating from `a` towards `a + d` adds the clamped fraction of `d`. */
  lemma LerpTowardsOffset(a: Vec3, d: Vec3, t: real)
    ensures Lerp(a, Add(a, d), t) == Add(a, Scale(d, Clamp01(t)))
    ensures t <= 0.0 ==> Lerp(a, Add(a, d), t) == a
    ensures 1.0 <= t ==> Lerp(a, Add(a, d), t) == Add(a, d)
  {
    assert Sub(Add(a, d), a) == d;
  }

  /** Dividing by `n` is scaling by its reciprocal. */
  lemma DivIsScale(v: Vec3, n: real)
    requires n != 0.0
    ensures Div(v, n) == Scale(v, 1.0 / n)
  {
  }

  lemma MulSwap(x: real, a: real, b: real)
    ensures (x * a) * b == (x * b) * a
  {
  }

  /** Scalings commute. */
  lemma ScaleCommutes(v: Vec3, a: real, b: real)
    ensures Scale(Scale(v, a), b) == Scale(Scale(v, b), a)
  {
    calc {
      Scale(Scale(v, a), b);
      Vec3(v.x * a * b, v.y * a * b, v.z * a * b);
      { MulSwap(v.x, a, b); MulSwap(v.y, a, b); MulSwap(v.z, a, b); }
      Vec3(v.x * b * a, v.y * b * a, v.z * b * a);
      Scale(Scale(v, b), a);
    }
  }

  lemma MulAssoc(x: real, a: real, b: real)
    ensures (x * a) * b == x * (a * b)
  {
  }

  /** Scaling twice is scaling by the product. */
  lemma ScaleTwice(v: Vec3, a: real, b: real)
    ensures Scale(Scale(v, a), b) == Scale(v, a * b)
  {
    calc {
      Scale(Scale(v, a), b);
      Vec3(v.x * a * b, v.y * a * b, v.z * a * b);
      { MulAssoc(v.x, a, b); MulAssoc(v.y, a, b); MulAssoc(v.z, a, b); }
      Vec3(v.x * (a * b), v.y * (a * b), v.z * (a * b));
    }
  }

  lemma ReciprocalSplit(m: real, n: real)
    requires m != 0.0 && n != 0.0
    ensures 1.0 / n == (1.0 / m) * (m / n)
  {
  }

  /** Dividing by `n` is dividing by `m` and then scaling by `m / n`. */
  lemma DivThenRescale(v: Vec3, m: real, n: real)
    requires m != 0.0 && n != 0.0
    ensures Div(v, n) == Scale(Div(v, m), m / n)
  {
    calc {
      Div(v, n);
      { DivIsScale(v, n); }
      Scale(v, 1.0 / n);
      { ReciprocalSplit(m, n); }
      Scale(v, (1.0 / m) * (m / n));
      { ScaleTwice(v, 1.0 / m, m / n); }
      Scale(Scale(v, 1.0 / m), m / n);
      { DivIsScale(v, m); }
      Scale(Div(v, m), m / n);
    }
  }

  /** Scaling and dividing commute. */
  lemma ScaleThenDivide(v: Vec3, k: real, n: real)
    requires n != 0.0
    ensures Div(Scale(v, k), n) == Scale(Div(v, n), k)
  {
    calc {
      Div(Scale(v, k), n);
      { DivIsScale(Scale(v, k), n); }
      Scale(Scale(v, k), 1.0 / n);
      { ScaleCommutes(v, k, 1.0 / n); }
      Scale(Scale(v, 1.0 / n), k);
      { DivIsScale(v, n); }
      Scale(Div(v, n), k);
    }
  }

  /** A rotation quaternion, in the engine's (x, y, z, w) component order. */
  datatype Quat = Quat(x: real, y: real, z: real, w: real)

  const Identity: Quat := Quat(0.0, 0.0, 0.0, 1.0)

  function NormSquared(q: Quat): real {
    q.x * q.x + q.y * q.y + q.z * q.z + q.w * q.w
  }

  /** Hamilton product `a * b`: the rotation `b` followed by `a`. */
  function Mul(a: Quat, b: Quat): Quat {
    Quat(a.w * b.x + a.x * b.w + a.y * b.z - a.z * b.y,
         a.w * b.y + a.y * b.w + a.z * b.x - a.x * b.z,
         a.w * b.z + a.z * b.w + a.x * b.y - a.y * b.x,
         a.w * b.w - a.x * b.x - a.y * b.y - a.z * b.z)
  }

  /** The inverse of a unit quaternion is its conjugate. */
  function Inverse(q: Quat): Quat {
    Quat(-q.x, -q.y, -q.z, q.w)
  }

  /** A unit rotation composed with its own inverse is the identity. */
  lemma MulInverseSelf(q: Quat)
    requires NormSquared(q) == 1.0
    ensures Mul(q, Inverse(q)) == Identity
  {
  }

  /** What `Quaternion.ToAngleAxis` produces: an angle in degrees and an axis. */
  datatype AngleAxis = AngleAxis(angle: real, axis: Vec3)
}
