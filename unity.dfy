/** The small part of the Unity engine the distance-grab scripts rely on:
    three-component vectors over the reals, Mathf.Clamp01, Mathf.Lerp,
    Vector3.Lerp, Vector3.Normalize's cut-off, and a Transform whose
    position the scripts assign. */
module Unity {

  /** Vector3, with single-precision floats replaced by reals. */
  datatype Vec3 = Vec3(x: real, y: real, z: real)

  const Zero := Vec3(0.0, 0.0, 0.0)

  /** Vector3.kEpsilon: Vector3.Normalize leaves the zero vector when the
      magnitude is not above this. */
  const NormalizeEpsilon: real := 0.00001

  function Add(a: Vec3, b: Vec3): Vec3 { Vec3(a.x + b.x, a.y + b.y, a.z + b.z) }

  function Sub(a: Vec3, b: Vec3): Vec3 { Vec3(a.x - b.x, a.y - b.y, a.z - b.z) }

  function Scale(k: real, v: Vec3): Vec3 { Vec3(k * v.x, k * v.y, k * v.z) }

  function Dot(a: Vec3, b: Vec3): real { a.x * b.x + a.y * b.y + a.z * b.z }

  /** Vector3.sqrMagnitude: the square of the length, so no square root is needed. */
  function SqrMagnitude(v: Vec3): real { Dot(v, v) }

  function Abs(v: real): real { if v < 0.0 then -v else v }

  /** Mathf.Clamp01: the nearest point of [0, 1]. */
  function Clamp01(v: real): (r: real)
    ensures 0.0 <= r <= 1.0
    ensures 0.0 <= v <= 1.0 ==> r == v
    ensures v < 0.0 ==> r == 0.0
    ensures v > 1.0 ==> r == 1.0
  {
    if v < 0.0 then 0.0 else if v > 1.0 then 1.0 else v
  }

  /** Mathf.Lerp: the interpolation parameter is clamped to [0, 1] first,
      so the result always lies between the two end values. */
  function Lerp(a: real, b: real, t: real): (r: real)
    ensures a <= b ==> a <= r <= b
    ensures b <= a ==> b <= r <= a
    ensures t <= 0.0 ==> r == a
    ensures t >= 1.0 ==> r == b
  {
    var d := b - a;
    var c := Clamp01(t);
    StepBounds(d, c);
    a + d * c
  }

  /** A fraction c in [0, 1] of a difference d lies between 0 and d. */
  lemma StepBounds(d: real, c: real)
    requires 0.0 <= c <= 1.0
    ensures 0.0 <= d ==> 0.0 <= d * c <= d
    ensures d <= 0.0 ==> d <= d * c <= 0.0
    ensures c == 0.0 ==> d * c == 0.0
    ensures c == 1.0 ==> d * c == d
  {
    if 0.0 <= d {
      MulNonNegative(d, c);
      MulShrinks(c, d);
    } else {
      MulNonNegative(-d, c);
      MulShrinks(c, -d);
    }
  }

  /** Vector3.Lerp: component-wise, with the parameter clamped to [0, 1]. */
  function LerpVec(a: Vec3, b: Vec3, t: real): (r: Vec3)
    ensures t <= 0.0 ==> r == a
    ensures t >= 1.0 ==> r == b
  {
    Add(a, Scale(Clamp01(t), Sub(b, a)))
  }

  lemma MulNonNegative(a: real, b: real)
    requires 0.0 <= a && 0.0 <= b
    ensures 0.0 <= a * b
  {
  }

  lemma MulShrinks(c: real, d: real)
    requires 0.0 <= c <= 1.0 && 0.0 <= d
    ensures c * d <= d
  {
  }

  lemma SquareNonNegative(a: real)
    ensures 0.0 <= a * a
  {
  }

  lemma SqrMagnitudeNonNegative(v: Vec3)
    ensures 0.0 <= SqrMagnitude(v)
  {
    SquareNonNegative(v.x);
    SquareNonNegative(v.y);
    SquareNonNegative(v.z);
  }

  /** Scaling a vector by k scales its squared length by k squared. */
  lemma SqrMagnitudeScale(k: real, v: Vec3)
    ensures SqrMagnitude(Scale(k, v)) == k * k * SqrMagnitude(v)
  {
    calc {
      SqrMagnitude(Scale(k, v));
      (k * v.x) * (k * v.x) + (k * v.y) * (k * v.y) + (k * v.z) * (k * v.z);
      k * k * (v.x * v.x) + k * k * (v.y * v.y) + k * k * (v.z * v.z);
      k * k * SqrMagnitude(v);
    }
  }

  lemma RemainingComponent(a: real, b: real, c: real)
    ensures (a + c * (b - a)) - b == (1.0 - c) * (a - b)
  {
  }

  /** What is left of the way from a to b after one Vector3.Lerp step is the
      fraction 1 - t' of the old difference, t' the clamped parameter. */
  lemma LerpVecRemaining(a: Vec3, b: Vec3, t: real)
    ensures Sub(LerpVec(a, b, t), b) == Scale(1.0 - Clamp01(t), Sub(a, b))
  {
    var c := Clamp01(t);
    var l := LerpVec(a, b, t);
    assert l == Vec3(a.x + c * (b.x - a.x), a.y + c * (b.y - a.y), a.z + c * (b.z - a.z));
    RemainingComponent(a.x, b.x, c);
    RemainingComponent(a.y, b.y, c);
    RemainingComponent(a.z, b.z, c);
    assert Sub(l, b) == Vec3((1.0 - c) * (a.x - b.x), (1.0 - c) * (a.y - b.y), (1.0 - c) * (a.z - b.z));
  }

  /** Scaling by a factor in [0, 1] does not lengthen a vector. */
  lemma ScaleShrinks(k: real, d: Vec3)
    requires 0.0 <= k <= 1.0
    ensures SqrMagnitude(Scale(k, d)) <= SqrMagnitude(d)
  {
    var before := SqrMagnitude(d);
    SqrMagnitudeScale(k, d);
    var kk := k * k;
    assert 0.0 <= kk <= 1.0 by {
      MulNonNegative(k, k);
      MulShrinks(k, k);
    }
    SqrMagnitudeNonNegative(d);
    MulShrinks(kk, before);
  }

  /** One Vector3.Lerp step from a towards b keeps the result on the segment
      between them, so the distance to b never grows. */
  lemma LerpVecApproaches(a: Vec3, b: Vec3, t: real)
    ensures SqrMagnitude(Sub(LerpVec(a, b, t), b)) <= SqrMagnitude(Sub(a, b))
  {
    LerpVecRemaining(a, b, t);
    ScaleShrinks(1.0 - Clamp01(t), Sub(a, b));
  }

  /** A scene transform: the scripts only read and assign its world position. */
  class Transform {
    var position: Vec3

    constructor (position: Vec3)
      ensures this.position == position
    {
      this.position := position;
    }
  }
}
