/** The TVector2 and TVector3 arithmetic the detector code relies on, over
    exact reals (Double_t rounding is not modelled). */
module Geometry {

  datatype Vec2 = Vec2(x: real, y: real)

  datatype Vec3 = Vec3(x: real, y: real, z: real)

  function Add3(a: Vec3, b: Vec3): Vec3 {
    Vec3(a.x + b.x, a.y + b.y, a.z + b.z)
  }

  function Sub3(a: Vec3, b: Vec3): Vec3 {
    Vec3(a.x - b.x, a.y - b.y, a.z - b.z)
  }

  function Scale3(k: real, a: Vec3): Vec3 {
    Vec3(k * a.x, k * a.y, k * a.z)
  }

  function Dot3(a: Vec3, b: Vec3): real {
    a.x * b.x + a.y * b.y + a.z * b.z
  }

  function Add2(a: Vec2, b: Vec2): Vec2 {
    Vec2(a.x + b.x, a.y + b.y)
  }

  function Sub2(a: Vec2, b: Vec2): Vec2 {
    Vec2(a.x - b.x, a.y - b.y)
  }

  /** A rotation of the plane given by the cosine and sine of its angle; the
      angle itself and the trigonometry producing c and s are not modelled. */
  datatype Rotation = Rotation(c: real, s: real)

  predicate IsUnit(r: Rotation) {
    r.c * r.c + r.s * r.s == 1.0
  }

  /** TVector2::Rotate by the angle whose cosine and sine are r.c and r.s. */
  function Rotate(v: Vec2, r: Rotation): Vec2 {
    Vec2(r.c * v.x - r.s * v.y, r.s * v.x + r.c * v.y)
  }

  /** TVector2::Rotate by the opposite angle. */
  function RotateBack(v: Vec2, r: Rotation): Vec2 {
    Vec2(r.c * v.x + r.s * v.y, -r.s * v.x + r.c * v.y)
  }

  /** Rotating back undoes a rotation by a proper angle. */
  lemma RotateBackUndoesRotate(v: Vec2, r: Rotation)
    requires IsUnit(r)
    ensures RotateBack(Rotate(v, r), r) == v
  {
    var w := Rotate(v, r);
    calc {
      r.c * w.x + r.s * w.y;
      r.c * (r.c * v.x - r.s * v.y) + r.s * (r.s * v.x + r.c * v.y);
      (r.c * r.c + r.s * r.s) * v.x;
      v.x;
    }
    calc {
      -r.s * w.x + r.c * w.y;
      -r.s * (r.c * v.x - r.s * v.y) + r.c * (r.s * v.x + r.c * v.y);
      (r.c * r.c + r.s * r.s) * v.y;
      v.y;
    }
  }

  /** Reflection of p in the plane through c with normal n: with V = p - c,
      the point c + V - 2 (V.n) n. */
  function Reflect(p: Vec3, c: Vec3, n: Vec3): Vec3 {
    var v := Sub3(p, c);
    Add3(c, Sub3(v, Scale3(2.0 * Dot3(v, n), n)))
  }

  /** The component of v along a unit normal n changes sign under the
      reflection of v. */
  lemma ReflectedAlongNormal(v: Vec3, n: Vec3)
    requires Dot3(n, n) == 1.0
    ensures Dot3(Sub3(v, Scale3(2.0 * Dot3(v, n), n)), n) == -Dot3(v, n)
  {
    var d := Dot3(v, n);
    var w := Sub3(v, Scale3(2.0 * d, n));
    calc {
      Dot3(w, n);
      (v.x - 2.0 * d * n.x) * n.x + (v.y - 2.0 * d * n.y) * n.y + (v.z - 2.0 * d * n.z) * n.z;
      d - 2.0 * d * (n.x * n.x + n.y * n.y + n.z * n.z);
      d - 2.0 * d * Dot3(n, n);
      -d;
    }
  }

  /** With a unit normal, reflecting twice gives the point back. */
  lemma ReflectInvolution(p: Vec3, c: Vec3, n: Vec3)
    requires Dot3(n, n) == 1.0
    ensures Reflect(Reflect(p, c, n), c, n) == p
  {
    var v := Sub3(p, c);
    var w := Sub3(v, Scale3(2.0 * Dot3(v, n), n));
    ReflectedAlongNormal(v, n);
    assert Sub3(Reflect(p, c, n), c) == w;
    assert Sub3(w, Scale3(2.0 * Dot3(w, n), n)) == v;
  }

  /** Points of the mirror plane stay where they are. */
  lemma ReflectFixesPlane(p: Vec3, c: Vec3, n: Vec3)
    requires Dot3(Sub3(p, c), n) == 0.0
    ensures Reflect(p, c, n) == p
  {
  }

  /** The distance to the plane along a unit normal changes sign. */
  lemma ReflectFlipsSide(p: Vec3, c: Vec3, n: Vec3)
    requires Dot3(n, n) == 1.0
    ensures Dot3(Sub3(Reflect(p, c, n), c), n) == -Dot3(Sub3(p, c), n)
  {
    var v := Sub3(p, c);
    ReflectedAlongNormal(v, n);
    assert Sub3(Reflect(p, c, n), c) == Sub3(v, Scale3(2.0 * Dot3(v, n), n));
  }
}
