/** Three-component vectors as the generators use them (plain `[x, y, z]` arrays in the source). */
module Vectors {
  import JsMath

  datatype Vec3 = Vec3(x: real, y: real, z: real)

  const Zero: Vec3 := Vec3(0.0, 0.0, 0.0)

  function Add(a: Vec3, b: Vec3): Vec3
  {
    Vec3(a.x + b.x, a.y + b.y, a.z + b.z)
  }

  function Sub(a: Vec3, b: Vec3): Vec3
  {
    Vec3(a.x - b.x, a.y - b.y, a.z - b.z)
  }

  function Scale(k: real, a: Vec3): Vec3
  {
    Vec3(k * a.x, k * a.y, k * a.z)
  }

  function Dot(a: Vec3, b: Vec3): real
  {
    a.x * b.x + a.y * b.y + a.z * b.z
  }

  /** The right-handed cross product, in the component order the source writes it. */
  function Cross(a: Vec3, b: Vec3): Vec3
  {
    Vec3(a.y * b.z - a.z * b.y, a.z * b.x - a.x * b.z, a.x * b.y - a.y * b.x)
  }

  /** The cross product is orthogonal to both of its factors. */
  lemma CrossOrthogonal(a: Vec3, b: Vec3)
    ensures Dot(Cross(a, b), a) == 0.0
    ensures Dot(Cross(a, b), b) == 0.0
  {
    var c := Cross(a, b);
    calc {
      Dot(c, a);
      (a.y * b.z - a.z * b.y) * a.x + (a.z * b.x - a.x * b.z) * a.y + (a.x * b.y - a.y * b.x) * a.z;
      0.0;
    }
    calc {
      Dot(c, b);
      (a.y * b.z - a.z * b.y) * b.x + (a.z * b.x - a.x * b.z) * b.y + (a.x * b.y - a.y * b.x) * b.z;
      0.0;
    }
  }

  /** Math.hypot(v[0], v[1], v[2]). */
  function Length(m: JsMath.Math, v: Vec3): real
  {
    m.sqrt(Dot(v, v))
  }

  /**
   * normalize(v) of the Flygon generators: every coordinate divided by Math.hypot(...v).
   * JavaScript turns the zero vector into NaN coordinates; the model returns it unchanged.
   */
  function Normalize(m: JsMath.Math, v: Vec3): Vec3
  {
    var len := Length(m, v);
    if len == 0.0 then v else Vec3(v.x / len, v.y / len, v.z / len)
  }

  lemma ScaleDot(k: real, a: Vec3, b: Vec3)
    ensures Dot(Scale(k, a), b) == k * Dot(a, b)
  {
  }

  /** A nonzero length divides like a scale by its inverse. */
  lemma NormalizeScales(m: JsMath.Math, v: Vec3)
    requires Length(m, v) != 0.0
    ensures Normalize(m, v) == Scale(1.0 / Length(m, v), v)
  {
    var len := Length(m, v);
    assert v.x / len == (1.0 / len) * v.x;
    assert v.y / len == (1.0 / len) * v.y;
    assert v.z / len == (1.0 / len) * v.z;
  }

  /** Normalizing only rescales, so it keeps a vector orthogonal to any b it was orthogonal to. */
  lemma NormalizeOrthogonal(m: JsMath.Math, a: Vec3, b: Vec3)
    requires Dot(a, b) == 0.0
    ensures Dot(Normalize(m, a), b) == 0.0
  {
    if Length(m, a) != 0.0 {
      NormalizeScales(m, a);
      ScaleDot(1.0 / Length(m, a), a, b);
    }
  }

  /** With a true square root, a normalized nonzero vector has unit length. */
  lemma NormalizeUnit(m: JsMath.Math, v: Vec3)
    requires JsMath.SqrtLaws(m) && v != Zero
    ensures Dot(Normalize(m, v), Normalize(m, v)) == 1.0
  {
    var d := Dot(v, v);
    DotPositive(v);
    assert m.sqrt(d) * m.sqrt(d) == d;
    var len := Length(m, v);
    assert len != 0.0;
    NormalizeScales(m, v);
    var k := 1.0 / len;
    ScaleDot(k, v, Scale(k, v));
    assert Dot(v, Scale(k, v)) == k * d;
    assert k * len == 1.0;
    calc {
      Dot(Scale(k, v), Scale(k, v));
      k * (k * d);
      (k * len) * (k * len);
      1.0;
    }
  }

  /** A nonzero vector has a positive squared length. */
  lemma DotPositive(v: Vec3)
    requires v != Zero
    ensures Dot(v, v) > 0.0
  {
    calc {
      Dot(v, v);
      v.x * v.x + v.y * v.y + v.z * v.z;
    >  { JsMath.SquaresPositive(v.x, v.y, v.z); }
      0.0;
    }
  }

  /** Regrouping a product of three factors, for a scaled coordinate. */
  lemma Associate(k: real, x: real, y: real)
    ensures k * x * y == k * (x * y)
  {
  }

  /**
   * The direction (sin v cos u, cos v, sin v sin u) of spherical coordinates is a unit
   * vector whenever sin² + cos² = 1 holds for both angles.
   */
  lemma UnitSphere(sv: real, cv: real, su: real, cu: real)
    requires sv * sv + cv * cv == 1.0 && su * su + cu * cu == 1.0
    ensures Dot(Vec3(sv * cu, cv, sv * su), Vec3(sv * cu, cv, sv * su)) == 1.0
  {
    calc {
      (sv * cu) * (sv * cu) + cv * cv + (sv * su) * (sv * su);
      (sv * sv) * (su * su + cu * cu) + cv * cv;
      1.0;
    }
  }
}
