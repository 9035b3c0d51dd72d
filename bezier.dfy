/**
 * The cubic Bezier helpers that TrapinchLeg.js, TrapinchHeadCracks.js, FlygonBody.js and
 * FlygonTail.js each define locally (bezierPoint, and bezierTangent in the Flygon files),
 * all with the same Bernstein formula, coordinate by coordinate.
 */
module Bezier {
  import opened Vectors

  /** One coordinate of bezierPoint: u³·a + 3u²t·b + 3ut²·c + t³·d with u = 1 − t. */
  function Cubic(t: real, a: real, b: real, c: real, d: real): real
  {
    var u := 1.0 - t;
    u * u * u * a + 3.0 * (u * u) * t * b + 3.0 * u * (t * t) * c + t * t * t * d
  }

  /** One coordinate of bezierTangent, as FlygonBody.js writes it. */
  function CubicTangent(t: real, a: real, b: real, c: real, d: real): real
  {
    var u := 1.0 - t;
    -3.0 * u * u * a + (3.0 * u * u - 6.0 * u * t) * b + (6.0 * u * t - 3.0 * t * t) * c + 3.0 * t * t * d
  }

  function Point(t: real, p0: Vec3, p1: Vec3, p2: Vec3, p3: Vec3): Vec3
  {
    Vec3(Cubic(t, p0.x, p1.x, p2.x, p3.x), Cubic(t, p0.y, p1.y, p2.y, p3.y), Cubic(t, p0.z, p1.z, p2.z, p3.z))
  }

  function Tangent(t: real, p0: Vec3, p1: Vec3, p2: Vec3, p3: Vec3): Vec3
  {
    Vec3(CubicTangent(t, p0.x, p1.x, p2.x, p3.x), CubicTangent(t, p0.y, p1.y, p2.y, p3.y),
         CubicTangent(t, p0.z, p1.z, p2.z, p3.z))
  }

  /** The curve starts at its first control point and ends at its last. */
  lemma PointEnds(p0: Vec3, p1: Vec3, p2: Vec3, p3: Vec3)
    ensures Point(0.0, p0, p1, p2, p3) == p0
    ensures Point(1.0, p0, p1, p2, p3) == p3
  {
  }

  /** The end tangents are 3(p1 − p0) and 3(p3 − p2). */
  lemma TangentEnds(p0: Vec3, p1: Vec3, p2: Vec3, p3: Vec3)
    ensures Tangent(0.0, p0, p1, p2, p3) == Scale(3.0, Sub(p1, p0))
    ensures Tangent(1.0, p0, p1, p2, p3) == Scale(3.0, Sub(p3, p2))
  {
  }

  /**
   * bezierTangent is the exact derivative of bezierPoint: the cubic's Taylor expansion at t
   * ends after the h³ term, and its h-coefficient is CubicTangent(t).
   */
  lemma {:induction false} TangentIsDerivative(t: real, h: real, a: real, b: real, c: real, d: real)
    ensures Cubic(t + h, a, b, c, d)
         == Cubic(t, a, b, c, d) + h * CubicTangent(t, a, b, c, d)
          + h * h * (3.0 * (1.0 - t) * (a - 2.0 * b + c) + 3.0 * t * (b - 2.0 * c + d))
          + h * h * h * (d - 3.0 * c + 3.0 * b - a)
  {
  }

  /** FlygonTail.js factors the tangent as 3(u² − 2ut)·b + 3(2ut − t²)·c: the same polynomial. */
  lemma TailTangentForm(t: real, a: real, b: real, c: real, d: real)
    ensures CubicTangent(t, a, b, c, d)
         == -3.0 * (1.0 - t) * (1.0 - t) * a + 3.0 * ((1.0 - t) * (1.0 - t) - 2.0 * (1.0 - t) * t) * b
          + 3.0 * (2.0 * (1.0 - t) * t - t * t) * c + 3.0 * t * t * d
  {
  }

  /** The four Bernstein weights on [0, 1] are non-negative, and the first or the last is positive. */
  lemma BernsteinWeights(t: real)
    requires 0.0 <= t <= 1.0
    ensures (1.0 - t) * (1.0 - t) * (1.0 - t) >= 0.0 && 3.0 * ((1.0 - t) * (1.0 - t)) * t >= 0.0
    ensures 3.0 * (1.0 - t) * (t * t) >= 0.0 && t * t * t >= 0.0
    ensures (1.0 - t) * (1.0 - t) * (1.0 - t) > 0.0 || t * t * t > 0.0
  {
    CubeNonNegative(1.0 - t);
    CubeNonNegative(t);
    MiddleWeights(1.0 - t, t);
    if t > 0.0 {
      CubePositive(t);
    }
  }

  /** On [0, 1] a cubic with four positive control values stays positive. */
  lemma CubicPositive(t: real, a: real, b: real, c: real, d: real)
    requires 0.0 <= t <= 1.0 && a > 0.0 && b > 0.0 && c > 0.0 && d > 0.0
    ensures Cubic(t, a, b, c, d) > 0.0
  {
    BernsteinWeights(t);
    WeightedSumPositive((1.0 - t) * (1.0 - t) * (1.0 - t), 3.0 * ((1.0 - t) * (1.0 - t)) * t,
                        3.0 * (1.0 - t) * (t * t), t * t * t, a, b, c, d);
  }

  lemma CubePositive(t: real)
    requires t > 0.0
    ensures t * t * t > 0.0
  {
    assert t * t > 0.0;
  }

  lemma CubeNonNegative(u: real)
    requires u >= 0.0
    ensures u * u * u >= 0.0
  {
    assert u * u >= 0.0;
  }

  lemma MiddleWeights(u: real, t: real)
    requires u >= 0.0 && t >= 0.0
    ensures 3.0 * (u * u) * t >= 0.0 && 3.0 * u * (t * t) >= 0.0
  {
    assert u * u >= 0.0 && t * t >= 0.0;
  }

  lemma WeightedSumPositive(wa: real, wb: real, wc: real, wd: real, a: real, b: real, c: real, d: real)
    requires wa >= 0.0 && wb >= 0.0 && wc >= 0.0 && wd >= 0.0 && (wa > 0.0 || wd > 0.0)
    requires a > 0.0 && b > 0.0 && c > 0.0 && d > 0.0
    ensures wa * a + wb * b + wc * c + wd * d > 0.0
  {
    WeightNonNegative(wa, a);
    WeightNonNegative(wb, b);
    WeightNonNegative(wc, c);
    WeightNonNegative(wd, d);
    if wa > 0.0 {
      WeightPositive(wa, a);
    } else {
      WeightPositive(wd, d);
    }
  }

  lemma WeightNonNegative(w: real, a: real)
    requires w >= 0.0 && a > 0.0
    ensures w * a >= 0.0
  {
  }

  lemma WeightPositive(w: real, a: real)
    requires w > 0.0 && a > 0.0
    ensures w * a > 0.0
  {
  }

  /**
   * The swept-tube vertex of the Flygon body and tail: center + at·cos·normal + bt·sin·binormal,
   * written coordinate by coordinate as both generators do.
   */
  function SweepPoint(center: Vec3, normal: Vec3, binormal: Vec3, at: real, bt: real, cosu: real, sinu: real): Vec3
  {
    Vec3(center.x + at * cosu * normal.x + bt * sinu * binormal.x,
         center.y + at * cosu * normal.y + bt * sinu * binormal.y,
         center.z + at * cosu * normal.z + bt * sinu * binormal.z)
  }

  /** A swept vertex is its centre plus a combination of the two frame axes. */
  lemma SweepOffset(center: Vec3, normal: Vec3, binormal: Vec3, at: real, bt: real, cosu: real, sinu: real)
    ensures Sub(SweepPoint(center, normal, binormal, at, bt, cosu, sinu), center)
         == Add(Scale(at * cosu, normal), Scale(bt * sinu, binormal))
  {
  }
}
