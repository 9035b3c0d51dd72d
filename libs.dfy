/**
 * The matrix library shared by the creature scenes (`LIBS` in libs.js).
 *
 * A matrix is a JavaScript array of 16 numbers in row-major order, modelled as an
 * `array<real>` of length 16. Operations that overwrite entries of the array they are
 * given are methods with a `modifies` clause; each is proved equal to a function on the
 * old contents, and the functions carry the algebra: which slots change, unit and
 * inverse laws, and how each in-place operation relates to the product of Mat4.
 */
module Libs {
  import opened JsMath
  import opened Vectors
  import opened Mat4

  /** degToRad: degrees to radians. */
  function DegToRad(angle: real): (r: real)
    ensures r * 180.0 == angle * PI
  {
    (angle * PI) / 180.0
  }

  /** Half a turn in degrees is PI radians, and the conversion is additive. */
  lemma DegToRadLaws(a: real, b: real)
    ensures DegToRad(180.0) == PI
    ensures DegToRad(a + b) == DegToRad(a) + DegToRad(b)
    ensures DegToRad(0.0) == 0.0
  {
  }

  // ---------------------------------------------------------------- projection

  /** The tangent get_projection divides by: tan of half the field of view. */
  function HalfFovTan(math: Math, angle: real): real
  {
    math.tan(DegToRad(0.5 * angle))
  }

  /**
   * get_projection: a perspective matrix in the layout WebGL reads column by column.
   * JavaScript divides by the tangent and by zMax − zMin; when either is 0 the result
   * holds Infinity or NaN, which the model excludes.
   */
  function GetProjection(math: Math, angle: real, a: real, zMin: real, zMax: real): (r: seq<real>)
    requires HalfFovTan(math, angle) != 0.0 && zMax != zMin
    ensures IsMat(r)
    ensures SameExcept(Diag(0.0, 0.0, 0.0, 0.0), r, {0, 5, 10, 11, 14})
    ensures r[0] * HalfFovTan(math, angle) == 0.5
    ensures r[5] * HalfFovTan(math, angle) == 0.5 * a
    ensures r[10] * (zMax - zMin) == -(zMax + zMin)
    ensures r[11] == -1.0
    ensures r[14] * (zMax - zMin) == -2.0 * zMax * zMin
  {
    var tan := HalfFovTan(math, angle);
    var A := -(zMax + zMin) / (zMax - zMin);
    var B := (-2.0 * zMax * zMin) / (zMax - zMin);
    [0.5 / tan, 0.0, 0.0, 0.0,
     0.0, (0.5 * a) / tan, 0.0, 0.0,
     0.0, 0.0, A, -1.0,
     0.0, 0.0, B, 0.0]
  }

  /**
   * The depth a point at eye-space z gets after the perspective divide: the clip z is
   * r[10]·z + r[14] (WebGL reads entry 14 as column 3, row 2) and the clip w is −z.
   */
  function NdcDepth(r: seq<real>, z: real): real
    requires IsMat(r) && z != 0.0
  {
    (r[10] * z + r[14]) / -z
  }

  /** The scalar facts behind the depth range: with A and B as get_projection defines them. */
  lemma PlaneDepths(A: real, B: real, zMin: real, zMax: real)
    requires zMax != zMin
    requires A * (zMax - zMin) == -(zMax + zMin) && B * (zMax - zMin) == -2.0 * zMax * zMin
    ensures A * -zMin + B == -zMin
    ensures A * -zMax + B == zMax
  {
    var d := zMax - zMin;
    assert (A * -zMin + B) * d == -zMin * (A * d) + B * d;
    assert (A * -zMin + B) * d == -zMin * d;
    assert (A * -zMax + B) * d == -zMax * (A * d) + B * d;
    assert (A * -zMax + B) * d == zMax * d;
  }

  lemma DivideBySelf(x: real)
    requires x != 0.0
    ensures x / x == 1.0 && -x / x == -1.0
  {
    assert (-x / x) * x == -x;
  }

  /** The depths of the two planes, for clip-z coefficients A and B as get_projection defines them. */
  lemma PlaneNdcDepths(A: real, B: real, zMin: real, zMax: real)
    requires zMax != zMin && zMin != 0.0 && zMax != 0.0
    requires A * (zMax - zMin) == -(zMax + zMin) && B * (zMax - zMin) == -2.0 * zMax * zMin
    ensures (A * -zMin + B) / -(-zMin) == -1.0 && (A * -zMax + B) / -(-zMax) == 1.0
  {
    PlaneDepths(A, B, zMin, zMax);
    DivideBySelf(zMin);
    DivideBySelf(zMax);
  }

  /** Any matrix with get_projection's depth entries maps −zMin to −1 and −zMax to +1. */
  lemma DepthRangeOf(r: seq<real>, zMin: real, zMax: real)
    requires IsMat(r) && zMax != zMin && zMin != 0.0 && zMax != 0.0
    requires r[10] * (zMax - zMin) == -(zMax + zMin) && r[14] * (zMax - zMin) == -2.0 * zMax * zMin
    ensures NdcDepth(r, -zMin) == -1.0 && NdcDepth(r, -zMax) == 1.0
  {
    PlaneNdcDepths(r[10], r[14], zMin, zMax);
  }

  /** The near plane z = −zMin goes to depth −1 and the far plane z = −zMax to +1. */
  lemma ProjectionDepthRange(math: Math, angle: real, a: real, zMin: real, zMax: real)
    requires HalfFovTan(math, angle) != 0.0 && zMax != zMin
    requires zMin != 0.0 && zMax != 0.0
    ensures NdcDepth(GetProjection(math, angle, a, zMin, zMax), -zMin) == -1.0
    ensures NdcDepth(GetProjection(math, angle, a, zMin, zMax), -zMax) == 1.0
  {
    DepthRangeOf(GetProjection(math, angle, a, zMin, zMax), zMin, zMax);
  }

  // ---------------------------------------------------------------- identity

  /** set_I4: every entry of `m` is overwritten with the identity. */
  method SetI4(m: array<real>)
    requires m.Length == 16
    modifies m
    ensures m[..] == Identity()
  {
    forall k | 0 <= k < 16 {
      m[k] := Identity()[k];
    }
  }

  /** get_I4 returns a new array holding the identity. */
  method GetI4() returns (r: array<real>)
    ensures fresh(r) && r[..] == Identity()
  {
    r := new real[16];
    SetI4(r);
  }

  // ---------------------------------------------------------------- product

  /**
   * multiply: a new array whose entry 4i+j accumulates m1[4i+k]·m2[4k+j] over k in a
   * triple loop. Neither input is modified. The innermost loop is AccumulateEntry.
   */
  method Multiply(m1: array<real>, m2: array<real>) returns (rm: array<real>)
    requires m1.Length == 16 && m2.Length == 16
    ensures fresh(rm) && rm[..] == Mul(m1[..], m2[..])
  {
    rm := GetI4();
    ghost var a, b := m1[..], m2[..];
    for i := 0 to 4
      invariant forall i', j' | 0 <= i' < i && 0 <= j' < 4 :: rm[4 * i' + j'] == Entry(a, b, i', j')
    {
      AccumulateRow(m1, m2, rm, i);
      assert m1[..] == a && m2[..] == b;
    }
  }

  /** The j loop of multiply: row i of rm becomes row i of the product; no other row changes. */
  method AccumulateRow(m1: array<real>, m2: array<real>, rm: array<real>, i: nat)
    requires m1.Length == 16 && m2.Length == 16 && rm.Length == 16 && rm != m1 && rm != m2 && i < 4
    modifies rm
    ensures forall j' | 0 <= j' < 4 :: rm[4 * i + j'] == Entry(m1[..], m2[..], i, j')
    ensures forall p | 0 <= p < 16 && !(4 * i <= p < 4 * i + 4) :: rm[p] == old(rm[p])
  {
    for j := 0 to 4
      invariant forall j' | 0 <= j' < j :: rm[4 * i + j'] == Entry(m1[..], m2[..], i, j')
      invariant forall p | 0 <= p < 16 && !(4 * i <= p < 4 * i + 4) :: rm[p] == old(rm[p])
    {
      AccumulateEntry(m1, m2, rm, i, j);
    }
  }

  /** The k loop of multiply: entry 4i+j of rm becomes row i of m1 times column j of m2; no other entry changes. */
  method AccumulateEntry(m1: array<real>, m2: array<real>, rm: array<real>, i: nat, j: nat)
    requires m1.Length == 16 && m2.Length == 16 && rm.Length == 16 && rm != m1 && rm != m2 && i < 4 && j < 4
    modifies rm
    ensures rm[i * 4 + j] == Entry(m1[..], m2[..], i, j)
    ensures forall p | 0 <= p < 16 && p != i * 4 + j :: rm[p] == old(rm[p])
  {
    ghost var a, b := m1[..], m2[..];
    rm[i * 4 + j] := 0.0;
    for k := 0 to 4
      invariant forall p | 0 <= p < 16 && p != i * 4 + j :: rm[p] == old(rm[p])
      invariant rm[i * 4 + j] == PartialEntry(a, b, i, j, k)
    {
      PartialEntryStep(a, b, i, j, k, rm[i * 4 + j], m1[i * 4 + k], m2[k * 4 + j]);
      rm[i * 4 + j] := rm[i * 4 + j] + m1[i * 4 + k] * m2[k * 4 + j];
    }
    PartialEntryComplete(a, b, i, j);
  }

  // ---------------------------------------------------------------- translation

  /** translateX/Y/Z add t to one translation slot (12, 13 or 14) of the matrix. */
  function Translated(m: seq<real>, slot: nat, t: real): (r: seq<real>)
    requires IsMat(m) && 12 <= slot <= 14
    ensures IsMat(r) && SameExcept(m, r, {slot})
    ensures r[slot] - m[slot] == t
  {
    m[slot := m[slot] + t]
  }

  /** Two translations along one axis are one translation by the sum; along two axes they commute. */
  lemma TranslateCompose(m: seq<real>, slot: nat, other: nat, t1: real, t2: real)
    requires IsMat(m) && 12 <= slot <= 14 && 12 <= other <= 14
    ensures Translated(Translated(m, slot, t1), slot, t2) == Translated(m, slot, t1 + t2)
    ensures Translated(Translated(m, slot, t1), other, t2) == Translated(Translated(m, other, t2), slot, t1)
  {
  }

  method TranslateX(m: array<real>, t: real)
    requires m.Length == 16
    modifies m
    ensures m[..] == Translated(old(m[..]), 12, t)
  {
    m[12] := m[12] + t;
  }

  method TranslateY(m: array<real>, t: real)
    requires m.Length == 16
    modifies m
    ensures m[..] == Translated(old(m[..]), 13, t)
  {
    m[13] := m[13] + t;
  }

  method TranslateZ(m: array<real>, t: real)
    requires m.Length == 16
    modifies m
    ensures m[..] == Translated(old(m[..]), 14, t)
  {
    m[14] := m[14] + t;
  }

  /** set_position overwrites the three translation slots. */
  method SetPosition(m: array<real>, x: real, y: real, z: real)
    requires m.Length == 16
    modifies m
    ensures m[..] == old(m[..])[12 := x][13 := y][14 := z]
    ensures SameExcept(old(m[..]), m[..], {12, 13, 14})
  {
    m[12], m[13], m[14] := x, y, z;
  }

  // ---------------------------------------------------------------- axis scaling

  /** scaleX/Y/Z multiply column `col` of rows 0 to 2 (entries col, col+4, col+8) by s. */
  function ScaledColumn(m: seq<real>, col: nat, s: real): (r: seq<real>)
    requires IsMat(m) && col < 3
    ensures IsMat(r) && SameExcept(m, r, {col, col + 4, col + 8})
    ensures forall row | 0 <= row < 3 :: r[4 * row + col] == m[4 * row + col] * s
  {
    m[col := m[col] * s][col + 4 := m[col + 4] * s][col + 8 := m[col + 8] * s]
  }

  method ScaleX(m: array<real>, s: real)
    requires m.Length == 16
    modifies m
    ensures m[..] == ScaledColumn(old(m[..]), 0, s)
  {
    ghost var o := m[..];
    m[0] := m[0] * s;
    m[4] := m[4] * s;
    m[8] := m[8] * s;
    ghost var r := ScaledColumn(o, 0, s);
    assert forall k | 0 <= k < 16 :: m[k] == r[k];
  }

  method ScaleY(m: array<real>, s: real)
    requires m.Length == 16
    modifies m
    ensures m[..] == ScaledColumn(old(m[..]), 1, s)
  {
    ghost var o := m[..];
    m[1] := m[1] * s;
    m[5] := m[5] * s;
    m[9] := m[9] * s;
    ghost var r := ScaledColumn(o, 1, s);
    assert forall k | 0 <= k < 16 :: m[k] == r[k];
  }

  method ScaleZ(m: array<real>, s: real)
    requires m.Length == 16
    modifies m
    ensures m[..] == ScaledColumn(old(m[..]), 2, s)
  {
    ghost var o := m[..];
    m[2] := m[2] * s;
    m[6] := m[6] * s;
    m[10] := m[10] * s;
    ghost var r := ScaledColumn(o, 2, s);
    assert forall k | 0 <= k < 16 :: m[k] == r[k];
  }

  // ---------------------------------------------------------------- axis rotations

  /** a·b − c·d and a·b + c·d: the two shapes of every entry the axis rotations write. */
  function DiffProd(a: real, b: real, c: real, d: real): real
  {
    a * b - c * d
  }

  function SumProd(a: real, b: real, c: real, d: real): real
  {
    a * b + c * d
  }

  /**
   * rotateX on the old contents: in each of rows 0 to 2 the pair of columns (1, 2) turns
   * by (c, s). Row 3, the translation, is not touched.
   */
  function RotX(m: seq<real>, c: real, s: real): (r: seq<real>)
    requires IsMat(m)
    ensures IsMat(r) && SameExcept(m, r, {1, 2, 5, 6, 9, 10})
  {
    m[1 := DiffProd(m[1], c, m[2], s)][5 := DiffProd(m[5], c, m[6], s)][9 := DiffProd(m[9], c, m[10], s)]
     [2 := SumProd(m[2], c, m[1], s)][6 := SumProd(m[6], c, m[5], s)][10 := SumProd(m[10], c, m[9], s)]
  }

  /** rotateY on the old contents: columns (0, 2) of rows 0 to 2 turn by (c, s). */
  function RotY(m: seq<real>, c: real, s: real): (r: seq<real>)
    requires IsMat(m)
    ensures IsMat(r) && SameExcept(m, r, {0, 2, 4, 6, 8, 10})
  {
    m[0 := SumProd(c, m[0], s, m[2])][4 := SumProd(c, m[4], s, m[6])][8 := SumProd(c, m[8], s, m[10])]
     [2 := DiffProd(c, m[2], s, m[0])][6 := DiffProd(c, m[6], s, m[4])][10 := DiffProd(c, m[10], s, m[8])]
  }

  /** rotateZ on the old contents: columns (0, 1) of rows 0 to 2 turn by (c, s). */
  function RotZ(m: seq<real>, c: real, s: real): (r: seq<real>)
    requires IsMat(m)
    ensures IsMat(r) && SameExcept(m, r, {0, 1, 4, 5, 8, 9})
  {
    m[0 := DiffProd(c, m[0], s, m[1])][4 := DiffProd(c, m[4], s, m[5])][8 := DiffProd(c, m[8], s, m[9])]
     [1 := SumProd(c, m[1], s, m[0])][5 := SumProd(c, m[5], s, m[4])][9 := SumProd(c, m[9], s, m[8])]
  }

  /**
   * rotateX overwrites m[1], m[5] and m[9] first and then reads their saved old values
   * to compute m[2], m[6] and m[10], so the result is the rotation of the old contents.
   */
  method RotateX(m: array<real>, angle: real, math: Math)
    requires m.Length == 16
    modifies m
    ensures m[..] == RotX(old(m[..]), math.cos(angle), math.sin(angle))
  {
    var c := math.cos(angle);
    var s := math.sin(angle);
    var mv1, mv5, mv9 := m[1], m[5], m[9];
    m[1] := DiffProd(m[1], c, m[2], s);
    m[5] := DiffProd(m[5], c, m[6], s);
    m[9] := DiffProd(m[9], c, m[10], s);
    m[2] := SumProd(m[2], c, mv1, s);
    m[6] := SumProd(m[6], c, mv5, s);
    m[10] := SumProd(m[10], c, mv9, s);
    ghost var r := RotX(old(m[..]), c, s);
    assert forall k | 0 <= k < 16 :: m[k] == r[k];
  }

  method RotateY(m: array<real>, angle: real, math: Math)
    requires m.Length == 16
    modifies m
    ensures m[..] == RotY(old(m[..]), math.cos(angle), math.sin(angle))
  {
    var c := math.cos(angle);
    var s := math.sin(angle);
    var mv0, mv4, mv8 := m[0], m[4], m[8];
    m[0] := SumProd(c, m[0], s, m[2]);
    m[4] := SumProd(c, m[4], s, m[6]);
    m[8] := SumProd(c, m[8], s, m[10]);
    m[2] := DiffProd(c, m[2], s, mv0);
    m[6] := DiffProd(c, m[6], s, mv4);
    m[10] := DiffProd(c, m[10], s, mv8);
    ghost var r := RotY(old(m[..]), c, s);
    assert forall k | 0 <= k < 16 :: m[k] == r[k];
  }

  method RotateZ(m: array<real>, angle: real, math: Math)
    requires m.Length == 16
    modifies m
    ensures m[..] == RotZ(old(m[..]), math.cos(angle), math.sin(angle))
  {
    var c := math.cos(angle);
    var s := math.sin(angle);
    var mv0, mv4, mv8 := m[0], m[4], m[8];
    m[0] := DiffProd(c, m[0], s, m[1]);
    m[4] := DiffProd(c, m[4], s, m[5]);
    m[8] := DiffProd(c, m[8], s, m[9]);
    m[1] := SumProd(c, m[1], s, mv0);
    m[5] := SumProd(c, m[5], s, mv4);
    m[9] := SumProd(c, m[9], s, mv8);
    ghost var r := RotZ(old(m[..]), c, s);
    assert forall k | 0 <= k < 16 :: m[k] == r[k];
  }

  /**
   * The planar facts behind the inverse laws: a pair turned by (c, s) and then by (c, −s),
   * in the operand order of each rotation, comes back when c² + s² = 1.
   */
  lemma TurnBackX(u: real, v: real, c: real, s: real)
    requires c * c + s * s == 1.0
    ensures DiffProd(DiffProd(u, c, v, s), c, SumProd(v, c, u, s), -s) == u
    ensures SumProd(SumProd(v, c, u, s), c, DiffProd(u, c, v, s), -s) == v
  {
    assert DiffProd(DiffProd(u, c, v, s), c, SumProd(v, c, u, s), -s) == u * (c * c + s * s);
    assert SumProd(SumProd(v, c, u, s), c, DiffProd(u, c, v, s), -s) == v * (c * c + s * s);
  }

  lemma TurnBackY(u: real, v: real, c: real, s: real)
    requires c * c + s * s == 1.0
    ensures SumProd(c, SumProd(c, u, s, v), -s, DiffProd(c, v, s, u)) == u
    ensures DiffProd(c, DiffProd(c, v, s, u), -s, SumProd(c, u, s, v)) == v
  {
    assert SumProd(c, SumProd(c, u, s, v), -s, DiffProd(c, v, s, u)) == u * (c * c + s * s);
    assert DiffProd(c, DiffProd(c, v, s, u), -s, SumProd(c, u, s, v)) == v * (c * c + s * s);
  }

  lemma TurnBackZ(u: real, v: real, c: real, s: real)
    requires c * c + s * s == 1.0
    ensures DiffProd(c, DiffProd(c, u, s, v), -s, SumProd(c, v, s, u)) == u
    ensures SumProd(c, SumProd(c, v, s, u), -s, DiffProd(c, u, s, v)) == v
  {
    assert DiffProd(c, DiffProd(c, u, s, v), -s, SumProd(c, v, s, u)) == u * (c * c + s * s);
    assert SumProd(c, SumProd(c, v, s, u), -s, DiffProd(c, u, s, v)) == v * (c * c + s * s);
  }

  /** With c² + s² = 1, rotateX by (c, s) and then by (c, −s) restores the matrix. */
  lemma {:induction false} RotXInverse(m: seq<real>, c: real, s: real)
    requires IsMat(m) && c * c + s * s == 1.0
    ensures RotX(RotX(m, c, s), c, -s) == m
  {
    TurnBackX(m[1], m[2], c, s);
    TurnBackX(m[5], m[6], c, s);
    TurnBackX(m[9], m[10], c, s);
    var r := RotX(RotX(m, c, s), c, -s);
    assert forall k | 0 <= k < 16 :: r[k] == m[k];
  }

  lemma {:induction false} RotYInverse(m: seq<real>, c: real, s: real)
    requires IsMat(m) && c * c + s * s == 1.0
    ensures RotY(RotY(m, c, s), c, -s) == m
  {
    TurnBackY(m[0], m[2], c, s);
    TurnBackY(m[4], m[6], c, s);
    TurnBackY(m[8], m[10], c, s);
    var r := RotY(RotY(m, c, s), c, -s);
    assert forall k | 0 <= k < 16 :: r[k] == m[k];
  }

  lemma {:induction false} RotZInverse(m: seq<real>, c: real, s: real)
    requires IsMat(m) && c * c + s * s == 1.0
    ensures RotZ(RotZ(m, c, s), c, -s) == m
  {
    TurnBackZ(m[0], m[1], c, s);
    TurnBackZ(m[4], m[5], c, s);
    TurnBackZ(m[8], m[9], c, s);
    var r := RotZ(RotZ(m, c, s), c, -s);
    assert forall k | 0 <= k < 16 :: r[k] == m[k];
  }

  /** Turning by (1, 0), a zero angle, changes nothing. */
  lemma RotZeroAngle(m: seq<real>)
    requires IsMat(m)
    ensures RotX(m, 1.0, 0.0) == m && RotY(m, 1.0, 0.0) == m && RotZ(m, 1.0, 0.0) == m
  {
    assert forall k | 0 <= k < 16 :: RotX(m, 1.0, 0.0)[k] == m[k];
    assert forall k | 0 <= k < 16 :: RotY(m, 1.0, 0.0)[k] == m[k];
    assert forall k | 0 <= k < 16 :: RotZ(m, 1.0, 0.0)[k] == m[k];
  }

  // ---------------------------------------------------------------- Rodrigues rotation

  /** The axis length rotateArbitraryAxis divides by. */
  function AxisLength(math: Math, axis: Vec3): real
  {
    math.sqrt(axis.x * axis.x + axis.y * axis.y + axis.z * axis.z)
  }

  /** A 3x3 matrix by rows. */
  datatype Mat3 = Mat3(r0: Vec3, r1: Vec3, r2: Vec3)

  /**
   * The Rodrigues matrix rotateArbitraryAxis builds for the unit axis u = (x, y, z) and
   * (c, s) = (cos, sin) of the angle, with t = 1 − c.
   */
  function Rodrigues(u: Vec3, c: real, s: real): Mat3
  {
    var t := 1.0 - c;
    Mat3(Vec3(t * u.x * u.x + c, t * u.x * u.y - s * u.z, t * u.x * u.z + s * u.y),
         Vec3(t * u.x * u.y + s * u.z, t * u.y * u.y + c, t * u.y * u.z - s * u.x),
         Vec3(t * u.x * u.z - s * u.y, t * u.y * u.z + s * u.x, t * u.z * u.z + c))
  }

  /**
   * rotateArbitraryAxis on the old contents: each of rows 0 to 2 of `m`, read as the vector
   * v = (m[4i], m[4i+1], m[4i+2]), is replaced by R·v. Row 3 and column 3 are not touched.
   */
  function RotAxis(m: seq<real>, R: Mat3): (r: seq<real>)
    requires IsMat(m)
    ensures IsMat(r) && SameExcept(m, r, {0, 1, 2, 4, 5, 6, 8, 9, 10})
  {
    var v0, v1, v2 := Vec3(m[0], m[1], m[2]), Vec3(m[4], m[5], m[6]), Vec3(m[8], m[9], m[10]);
    m[0 := Dot(R.r0, v0)][1 := Dot(R.r1, v0)][2 := Dot(R.r2, v0)]
     [4 := Dot(R.r0, v1)][5 := Dot(R.r1, v1)][6 := Dot(R.r2, v1)]
     [8 := Dot(R.r0, v2)][9 := Dot(R.r1, v2)][10 := Dot(R.r2, v2)]
  }

  /** A matrix is RotAxis of another exactly when its nine rotated entries are the row products. */
  lemma RotAxisFromRows(m: seq<real>, n: seq<real>, R: Mat3)
    requires IsMat(m) && IsMat(n) && SameExcept(m, n, {0, 1, 2, 4, 5, 6, 8, 9, 10})
    requires var v := Vec3(m[0], m[1], m[2]); n[0] == Dot(R.r0, v) && n[1] == Dot(R.r1, v) && n[2] == Dot(R.r2, v)
    requires var v := Vec3(m[4], m[5], m[6]); n[4] == Dot(R.r0, v) && n[5] == Dot(R.r1, v) && n[6] == Dot(R.r2, v)
    requires var v := Vec3(m[8], m[9], m[10]); n[8] == Dot(R.r0, v) && n[9] == Dot(R.r1, v) && n[10] == Dot(R.r2, v)
    ensures n == RotAxis(m, R)
  {
    assert forall k | 0 <= k < 16 :: n[k] == RotAxis(m, R)[k];
  }

  /** The axis divided by its length, as rotateArbitraryAxis normalises it. */
  function Normalized(math: Math, axis: Vec3): (u: Vec3)
    requires AxisLength(math, axis) != 0.0
    ensures Vectors.Scale(AxisLength(math, axis), u) == axis
  {
    var len := AxisLength(math, axis);
    Vec3(axis.x / len, axis.y / len, axis.z / len)
  }

  /**
   * rotateArbitraryAxis: normalise the axis, build the Rodrigues matrix (its nine entries
   * are the Rodrigues function), save the nine old entries and overwrite them with the
   * rotated rows.
   * JavaScript divides by the axis length; a zero axis gives NaN, which the model excludes.
   */
  method RotateArbitraryAxis(m: array<real>, axis: Vec3, angle: real, math: Math)
    requires m.Length == 16 && AxisLength(math, axis) != 0.0
    modifies m
    ensures m[..] == RotAxis(old(m[..]), Rodrigues(Normalized(math, axis), math.cos(angle), math.sin(angle)))
  {
    var len := AxisLength(math, axis);
    var x := axis.x / len;
    var y := axis.y / len;
    var z := axis.z / len;
    var c := math.cos(angle);
    var s := math.sin(angle);
    var R := Rodrigues(Vec3(x, y, z), c, s);
    assert Normalized(math, axis) == Vec3(x, y, z);
    var m0, m1, m2 := m[0], m[1], m[2];
    var m4, m5, m6 := m[4], m[5], m[6];
    var m8, m9, m10 := m[8], m[9], m[10];
    m[0] := Dot(R.r0, Vec3(m0, m1, m2));
    m[1] := Dot(R.r1, Vec3(m0, m1, m2));
    m[2] := Dot(R.r2, Vec3(m0, m1, m2));
    m[4] := Dot(R.r0, Vec3(m4, m5, m6));
    m[5] := Dot(R.r1, Vec3(m4, m5, m6));
    m[6] := Dot(R.r2, Vec3(m4, m5, m6));
    m[8] := Dot(R.r0, Vec3(m8, m9, m10));
    m[9] := Dot(R.r1, Vec3(m8, m9, m10));
    m[10] := Dot(R.r2, Vec3(m8, m9, m10));
    RotAxisFromRows(old(m[..]), m[..], R);
  }

  /** About the unit y axis the Rodrigues rotation is exactly rotateY. */
  lemma RotAxisUnitY(m: seq<real>, c: real, s: real)
    requires IsMat(m)
    ensures RotAxis(m, Rodrigues(Vec3(0.0, 1.0, 0.0), c, s)) == RotY(m, c, s)
  {
    var R := Rodrigues(Vec3(0.0, 1.0, 0.0), c, s);
    assert R == Mat3(Vec3(c, 0.0, s), Vec3(0.0, 1.0, 0.0), Vec3(-s, 0.0, c));
    var r := RotAxis(m, R);
    assert forall k | 0 <= k < 16 :: r[k] == RotY(m, c, s)[k];
  }

  /** The length of (0, k, 0) is k when k > 0. */
  lemma AxisLengthAlongY(math: Math, k: real)
    requires SqrtLaws(math) && k > 0.0
    ensures AxisLength(math, Vec3(0.0, k, 0.0)) == k
  {
    var q := AxisLength(math, Vec3(0.0, k, 0.0));
    assert 0.0 * 0.0 + k * k + 0.0 * 0.0 == k * k;
    assert q >= 0.0 && q * q == k * k;
    SquareRootUnique(q, k);
  }

  /** For an axis (0, k, 0) with k > 0, rotateArbitraryAxis normalises to (0, 1, 0) and agrees with rotateY. */
  lemma {:induction false} RotateArbitraryAxisAlongY(math: Math, m: seq<real>, k: real, c: real, s: real)
    requires IsMat(m) && SqrtLaws(math) && k > 0.0
    ensures AxisLength(math, Vec3(0.0, k, 0.0)) != 0.0
    ensures Normalized(math, Vec3(0.0, k, 0.0)) == Vec3(0.0, 1.0, 0.0)
    ensures RotAxis(m, Rodrigues(Normalized(math, Vec3(0.0, k, 0.0)), c, s)) == RotY(m, c, s)
  {
    AxisLengthAlongY(math, k);
    RotAxisUnitY(m, c, s);
  }

  /** Two non-negative numbers with the same square are equal. */
  lemma SquareRootUnique(q: real, k: real)
    requires q >= 0.0 && k >= 0.0 && q * q == k * k
    ensures q == k
  {
    assert (q - k) * (q + k) == 0.0;
    assert q - k == 0.0 || q + k == 0.0;
  }

  // ---------------------------------------------------------------- scale by a diagonal

  /** scale multiplies by diag(sx, sy, sz, 1) on the right, through a new array. */
  method Scale(m: array<real>, sx: real, sy: real, sz: real) returns (rm: array<real>)
    requires m.Length == 16
    ensures fresh(rm) && rm[..] == Mul(m[..], Diag(sx, sy, sz, 1.0))
  {
    var scaleMatrix := GetI4();
    scaleMatrix[0] := sx;
    scaleMatrix[5] := sy;
    scaleMatrix[10] := sz;
    assert scaleMatrix[..] == Diag(sx, sy, sz, 1.0);
    rm := Multiply(m, scaleMatrix);
  }

  /** scaleInPlace copies the product of scale into `m` and returns `m`. */
  method ScaleInPlace(m: array<real>, sx: real, sy: real, sz: real) returns (r: array<real>)
    requires m.Length == 16
    modifies m
    ensures r == m && m[..] == Mul(old(m[..]), Diag(sx, sy, sz, 1.0))
  {
    var scaled := Scale(m, sx, sy, sz);
    for i := 0 to 16
      invariant scaled[..] == Mul(old(m[..]), Diag(sx, sy, sz, 1.0))
      invariant m[..i] == scaled[..i]
    {
      m[i] := scaled[i];
    }
    assert m[..] == scaled[..16];
    r := m;
  }

  /** Multiplying by a diagonal on the right scales each column by its factor. */
  lemma DiagColumns(m: seq<real>, sx: real, sy: real, sz: real, sw: real)
    requires IsMat(m)
    ensures Mul(m, Diag(sx, sy, sz, sw))
         == [m[0] * sx, m[1] * sy, m[2] * sz, m[3] * sw,
             m[4] * sx, m[5] * sy, m[6] * sz, m[7] * sw,
             m[8] * sx, m[9] * sy, m[10] * sz, m[11] * sw,
             m[12] * sx, m[13] * sy, m[14] * sz, m[15] * sw]
  {
    var p := Mul(m, Diag(sx, sy, sz, sw));
    assert p[0] == m[0] * sx && p[1] == m[1] * sy && p[2] == m[2] * sz && p[3] == m[3] * sw;
    assert p[4] == m[4] * sx && p[5] == m[5] * sy && p[6] == m[6] * sz && p[7] == m[7] * sw;
    assert p[8] == m[8] * sx && p[9] == m[9] * sy && p[10] == m[10] * sz && p[11] == m[11] * sw;
    assert p[12] == m[12] * sx && p[13] == m[13] * sy && p[14] == m[14] * sz && p[15] == m[15] * sw;
  }

  /**
   * scale (x only) and scaleX agree on rows 0 to 2, but scale also multiplies the
   * translation slot m[12] by sx, which scaleX leaves alone.
   */
  lemma ScaleVersusScaleX(m: seq<real>, sx: real)
    requires IsMat(m)
    ensures forall k | 0 <= k < 12 :: Mul(m, Diag(sx, 1.0, 1.0, 1.0))[k] == ScaledColumn(m, 0, sx)[k]
    ensures Mul(m, Diag(sx, 1.0, 1.0, 1.0))[12] == m[12] * sx
    ensures ScaledColumn(m, 0, sx)[12] == m[12]
    ensures m[12] != 0.0 && sx != 1.0 ==> Mul(m, Diag(sx, 1.0, 1.0, 1.0)) != ScaledColumn(m, 0, sx)
  {
    DiagColumns(m, sx, 1.0, 1.0, 1.0);
    if m[12] != 0.0 && sx != 1.0 {
      assert Mul(m, Diag(sx, 1.0, 1.0, 1.0))[12] != ScaledColumn(m, 0, sx)[12];
    }
  }

}
