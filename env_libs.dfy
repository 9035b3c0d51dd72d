/**
 * The matrix library of the desert environment (`LIBS` in Environtment/libs.js).
 *
 * Same 16-entry row-major layout as the creature library, but a different set of
 * operations: rotations multiply the rotation matrix on the LEFT and copy the product
 * back into the array, `translate` and `scale` go through the product, and `set_I4`
 * guards against a missing or wrongly sized array. The specification functions are
 * those of Mat4; the lemmas relate both libraries.
 */
module EnvLibs {
  import opened JsMath
  import opened Vectors
  import opened Mat4
  import Libs

  /**
   * set_I4 returns undefined, touching nothing, unless it is given an array of 16
   * entries; then it writes the identity and returns that array. `null` stands for both
   * a falsy argument and the undefined result.
   */
  method SetI4(m: array?<real>) returns (r: array?<real>)
    modifies m
    ensures m == null || m.Length != 16 ==> r == null
    ensures m != null && m.Length != 16 ==> m[..] == old(m[..])
    ensures m != null && m.Length == 16 ==> r == m && m[..] == Identity()
  {
    if m == null || m.Length != 16 {
      return null;
    }
    forall k | 0 <= k < 16 {
      m[k] := Identity()[k];
    }
    r := m;
  }

  // ---------------------------------------------------------------- product

  /** multiply: a new array filled row by row, each entry summed in a local before it is stored. */
  method Multiply(a: array<real>, b: array<real>) returns (out: array<real>)
    requires a.Length == 16 && b.Length == 16
    ensures fresh(out) && out[..] == Mul(a[..], b[..])
  {
    out := new real[16];
    ghost var x, y := a[..], b[..];
    for r := 0 to 4
      invariant forall r', c' | 0 <= r' < r && 0 <= c' < 4 :: out[4 * r' + c'] == Entry(x, y, r', c')
    {
      for c := 0 to 4
        invariant forall r', c' | 0 <= r' < r && 0 <= c' < 4 :: out[4 * r' + c'] == Entry(x, y, r', c')
        invariant forall c' | 0 <= c' < c :: out[4 * r + c'] == Entry(x, y, r, c')
      {
        var s := RowTimesColumn(a, b, r, c);
        out[r * 4 + c] := s;
      }
    }
  }

  /** The k loop of multiply: `s += a[r*4+k]*b[k*4+c]` for k from 0 to 3, starting from 0. */
  method RowTimesColumn(a: array<real>, b: array<real>, r: nat, c: nat) returns (s: real)
    requires a.Length == 16 && b.Length == 16 && r < 4 && c < 4
    ensures s == Entry(a[..], b[..], r, c)
  {
    ghost var x, y := a[..], b[..];
    s := 0.0;
    for k := 0 to 4
      invariant s == PartialEntry(x, y, r, c, k)
    {
      PartialEntryStep(x, y, r, c, k, s, a[r * 4 + k], b[k * 4 + c]);
      s := s + a[r * 4 + k] * b[k * 4 + c];
    }
    PartialEntryComplete(x, y, r, c);
  }

  /** The closing loop of the rotations and of scaleInPlace: `for (i < 16) m[i] = res[i]`. */
  method CopyBack(m: array<real>, res: array<real>)
    requires m.Length == 16 && res.Length == 16 && m != res
    modifies m
    ensures m[..] == old(res[..])
  {
    for i := 0 to 16
      invariant res[..] == old(res[..])
      invariant m[..i] == res[..i]
    {
      m[i] := res[i];
    }
    assert m[..] == res[..16];
  }

  // ---------------------------------------------------------------- translation

  /** The identity with v in slots 12 to 14: the matrix translate multiplies by. */
  function TranslationMatrix(v: Vec3): (t: seq<real>)
    ensures IsMat(t) && SameExcept(Identity(), t, {12, 13, 14})
    ensures t[12] == v.x && t[13] == v.y && t[14] == v.z
  {
    Identity()[12 := v.x][13 := v.y][14 := v.z]
  }

  /** translate(m, v) returns multiply(m, T) in a new array; m is not modified. */
  method Translate(m: array<real>, v: Vec3) returns (r: array<real>)
    requires m.Length == 16
    ensures fresh(r) && r[..] == Mul(m[..], TranslationMatrix(v))
  {
    var t := Libs.GetI4();
    t[12], t[13], t[14] := v.x, v.y, v.z;
    assert t[..] == TranslationMatrix(v);
    r := Multiply(m, t);
  }

  /** Right-multiplying by T adds m[4i+3]·v to the first three entries of every row i. */
  lemma TranslationColumns(m: seq<real>, v: Vec3)
    requires IsMat(m)
    ensures Mul(m, TranslationMatrix(v))
         == [m[0] + m[3] * v.x, m[1] + m[3] * v.y, m[2] + m[3] * v.z, m[3],
             m[4] + m[7] * v.x, m[5] + m[7] * v.y, m[6] + m[7] * v.z, m[7],
             m[8] + m[11] * v.x, m[9] + m[11] * v.y, m[10] + m[11] * v.z, m[11],
             m[12] + m[15] * v.x, m[13] + m[15] * v.y, m[14] + m[15] * v.z, m[15]]
  {
    var p := Mul(m, TranslationMatrix(v));
    assert p[0] == m[0] + m[3] * v.x && p[1] == m[1] + m[3] * v.y && p[2] == m[2] + m[3] * v.z && p[3] == m[3];
    assert p[4] == m[4] + m[7] * v.x && p[5] == m[5] + m[7] * v.y && p[6] == m[6] + m[7] * v.z && p[7] == m[7];
    assert p[8] == m[8] + m[11] * v.x && p[9] == m[9] + m[11] * v.y && p[10] == m[10] + m[11] * v.z && p[11] == m[11];
    assert p[12] == m[12] + m[15] * v.x && p[13] == m[13] + m[15] * v.y && p[14] == m[14] + m[15] * v.z && p[15] == m[15];
  }

  /**
   * For an affine matrix (m[3] = m[7] = m[11] = 0, m[15] = 1) translate only adds v to
   * the translation slots: it is translateX, translateY and translateZ of the creature
   * library applied in turn.
   */
  lemma TranslateAffine(m: seq<real>, v: Vec3)
    requires IsMat(m) && m[3] == 0.0 && m[7] == 0.0 && m[11] == 0.0 && m[15] == 1.0
    ensures Mul(m, TranslationMatrix(v)) == m[12 := m[12] + v.x][13 := m[13] + v.y][14 := m[14] + v.z]
    ensures Mul(m, TranslationMatrix(v)) == Libs.Translated(Libs.Translated(Libs.Translated(m, 12, v.x), 13, v.y), 14, v.z)
  {
    TranslationColumns(m, v);
    var t := m[12 := m[12] + v.x][13 := m[13] + v.y][14 := m[14] + v.z];
    assert Mul(m, TranslationMatrix(v)) == t;
  }

  /**
   * translateX/Y/Z add v to slot 12, 13 or 14 and return the same array. The source
   * reads the slot as `m[k] || 0`; for a real entry that is the entry itself.
   */
  method TranslateX(m: array<real>, v: real) returns (r: array<real>)
    requires m.Length == 16
    modifies m
    ensures r == m && m[..] == Libs.Translated(old(m[..]), 12, v)
  {
    m[12] := m[12] + v;
    r := m;
  }

  method TranslateY(m: array<real>, v: real) returns (r: array<real>)
    requires m.Length == 16
    modifies m
    ensures r == m && m[..] == Libs.Translated(old(m[..]), 13, v)
  {
    m[13] := m[13] + v;
    r := m;
  }

  method TranslateZ(m: array<real>, v: real) returns (r: array<real>)
    requires m.Length == 16
    modifies m
    ensures r == m && m[..] == Libs.Translated(old(m[..]), 14, v)
  {
    m[14] := m[14] + v;
    r := m;
  }

  // ---------------------------------------------------------------- rotations from the left

  /** The `rot` arrays of rotateX, rotateY and rotateZ for (c, s) = (cos, sin) of the angle. */
  function RotXMatrix(c: real, s: real): (r: seq<real>)
    ensures IsMat(r)
  {
    [1.0, 0.0, 0.0, 0.0,
     0.0, c, s, 0.0,
     0.0, -s, c, 0.0,
     0.0, 0.0, 0.0, 1.0]
  }

  function RotYMatrix(c: real, s: real): (r: seq<real>)
    ensures IsMat(r)
  {
    [c, 0.0, -s, 0.0,
     0.0, 1.0, 0.0, 0.0,
     s, 0.0, c, 0.0,
     0.0, 0.0, 0.0, 1.0]
  }

  function RotZMatrix(c: real, s: real): (r: seq<real>)
    ensures IsMat(r)
  {
    [c, s, 0.0, 0.0,
     -s, c, 0.0, 0.0,
     0.0, 0.0, 1.0, 0.0,
     0.0, 0.0, 0.0, 1.0]
  }

  /** rotateX: m becomes rot·m, computed in a new array and copied back; m is returned. */
  method RotateX(m: array<real>, angle: real, math: Math) returns (r: array<real>)
    requires m.Length == 16
    modifies m
    ensures r == m && m[..] == Mul(RotXMatrix(math.cos(angle), math.sin(angle)), old(m[..]))
  {
    var c, s := math.cos(angle), math.sin(angle);
    var rot := new real[16](k requires 0 <= k < 16 => RotXMatrix(c, s)[k]);
    assert rot[..] == RotXMatrix(c, s);
    var res := Multiply(rot, m);
    CopyBack(m, res);
    r := m;
  }

  method RotateY(m: array<real>, angle: real, math: Math) returns (r: array<real>)
    requires m.Length == 16
    modifies m
    ensures r == m && m[..] == Mul(RotYMatrix(math.cos(angle), math.sin(angle)), old(m[..]))
  {
    var c, s := math.cos(angle), math.sin(angle);
    var rot := new real[16](k requires 0 <= k < 16 => RotYMatrix(c, s)[k]);
    assert rot[..] == RotYMatrix(c, s);
    var res := Multiply(rot, m);
    CopyBack(m, res);
    r := m;
  }

  method RotateZ(m: array<real>, angle: real, math: Math) returns (r: array<real>)
    requires m.Length == 16
    modifies m
    ensures r == m && m[..] == Mul(RotZMatrix(math.cos(angle), math.sin(angle)), old(m[..]))
  {
    var c, s := math.cos(angle), math.sin(angle);
    var rot := new real[16](k requires 0 <= k < 16 => RotZMatrix(c, s)[k]);
    assert rot[..] == RotZMatrix(c, s);
    var res := Multiply(rot, m);
    CopyBack(m, res);
    r := m;
  }

  /** rotateX from the left keeps rows 0 and 3 and turns rows 1 and 2 into each other by (c, s). */
  lemma RotXRows(m: seq<real>, c: real, s: real)
    requires IsMat(m)
    ensures Mul(RotXMatrix(c, s), m)
         == [m[0], m[1], m[2], m[3],
             c * m[4] + s * m[8], c * m[5] + s * m[9], c * m[6] + s * m[10], c * m[7] + s * m[11],
             -s * m[4] + c * m[8], -s * m[5] + c * m[9], -s * m[6] + c * m[10], -s * m[7] + c * m[11],
             m[12], m[13], m[14], m[15]]
  {
    XByColumn(m[0], m[4], m[8], m[12], c, s);
    XByColumn(m[1], m[5], m[9], m[13], c, s);
    XByColumn(m[2], m[6], m[10], m[14], c, s);
    XByColumn(m[3], m[7], m[11], m[15], c, s);
    var p := Mul(RotXMatrix(c, s), m);
    assert p[0] == m[0] && p[1] == m[1] && p[2] == m[2] && p[3] == m[3];
    assert p[4] == c * m[4] + s * m[8] && p[5] == c * m[5] + s * m[9] && p[6] == c * m[6] + s * m[10] && p[7] == c * m[7] + s * m[11];
    assert p[8] == -s * m[4] + c * m[8] && p[9] == -s * m[5] + c * m[9] && p[10] == -s * m[6] + c * m[10] && p[11] == -s * m[7] + c * m[11];
    assert p[12] == m[12] && p[13] == m[13] && p[14] == m[14] && p[15] == m[15];
  }

  /** Each row of the x rotation matrix times a column (b0, b1, b2, b3). */
  lemma XByColumn(b0: real, b1: real, b2: real, b3: real, c: real, s: real)
    ensures 1.0 * b0 + 0.0 * b1 + 0.0 * b2 + 0.0 * b3 == b0
    ensures 0.0 * b0 + c * b1 + s * b2 + 0.0 * b3 == c * b1 + s * b2
    ensures 0.0 * b0 + -s * b1 + c * b2 + 0.0 * b3 == -s * b1 + c * b2
    ensures 0.0 * b0 + 0.0 * b1 + 0.0 * b2 + 1.0 * b3 == b3
  {
  }

  /** rotateY from the left keeps rows 1 and 3 and turns rows 0 and 2. */
  lemma RotYRows(m: seq<real>, c: real, s: real)
    requires IsMat(m)
    ensures Mul(RotYMatrix(c, s), m)
         == [c * m[0] - s * m[8], c * m[1] - s * m[9], c * m[2] - s * m[10], c * m[3] - s * m[11],
             m[4], m[5], m[6], m[7],
             s * m[0] + c * m[8], s * m[1] + c * m[9], s * m[2] + c * m[10], s * m[3] + c * m[11],
             m[12], m[13], m[14], m[15]]
  {
    YByColumn(m[0], m[4], m[8], m[12], c, s);
    YByColumn(m[1], m[5], m[9], m[13], c, s);
    YByColumn(m[2], m[6], m[10], m[14], c, s);
    YByColumn(m[3], m[7], m[11], m[15], c, s);
    var p := Mul(RotYMatrix(c, s), m);
    assert p[0] == c * m[0] - s * m[8] && p[1] == c * m[1] - s * m[9] && p[2] == c * m[2] - s * m[10] && p[3] == c * m[3] - s * m[11];
    assert p[4] == m[4] && p[5] == m[5] && p[6] == m[6] && p[7] == m[7];
    assert p[8] == s * m[0] + c * m[8] && p[9] == s * m[1] + c * m[9] && p[10] == s * m[2] + c * m[10] && p[11] == s * m[3] + c * m[11];
    assert p[12] == m[12] && p[13] == m[13] && p[14] == m[14] && p[15] == m[15];
  }

  /** Each row of the y rotation matrix times a column (b0, b1, b2, b3). */
  lemma YByColumn(b0: real, b1: real, b2: real, b3: real, c: real, s: real)
    ensures c * b0 + 0.0 * b1 + -s * b2 + 0.0 * b3 == c * b0 - s * b2
    ensures 0.0 * b0 + 1.0 * b1 + 0.0 * b2 + 0.0 * b3 == b1
    ensures s * b0 + 0.0 * b1 + c * b2 + 0.0 * b3 == s * b0 + c * b2
    ensures 0.0 * b0 + 0.0 * b1 + 0.0 * b2 + 1.0 * b3 == b3
  {
  }

  /** rotateZ from the left keeps rows 2 and 3 and turns rows 0 and 1. */
  lemma RotZRows(m: seq<real>, c: real, s: real)
    requires IsMat(m)
    ensures Mul(RotZMatrix(c, s), m)
         == [c * m[0] + s * m[4], c * m[1] + s * m[5], c * m[2] + s * m[6], c * m[3] + s * m[7],
             -s * m[0] + c * m[4], -s * m[1] + c * m[5], -s * m[2] + c * m[6], -s * m[3] + c * m[7],
             m[8], m[9], m[10], m[11],
             m[12], m[13], m[14], m[15]]
  {
    ZByColumn(m[0], m[4], m[8], m[12], c, s);
    ZByColumn(m[1], m[5], m[9], m[13], c, s);
    ZByColumn(m[2], m[6], m[10], m[14], c, s);
    ZByColumn(m[3], m[7], m[11], m[15], c, s);
    var p := Mul(RotZMatrix(c, s), m);
    assert p[0] == c * m[0] + s * m[4] && p[1] == c * m[1] + s * m[5] && p[2] == c * m[2] + s * m[6] && p[3] == c * m[3] + s * m[7];
    assert p[4] == -s * m[0] + c * m[4] && p[5] == -s * m[1] + c * m[5] && p[6] == -s * m[2] + c * m[6] && p[7] == -s * m[3] + c * m[7];
    assert p[8] == m[8] && p[9] == m[9] && p[10] == m[10] && p[11] == m[11];
    assert p[12] == m[12] && p[13] == m[13] && p[14] == m[14] && p[15] == m[15];
  }

  /** Each row of the z rotation matrix times a column (b0, b1, b2, b3). */
  lemma ZByColumn(b0: real, b1: real, b2: real, b3: real, c: real, s: real)
    ensures c * b0 + s * b1 + 0.0 * b2 + 0.0 * b3 == c * b0 + s * b1
    ensures -s * b0 + c * b1 + 0.0 * b2 + 0.0 * b3 == -s * b0 + c * b1
    ensures 0.0 * b0 + 0.0 * b1 + 1.0 * b2 + 0.0 * b3 == b2
    ensures 0.0 * b0 + 0.0 * b1 + 0.0 * b2 + 1.0 * b3 == b3
  {
  }

  /** The rotation by (c, −s) is the inverse of the rotation by (c, s) when c² + s² = 1. */
  lemma RotXMatrixInverse(c: real, s: real)
    requires c * c + s * s == 1.0
    ensures Mul(RotXMatrix(c, -s), RotXMatrix(c, s)) == Identity()
  {
    RotXRows(RotXMatrix(c, s), c, -s);
    var p := Mul(RotXMatrix(c, -s), RotXMatrix(c, s));
    assert p[5] == c * c + s * s && p[6] == c * s - s * c;
    assert p[9] == s * c - c * s && p[10] == s * s + c * c;
    assert p == Identity();
  }

  /** With c² + s² = 1, rotating from the left by (c, s) and then by (c, −s) restores m. */
  lemma RotateXBack(m: seq<real>, c: real, s: real)
    requires IsMat(m) && c * c + s * s == 1.0
    ensures Mul(RotXMatrix(c, -s), Mul(RotXMatrix(c, s), m)) == m
  {
    MulAssoc(RotXMatrix(c, -s), RotXMatrix(c, s), m);
    RotXMatrixInverse(c, s);
    MulIdentityLeft(m);
  }

  /** Right-multiplying by the x rotation turns columns 1 and 2 of every row, in the creature library's operand order. */
  lemma RightRotX(m: seq<real>, c: real, s: real)
    requires IsMat(m)
    ensures Libs.RotX(m, c, s) == Mul(m, RotXMatrix(c, s))[13 := m[13]][14 := m[14]]
  {
    RowByX(m[0], m[1], m[2], m[3], c, s);
    RowByX(m[4], m[5], m[6], m[7], c, s);
    RowByX(m[8], m[9], m[10], m[11], c, s);
    RowByX(m[12], m[13], m[14], m[15], c, s);
    var p := Mul(m, RotXMatrix(c, s));
    assert p[0] == m[0] && p[1] == Libs.DiffProd(m[1], c, m[2], s) && p[2] == Libs.SumProd(m[2], c, m[1], s) && p[3] == m[3];
    assert p[4] == m[4] && p[5] == Libs.DiffProd(m[5], c, m[6], s) && p[6] == Libs.SumProd(m[6], c, m[5], s) && p[7] == m[7];
    assert p[8] == m[8] && p[9] == Libs.DiffProd(m[9], c, m[10], s) && p[10] == Libs.SumProd(m[10], c, m[9], s) && p[11] == m[11];
    assert p[12] == m[12] && p[13] == Libs.DiffProd(m[13], c, m[14], s) && p[14] == Libs.SumProd(m[14], c, m[13], s) && p[15] == m[15];
  }

  /** A row (a0, a1, a2, a3) times each column of the x rotation matrix. */
  lemma RowByX(a0: real, a1: real, a2: real, a3: real, c: real, s: real)
    ensures a0 * 1.0 + a1 * 0.0 + a2 * 0.0 + a3 * 0.0 == a0
    ensures a0 * 0.0 + a1 * c + a2 * -s + a3 * 0.0 == Libs.DiffProd(a1, c, a2, s)
    ensures a0 * 0.0 + a1 * s + a2 * c + a3 * 0.0 == Libs.SumProd(a2, c, a1, s)
    ensures a0 * 0.0 + a1 * 0.0 + a2 * 0.0 + a3 * 1.0 == a3
  {
  }

  /** Right-multiplying by the y rotation turns columns 0 and 2 of every row. */
  lemma RightRotY(m: seq<real>, c: real, s: real)
    requires IsMat(m)
    ensures Libs.RotY(m, c, s) == Mul(m, RotYMatrix(c, s))[12 := m[12]][14 := m[14]]
  {
    RowByY(m[0], m[1], m[2], m[3], c, s);
    RowByY(m[4], m[5], m[6], m[7], c, s);
    RowByY(m[8], m[9], m[10], m[11], c, s);
    RowByY(m[12], m[13], m[14], m[15], c, s);
    var p := Mul(m, RotYMatrix(c, s));
    assert p[0] == Libs.SumProd(c, m[0], s, m[2]) && p[1] == m[1] && p[2] == Libs.DiffProd(c, m[2], s, m[0]) && p[3] == m[3];
    assert p[4] == Libs.SumProd(c, m[4], s, m[6]) && p[5] == m[5] && p[6] == Libs.DiffProd(c, m[6], s, m[4]) && p[7] == m[7];
    assert p[8] == Libs.SumProd(c, m[8], s, m[10]) && p[9] == m[9] && p[10] == Libs.DiffProd(c, m[10], s, m[8]) && p[11] == m[11];
    assert p[12] == Libs.SumProd(c, m[12], s, m[14]) && p[13] == m[13] && p[14] == Libs.DiffProd(c, m[14], s, m[12]) && p[15] == m[15];
  }

  /** A row (a0, a1, a2, a3) times each column of the y rotation matrix. */
  lemma RowByY(a0: real, a1: real, a2: real, a3: real, c: real, s: real)
    ensures a0 * c + a1 * 0.0 + a2 * s + a3 * 0.0 == Libs.SumProd(c, a0, s, a2)
    ensures a0 * 0.0 + a1 * 1.0 + a2 * 0.0 + a3 * 0.0 == a1
    ensures a0 * -s + a1 * 0.0 + a2 * c + a3 * 0.0 == Libs.DiffProd(c, a2, s, a0)
    ensures a0 * 0.0 + a1 * 0.0 + a2 * 0.0 + a3 * 1.0 == a3
  {
  }

  /** Right-multiplying by the z rotation turns columns 0 and 1 of every row. */
  lemma RightRotZ(m: seq<real>, c: real, s: real)
    requires IsMat(m)
    ensures Libs.RotZ(m, c, s) == Mul(m, RotZMatrix(c, s))[12 := m[12]][13 := m[13]]
  {
    RowByZ(m[0], m[1], m[2], m[3], c, s);
    RowByZ(m[4], m[5], m[6], m[7], c, s);
    RowByZ(m[8], m[9], m[10], m[11], c, s);
    RowByZ(m[12], m[13], m[14], m[15], c, s);
    var p := Mul(m, RotZMatrix(c, s));
    assert p[0] == Libs.DiffProd(c, m[0], s, m[1]) && p[1] == Libs.SumProd(c, m[1], s, m[0]) && p[2] == m[2] && p[3] == m[3];
    assert p[4] == Libs.DiffProd(c, m[4], s, m[5]) && p[5] == Libs.SumProd(c, m[5], s, m[4]) && p[6] == m[6] && p[7] == m[7];
    assert p[8] == Libs.DiffProd(c, m[8], s, m[9]) && p[9] == Libs.SumProd(c, m[9], s, m[8]) && p[10] == m[10] && p[11] == m[11];
    assert p[12] == Libs.DiffProd(c, m[12], s, m[13]) && p[13] == Libs.SumProd(c, m[13], s, m[12]) && p[14] == m[14] && p[15] == m[15];
  }

  /** A row (a0, a1, a2, a3) times each column of the z rotation matrix. */
  lemma RowByZ(a0: real, a1: real, a2: real, a3: real, c: real, s: real)
    ensures a0 * c + a1 * -s + a2 * 0.0 + a3 * 0.0 == Libs.DiffProd(c, a0, s, a1)
    ensures a0 * s + a1 * c + a2 * 0.0 + a3 * 0.0 == Libs.SumProd(c, a1, s, a0)
    ensures a0 * 0.0 + a1 * 0.0 + a2 * 1.0 + a3 * 0.0 == a2
    ensures a0 * 0.0 + a1 * 0.0 + a2 * 0.0 + a3 * 1.0 == a3
  {
  }

  /**
   * The creature library's rotateX/Y/Z turn COLUMNS: each is the right product with the
   * environment library's rotation matrix, except that the translation row 3 is left alone.
   */
  lemma CreatureRotationsFromRight(m: seq<real>, c: real, s: real)
    requires IsMat(m)
    ensures Libs.RotX(m, c, s) == Mul(m, RotXMatrix(c, s))[13 := m[13]][14 := m[14]]
    ensures Libs.RotY(m, c, s) == Mul(m, RotYMatrix(c, s))[12 := m[12]][14 := m[14]]
    ensures Libs.RotZ(m, c, s) == Mul(m, RotZMatrix(c, s))[12 := m[12]][13 := m[13]]
  {
    RightRotX(m, c, s);
    RightRotY(m, c, s);
    RightRotZ(m, c, s);
  }

  /** The matrix whose only non-zero entry is a 1 at row 1, column 0. */
  function RowOneWitness(): (w: seq<real>)
    ensures IsMat(w)
  {
    Diag(0.0, 0.0, 0.0, 0.0)[4 := 1.0]
  }

  /**
   * For any non-zero sine the two libraries' rotations disagree: on RowOneWitness the
   * creature library (columns) and the environment library (rows) give different matrices.
   */
  lemma RotationSidesDiffer(c: real, s: real)
    requires s != 0.0
    ensures Libs.RotX(RowOneWitness(), c, s) != Mul(RotXMatrix(c, s), RowOneWitness())
    ensures Libs.RotY(RowOneWitness(), c, s) != Mul(RotYMatrix(c, s), RowOneWitness())
    ensures Libs.RotZ(RowOneWitness(), c, s) != Mul(RotZMatrix(c, s), RowOneWitness())
  {
    var w := RowOneWitness();
    RotXRows(w, c, s);
    RotYRows(w, c, s);
    RotZRows(w, c, s);
    assert Libs.RotX(w, c, s)[8] == 0.0 && Mul(RotXMatrix(c, s), w)[8] == -s;
    assert Libs.RotY(w, c, s)[6] == -s && Mul(RotYMatrix(c, s), w)[6] == 0.0;
    assert Libs.RotZ(w, c, s)[0] == 0.0 && Mul(RotZMatrix(c, s), w)[0] == s;
  }

  // ---------------------------------------------------------------- projections

  /**
   * The matrix perspective builds: f/aspect, f, (far+near)·nf, −1 and 2·far·near·nf at
   * 0, 5, 10, 11 and 14, zero elsewhere, where f = 1/tan(fovy/2) and nf = 1/(near − far).
   * JavaScript gives Infinity or NaN when tan(fovy/2), aspect or near − far is 0; the
   * model excludes those.
   */
  function PerspectiveMatrix(math: Math, fovy: real, aspect: real, near: real, far: real): (r: seq<real>)
    requires math.tan(fovy / 2.0) != 0.0 && aspect != 0.0 && near != far
    ensures IsMat(r) && SameExcept(Diag(0.0, 0.0, 0.0, 0.0), r, {0, 5, 10, 11, 14})
  {
    var f := 1.0 / math.tan(fovy / 2.0);
    var nf := 1.0 / (near - far);
    [f / aspect, 0.0, 0.0, 0.0,
     0.0, f, 0.0, 0.0,
     0.0, 0.0, (far + near) * nf, -1.0,
     0.0, 0.0, (2.0 * far * near) * nf, 0.0]
  }

  /** What the five entries mean: each times the quantity it was divided by gives back its numerator. */
  lemma PerspectiveEntries(math: Math, fovy: real, aspect: real, near: real, far: real)
    requires math.tan(fovy / 2.0) != 0.0 && aspect != 0.0 && near != far
    ensures var r := PerspectiveMatrix(math, fovy, aspect, near, far);
      && r[0] * aspect * math.tan(fovy / 2.0) == 1.0
      && r[5] * math.tan(fovy / 2.0) == 1.0
      && r[10] * (far - near) == -(far + near)
      && r[11] == -1.0
      && r[14] * (far - near) == -2.0 * far * near
  {
    Reciprocals(math.tan(fovy / 2.0), aspect);
    OverDifference(far + near, near, far);
    OverDifference(2.0 * far * near, near, far);
  }

  /** perspective fills a zero array and then stores the five non-zero entries. */
  method Perspective(fovy: real, aspect: real, near: real, far: real, math: Math) returns (out: array<real>)
    requires math.tan(fovy / 2.0) != 0.0 && aspect != 0.0 && near != far
    ensures fresh(out)
    ensures out[..] == PerspectiveMatrix(math, fovy, aspect, near, far)
  {
    var f := 1.0 / math.tan(fovy / 2.0);
    var nf := 1.0 / (near - far);
    out := new real[16];
    forall k | 0 <= k < 16 {
      out[k] := 0.0;
    }
    assert out[..] == Diag(0.0, 0.0, 0.0, 0.0);
    out[0] := f / aspect;
    out[5] := f;
    out[10] := (far + near) * nf;
    out[11] := -1.0;
    out[14] := (2.0 * far * near) * nf;
    assert out[..] == [f / aspect, 0.0, 0.0, 0.0, 0.0, f, 0.0, 0.0, 0.0, 0.0, (far + near) * nf, -1.0, 0.0, 0.0, (2.0 * far * near) * nf, 0.0];
    PerspectiveListed(math, fovy, aspect, near, far, f, nf);
  }

  /** PerspectiveMatrix entry by entry, for f and nf as perspective computes them. */
  lemma PerspectiveListed(math: Math, fovy: real, aspect: real, near: real, far: real, f: real, nf: real)
    requires math.tan(fovy / 2.0) != 0.0 && aspect != 0.0 && near != far
    requires f == 1.0 / math.tan(fovy / 2.0) && nf == 1.0 / (near - far)
    ensures PerspectiveMatrix(math, fovy, aspect, near, far)
         == [f / aspect, 0.0, 0.0, 0.0, 0.0, f, 0.0, 0.0, 0.0, 0.0, (far + near) * nf, -1.0, 0.0, 0.0, (2.0 * far * near) * nf, 0.0]
  {
    var p := PerspectiveMatrix(math, fovy, aspect, near, far);
    assert p[0] == f / aspect && p[5] == f;
    assert p[10] == (far + near) * nf && p[14] == (2.0 * far * near) * nf;
  }

  /** The algebra of f and f/aspect: multiplying back by what was divided out gives 1. */
  lemma Reciprocals(t: real, aspect: real)
    requires t != 0.0 && aspect != 0.0
    ensures (1.0 / t) * t == 1.0
    ensures (1.0 / t) / aspect * aspect * t == 1.0
  {
    var f := 1.0 / t;
    assert f / aspect * aspect == f;
  }

  /** The algebra of nf = 1/(near − far): x·nf times (far − near) is −x. */
  lemma OverDifference(x: real, near: real, far: real)
    requires near != far
    ensures x * (1.0 / (near - far)) * (far - near) == -x
  {
    var nf := 1.0 / (near - far);
    assert nf * (near - far) == 1.0;
    assert x * nf * (far - near) == -(x * (nf * (near - far)));
  }

  /** perspective maps the near plane z = −near to depth −1 and the far plane z = −far to +1. */
  lemma PerspectiveDepthRange(math: Math, fovy: real, aspect: real, near: real, far: real)
    requires math.tan(fovy / 2.0) != 0.0 && aspect != 0.0 && near != far
    requires near != 0.0 && far != 0.0
    ensures Libs.NdcDepth(PerspectiveMatrix(math, fovy, aspect, near, far), -near) == -1.0
    ensures Libs.NdcDepth(PerspectiveMatrix(math, fovy, aspect, near, far), -far) == 1.0
  {
    PerspectiveEntries(math, fovy, aspect, near, far);
    Libs.DepthRangeOf(PerspectiveMatrix(math, fovy, aspect, near, far), near, far);
  }

  /** A number is fixed by its product with a non-zero factor. */
  lemma CancelFactor(x: real, y: real, d: real)
    requires d != 0.0 && x * d == y * d
    ensures x == y
  {
    assert (x - y) * d == 0.0;
  }

  /**
   * perspective with fovy = degToRad(angle) and get_projection(angle, a, near, far) share
   * the depth entries 10, 11 and 14, but get_projection's x and y scales are half of
   * perspective's: it writes 0.5/tan where perspective writes 1/tan.
   */
  lemma PerspectiveVersusProjection(math: Math, angle: real, aspect: real, a: real, near: real, far: real)
    requires Libs.HalfFovTan(math, angle) != 0.0 && aspect != 0.0 && near != far
    ensures Libs.DegToRad(angle) / 2.0 == Libs.DegToRad(0.5 * angle)
    ensures var p, g := PerspectiveMatrix(math, Libs.DegToRad(angle), aspect, near, far), Libs.GetProjection(math, angle, a, near, far);
      && p[10] == g[10] && p[11] == g[11] && p[14] == g[14]
      && p[0] * aspect == 2.0 * g[0]
      && p[5] * a == 2.0 * g[5]
  {
    var fovy := Libs.DegToRad(angle);
    assert fovy / 2.0 == Libs.DegToRad(0.5 * angle);
    var t := math.tan(fovy / 2.0);
    var p, g := PerspectiveMatrix(math, fovy, aspect, near, far), Libs.GetProjection(math, angle, a, near, far);
    PerspectiveEntries(math, fovy, aspect, near, far);
    CancelFactor(p[10], g[10], far - near);
    CancelFactor(p[14], g[14], far - near);
    CancelFactor(p[0] * aspect, 2.0 * g[0], t);
    assert p[5] * a * t == a * (p[5] * t);
    assert 2.0 * g[5] * t == 2.0 * (g[5] * t);
    CancelFactor(p[5] * a, 2.0 * g[5], t);
  }

  /**
   * get_projection here computes the tangent of (angle·0.5)·PI/180, which is the creature
   * library's tangent of degToRad(0.5·angle); the matrix is the same one.
   */
  function GetProjection(math: Math, angle: real, a: real, zMin: real, zMax: real): (r: seq<real>)
    requires math.tan((angle * 0.5) * PI / 180.0) != 0.0 && zMax != zMin
    ensures Libs.HalfFovTan(math, angle) != 0.0
    ensures r == Libs.GetProjection(math, angle, a, zMin, zMax)
  {
    var ang := math.tan((angle * 0.5) * PI / 180.0);
    assert (angle * 0.5) * PI / 180.0 == Libs.DegToRad(0.5 * angle);
    [0.5 / ang, 0.0, 0.0, 0.0,
     0.0, 0.5 * a / ang, 0.0, 0.0,
     0.0, 0.0, -(zMax + zMin) / (zMax - zMin), -1.0,
     0.0, 0.0, (-2.0 * zMax * zMin) / (zMax - zMin), 0.0]
  }

  /** Math.hypot of three numbers. */
  function Hypot(math: Math, v: Vec3): real
  {
    math.sqrt(v.x * v.x + v.y * v.y + v.z * v.z)
  }

  /** The unit view direction of lookAt: eye − center divided by its length. */
  function ViewAxis(math: Math, eye: Vec3, center: Vec3): Vec3
    requires Hypot(math, Sub(eye, center)) != 0.0
  {
    var len := Hypot(math, Sub(eye, center));
    Vec3((eye.x - center.x) / len, (eye.y - center.y) / len, (eye.z - center.z) / len)
  }

  /** The unnormalised right axis of lookAt: up × z, written out as the source does. */
  function RightRaw(up: Vec3, z: Vec3): Vec3
  {
    Vec3(up.y * z.z - up.z * z.y, up.z * z.x - up.x * z.z, up.x * z.y - up.y * z.x)
  }

  /** The divisions in lookAt are by a vector length; the model requires both to be non-zero. */
  predicate LookAtDefined(math: Math, eye: Vec3, center: Vec3, up: Vec3)
  {
    && Hypot(math, Sub(eye, center)) != 0.0
    && Hypot(math, RightRaw(up, ViewAxis(math, eye, center))) != 0.0
  }

  /**
   * lookAt: the view matrix whose columns 0, 1 and 2 hold the right axis r, the up axis
   * v = z × r and the view axis z, and whose row 3 holds −(r·eye), −(v·eye), −(z·eye).
   */
  function LookAt(math: Math, eye: Vec3, center: Vec3, up: Vec3): (out: seq<real>)
    requires LookAtDefined(math, eye, center, up)
    ensures IsMat(out)
    ensures out[3] == 0.0 && out[7] == 0.0 && out[11] == 0.0 && out[15] == 1.0
  {
    var z := ViewAxis(math, eye, center);
    var x := RightRaw(up, z);
    var len := Hypot(math, x);
    var rx, ry, rz := x.x / len, x.y / len, x.z / len;
    var vx, vy, vz := z.y * rz - z.z * ry, z.z * rx - z.x * rz, z.x * ry - z.y * rx;
    [rx, vx, z.x, 0.0,
     ry, vy, z.y, 0.0,
     rz, vz, z.z, 0.0,
     -(rx * eye.x + ry * eye.y + rz * eye.z), -(vx * eye.x + vy * eye.y + vz * eye.z), -(z.x * eye.x + z.y * eye.y + z.z * eye.z), 1.0]
  }

  /** Column j of the upper 3x3 block. */
  function Column(m: seq<real>, j: nat): Vec3
    requires IsMat(m) && j < 3
  {
    Vec3(m[j], m[4 + j], m[8 + j])
  }

  /** The three axes of lookAt are pairwise orthogonal, whatever the two lengths turn out to be. */
  lemma LookAtAxes(math: Math, eye: Vec3, center: Vec3, up: Vec3, out: seq<real>)
    requires LookAtDefined(math, eye, center, up) && out == LookAt(math, eye, center, up)
    ensures Dot(Column(out, 0), Column(out, 2)) == 0.0
    ensures Dot(Column(out, 1), Column(out, 2)) == 0.0
    ensures Dot(Column(out, 1), Column(out, 0)) == 0.0
  {
    var z := ViewAxis(math, eye, center);
    var x := RightRaw(up, z);
    var len := Hypot(math, x);
    var r := Column(out, 0);
    assert Column(out, 2) == z;
    assert r == Vec3(x.x / len, x.y / len, x.z / len);
    assert x == Cross(up, z);
    CrossOrthogonal(up, z);
    DotDivided(x, z, len);
    assert Column(out, 1) == Cross(z, r);
    CrossOrthogonal(z, r);
  }

  /** Dividing one factor of a dot product by len divides the product by len. */
  lemma DotDivided(x: Vec3, z: Vec3, len: real)
    requires len != 0.0
    ensures Dot(Vec3(x.x / len, x.y / len, x.z / len), z) == Dot(x, z) / len
  {
    var k := 1.0 / len;
    assert x.x / len == k * x.x && x.y / len == k * x.y && x.z / len == k * x.z;
    assert Dot(Vec3(k * x.x, k * x.y, k * x.z), z) == k * Dot(x, z);
  }

  // ---------------------------------------------------------------- scale

  /** scale: multiply(m, S) with S the identity carrying sx, sy, sz on the diagonal; m is not modified. */
  method Scale(m: array<real>, sx: real, sy: real, sz: real) returns (r: array<real>)
    requires m.Length == 16
    ensures fresh(r) && r[..] == Mul(m[..], Diag(sx, sy, sz, 1.0))
  {
    var scaleMatrix := Libs.GetI4();
    scaleMatrix[0] := sx;
    scaleMatrix[5] := sy;
    scaleMatrix[10] := sz;
    assert scaleMatrix[..] == Diag(sx, sy, sz, 1.0);
    r := Multiply(m, scaleMatrix);
  }

  /** scaleInPlace writes all 16 entries of scale's product back into m and returns m. */
  method ScaleInPlace(m: array<real>, sx: real, sy: real, sz: real) returns (r: array<real>)
    requires m.Length == 16
    modifies m
    ensures r == m && m[..] == Mul(old(m[..]), Diag(sx, sy, sz, 1.0))
  {
    var scaled := Scale(m, sx, sy, sz);
    CopyBack(m, scaled);
    r := m;
  }
}
