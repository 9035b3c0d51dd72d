/**
 * 4x4 matrices as both matrix libraries store them: 16 numbers in row-major order,
 * entry (i, j) at index 4*i + j. This module holds the specification both libraries
 * are proved against: the identity, the product and the algebra of the product.
 */
module Mat4 {

  predicate IsMat(m: seq<real>)
  {
    |m| == 16
  }

  /** A value that is always a 4x4 matrix. */
  type Mat = m: seq<real> | IsMat(m) witness [1.0, 0.0, 0.0, 0.0, 0.0, 1.0, 0.0, 0.0, 0.0, 0.0, 1.0, 0.0, 0.0, 0.0, 0.0, 1.0]

  /** The identity: 1 at indices 0, 5, 10 and 15, 0 elsewhere. */
  function Identity(): (r: seq<real>)
    ensures IsMat(r)
  {
    [1.0, 0.0, 0.0, 0.0,
     0.0, 1.0, 0.0, 0.0,
     0.0, 0.0, 1.0, 0.0,
     0.0, 0.0, 0.0, 1.0]
  }

  /** The identity has 1 exactly on the diagonal, the indices divisible by 5. */
  lemma IdentityEntries()
    ensures forall k | 0 <= k < 16 :: Identity()[k] == if k % 5 == 0 then 1.0 else 0.0
  {
  }

  /** `r` agrees with `m` on every index outside `slots`: the slots an in-place update may touch. */
  predicate SameExcept(m: seq<real>, r: seq<real>, slots: set<int>)
    requires IsMat(m) && IsMat(r)
  {
    forall k | 0 <= k < 16 && k !in slots :: r[k] == m[k]
  }

  /** Row i of `a` times column j of `b`. */
  function Entry(a: seq<real>, b: seq<real>, i: nat, j: nat): real
    requires IsMat(a) && IsMat(b) && i < 4 && j < 4
  {
    a[4 * i] * b[j] + a[4 * i + 1] * b[4 + j] + a[4 * i + 2] * b[8 + j] + a[4 * i + 3] * b[12 + j]
  }

  /**
   * The sum after the first n terms of Entry, added left to right from 0: what the
   * accumulating inner loop of both `multiply` implementations holds after n steps.
   */
  function PartialEntry(a: seq<real>, b: seq<real>, i: nat, j: nat, n: nat): real
    requires IsMat(a) && IsMat(b) && i < 4 && j < 4 && n <= 4
  {
    if n == 0 then 0.0
    else PartialEntry(a, b, i, j, n - 1) + a[4 * i + (n - 1)] * b[4 * (n - 1) + j]
  }

  /** One step of the inner loop: adding term k, given as the two array entries it multiplies. */
  lemma PartialEntryStep(a: seq<real>, b: seq<real>, i: nat, j: nat, k: nat, acc: real, x: real, y: real)
    requires IsMat(a) && IsMat(b) && i < 4 && j < 4 && k < 4
    requires acc == PartialEntry(a, b, i, j, k) && x == a[4 * i + k] && y == b[4 * k + j]
    ensures PartialEntry(a, b, i, j, k + 1) == acc + x * y
  {
  }

  lemma PartialEntryComplete(a: seq<real>, b: seq<real>, i: nat, j: nat)
    requires IsMat(a) && IsMat(b) && i < 4 && j < 4
    ensures PartialEntry(a, b, i, j, 4) == Entry(a, b, i, j)
  {
    assert PartialEntry(a, b, i, j, 1) == a[4 * i] * b[j];
    assert PartialEntry(a, b, i, j, 2) == a[4 * i] * b[j] + a[4 * i + 1] * b[4 + j];
    assert PartialEntry(a, b, i, j, 3) == a[4 * i] * b[j] + a[4 * i + 1] * b[4 + j] + a[4 * i + 2] * b[8 + j];
  }

  /** The row-major product: entry 4i+j is the sum over k of a[4i+k] * b[4k+j], listed entry by entry. */
  function Mul(a: seq<real>, b: seq<real>): (r: seq<real>)
    requires IsMat(a) && IsMat(b)
    ensures IsMat(r)
  {
    [Entry(a, b, 0, 0), Entry(a, b, 0, 1), Entry(a, b, 0, 2), Entry(a, b, 0, 3),
     Entry(a, b, 1, 0), Entry(a, b, 1, 1), Entry(a, b, 1, 2), Entry(a, b, 1, 3),
     Entry(a, b, 2, 0), Entry(a, b, 2, 1), Entry(a, b, 2, 2), Entry(a, b, 2, 3),
     Entry(a, b, 3, 0), Entry(a, b, 3, 1), Entry(a, b, 3, 2), Entry(a, b, 3, 3)]
  }

  lemma MulAt(a: seq<real>, b: seq<real>, i: nat, j: nat)
    requires IsMat(a) && IsMat(b) && i < 4 && j < 4
    ensures Mul(a, b)[4 * i + j] == Entry(a, b, i, j)
  {
    assert (4 * i + j) / 4 == i && (4 * i + j) % 4 == j;
  }

  /** The diagonal matrix diag(x, y, z, w). */
  function Diag(x: real, y: real, z: real, w: real): (r: seq<real>)
    ensures IsMat(r)
  {
    [x, 0.0, 0.0, 0.0,
     0.0, y, 0.0, 0.0,
     0.0, 0.0, z, 0.0,
     0.0, 0.0, 0.0, w]
  }

  /** The identity is a left unit of the product. */
  lemma MulIdentityLeft(m: seq<real>)
    requires IsMat(m)
    ensures Mul(Identity(), m) == m
  {
    assert Mul(Identity(), m) == [m[0], m[1], m[2], m[3], m[4], m[5], m[6], m[7], m[8], m[9], m[10], m[11], m[12], m[13], m[14], m[15]];
  }

  /** The identity is a right unit of the product. */
  lemma MulIdentityRight(m: seq<real>)
    requires IsMat(m)
    ensures Mul(m, Identity()) == m
  {
    assert Mul(m, Identity()) == [m[0], m[1], m[2], m[3], m[4], m[5], m[6], m[7], m[8], m[9], m[10], m[11], m[12], m[13], m[14], m[15]];
  }

  /** The scalar identity behind associativity: a 16-term sum regrouped by rows and by columns. */
  lemma Regroup(a0: real, a1: real, a2: real, a3: real,
                b00: real, b01: real, b02: real, b03: real,
                b10: real, b11: real, b12: real, b13: real,
                b20: real, b21: real, b22: real, b23: real,
                b30: real, b31: real, b32: real, b33: real,
                c0: real, c1: real, c2: real, c3: real)
    ensures (a0 * b00 + a1 * b10 + a2 * b20 + a3 * b30) * c0
          + (a0 * b01 + a1 * b11 + a2 * b21 + a3 * b31) * c1
          + (a0 * b02 + a1 * b12 + a2 * b22 + a3 * b32) * c2
          + (a0 * b03 + a1 * b13 + a2 * b23 + a3 * b33) * c3
         == a0 * (b00 * c0 + b01 * c1 + b02 * c2 + b03 * c3)
          + a1 * (b10 * c0 + b11 * c1 + b12 * c2 + b13 * c3)
          + a2 * (b20 * c0 + b21 * c1 + b22 * c2 + b23 * c3)
          + a3 * (b30 * c0 + b31 * c1 + b32 * c2 + b33 * c3)
  {
  }

  /** Associativity of one entry, for any `ab` and `bc` whose row i and column j are those of the products. */
  lemma RegroupEntry(a: seq<real>, b: seq<real>, c: seq<real>, ab: seq<real>, bc: seq<real>, i: nat, j: nat)
    requires IsMat(a) && IsMat(b) && IsMat(c) && IsMat(ab) && IsMat(bc) && i < 4 && j < 4
    requires ab[4 * i] == Entry(a, b, i, 0) && ab[4 * i + 1] == Entry(a, b, i, 1)
    requires ab[4 * i + 2] == Entry(a, b, i, 2) && ab[4 * i + 3] == Entry(a, b, i, 3)
    requires bc[j] == Entry(b, c, 0, j) && bc[4 + j] == Entry(b, c, 1, j)
    requires bc[8 + j] == Entry(b, c, 2, j) && bc[12 + j] == Entry(b, c, 3, j)
    ensures Entry(ab, c, i, j) == Entry(a, bc, i, j)
  {
    Regroup(a[4 * i], a[4 * i + 1], a[4 * i + 2], a[4 * i + 3],
            b[0], b[1], b[2], b[3], b[4], b[5], b[6], b[7],
            b[8], b[9], b[10], b[11], b[12], b[13], b[14], b[15],
            c[j], c[4 + j], c[8 + j], c[12 + j]);
  }

  lemma MulAssocEntry(a: seq<real>, b: seq<real>, c: seq<real>, i: nat, j: nat)
    requires IsMat(a) && IsMat(b) && IsMat(c) && i < 4 && j < 4
    ensures Entry(Mul(a, b), c, i, j) == Entry(a, Mul(b, c), i, j)
  {
    MulAt(a, b, i, 0);
    MulAt(a, b, i, 1);
    MulAt(a, b, i, 2);
    MulAt(a, b, i, 3);
    MulAt(b, c, 0, j);
    MulAt(b, c, 1, j);
    MulAt(b, c, 2, j);
    MulAt(b, c, 3, j);
    RegroupEntry(a, b, c, Mul(a, b), Mul(b, c), i, j);
  }

  /** Over the reals the product is associative. */
  lemma MulAssoc(a: seq<real>, b: seq<real>, c: seq<real>)
    requires IsMat(a) && IsMat(b) && IsMat(c)
    ensures Mul(Mul(a, b), c) == Mul(a, Mul(b, c))
  {
    forall i, j | 0 <= i < 4 && 0 <= j < 4
      ensures Entry(Mul(a, b), c, i, j) == Entry(a, Mul(b, c), i, j)
    {
      MulAssocEntry(a, b, c, i, j);
    }
  }
}
