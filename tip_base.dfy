/**
 * getTipBaseFromVertices of Flygon/createFlygon.js (copied verbatim in Flygon/main.js): one
 * pass over an interleaved vertex buffer [x, y, z, r, g, b, ...] that keeps the position of
 * the lowest vertex (the tail tip) and of the highest (its base). minY and maxY start at
 * +Infinity and -Infinity, so both comparisons are with extended reals here.
 */
module TipBase {

  /** A JavaScript number that is not NaN: a real or one of the two infinities. */
  datatype Extended = NegInfinity | Finite(r: real) | PosInfinity

  predicate Below(x: real, e: Extended)
  {
    match e
    case NegInfinity => false
    case Finite(r) => x < r
    case PosInfinity => true
  }

  predicate Above(x: real, e: Extended)
  {
    match e
    case NegInfinity => true
    case Finite(r) => x > r
    case PosInfinity => false
  }

  /** The number of whole vertices in the buffer. */
  function Count(v: seq<real>): nat
  {
    |v| / 6
  }

  /** The y coordinate of vertex k: the float at offset 1 of its six. */
  function Y(v: seq<real>, k: nat): real
    requires k < Count(v)
  {
    v[6 * k + 1]
  }

  /** The position [x, y, z] of vertex k; the colour floats at offsets 3..5 are not read. */
  function Position(v: seq<real>, k: nat): (p: seq<real>)
    requires k < Count(v)
    ensures |p| == 3 && p[1] == Y(v, k)
  {
    [v[6 * k], v[6 * k + 1], v[6 * k + 2]]
  }

  /** Among the first n vertices, the first one with the least y. */
  function ArgMinY(v: seq<real>, n: nat): (a: nat)
    requires 0 < n <= Count(v)
    ensures a < n
    ensures forall k :: 0 <= k < n ==> Y(v, a) <= Y(v, k)
    ensures forall k :: 0 <= k < a ==> Y(v, a) < Y(v, k)
  {
    if n == 1 then 0
    else
      var a := ArgMinY(v, n - 1);
      if Y(v, n - 1) < Y(v, a) then n - 1 else a
  }

  /** Among the first n vertices, the first one with the greatest y. */
  function ArgMaxY(v: seq<real>, n: nat): (a: nat)
    requires 0 < n <= Count(v)
    ensures a < n
    ensures forall k :: 0 <= k < n ==> Y(v, k) <= Y(v, a)
    ensures forall k :: 0 <= k < a ==> Y(v, k) < Y(v, a)
  {
    if n == 1 then 0
    else
      var a := ArgMaxY(v, n - 1);
      if Y(v, n - 1) > Y(v, a) then n - 1 else a
  }

  /**
   * The scan. Both results are [0, 0, 0] for an empty buffer; otherwise tip is the position
   * of the first vertex with the least y and base that of the first with the greatest y.
   * The buffer is only read.
   */
  method TipBaseFromVertices(vtx: array<real>) returns (tip: seq<real>, base: seq<real>)
    requires vtx.Length % 6 == 0
    ensures Count(vtx[..]) == 0 ==> tip == [0.0, 0.0, 0.0] && base == [0.0, 0.0, 0.0]
    ensures Count(vtx[..]) > 0 ==> tip == Position(vtx[..], ArgMinY(vtx[..], Count(vtx[..])))
    ensures Count(vtx[..]) > 0 ==> base == Position(vtx[..], ArgMaxY(vtx[..], Count(vtx[..])))
  {
    ghost var v := vtx[..];
    var minY, maxY := PosInfinity, NegInfinity;
    tip, base := [0.0, 0.0, 0.0], [0.0, 0.0, 0.0];
    var i := 0;
    ghost var k := 0;
    while i < vtx.Length
      invariant 0 <= k <= Count(v) && i == 6 * k
      invariant minY == LeastY(v, k) && tip == TipSoFar(v, k)
      invariant maxY == GreatestY(v, k) && base == BaseSoFar(v, k)
    {
      VertexInBuffer(|v|, k);
      var x, y, z := vtx[i + 0], vtx[i + 1], vtx[i + 2];
      assert Position(v, k) == [x, y, z];
      LowStep(v, k);
      HighStep(v, k);
      if Below(y, minY) {
        minY := Finite(y);
        tip := [x, y, z];
      }
      if Above(y, maxY) {
        maxY := Finite(y);
        base := [x, y, z];
      }
      i := i + 6;
      k := k + 1;
    }
    VertexInBuffer(|v|, k);
  }

  /** minY after k vertices: +Infinity before any, then the least y seen. */
  function LeastY(v: seq<real>, k: nat): Extended
    requires k <= Count(v)
  {
    if k == 0 then PosInfinity else Finite(Y(v, ArgMinY(v, k)))
  }

  /** maxY after k vertices: -Infinity before any, then the greatest y seen. */
  function GreatestY(v: seq<real>, k: nat): Extended
    requires k <= Count(v)
  {
    if k == 0 then NegInfinity else Finite(Y(v, ArgMaxY(v, k)))
  }

  /** tip after k vertices: [0, 0, 0] before any, then the first lowest position. */
  function TipSoFar(v: seq<real>, k: nat): seq<real>
    requires k <= Count(v)
  {
    if k == 0 then [0.0, 0.0, 0.0] else Position(v, ArgMinY(v, k))
  }

  /** base after k vertices: [0, 0, 0] before any, then the first highest position. */
  function BaseSoFar(v: seq<real>, k: nat): seq<real>
    requires k <= Count(v)
  {
    if k == 0 then [0.0, 0.0, 0.0] else Position(v, ArgMaxY(v, k))
  }

  /** Vertex k becomes the tip exactly when its y is below the running minimum. */
  lemma LowStep(v: seq<real>, k: nat)
    requires k < Count(v)
    ensures Below(Y(v, k), LeastY(v, k)) ==> LeastY(v, k + 1) == Finite(Y(v, k)) && TipSoFar(v, k + 1) == Position(v, k)
    ensures !Below(Y(v, k), LeastY(v, k)) ==> LeastY(v, k + 1) == LeastY(v, k) && TipSoFar(v, k + 1) == TipSoFar(v, k)
  {
  }

  /** Vertex k becomes the base exactly when its y is above the running maximum. */
  lemma HighStep(v: seq<real>, k: nat)
    requires k < Count(v)
    ensures Above(Y(v, k), GreatestY(v, k)) ==> GreatestY(v, k + 1) == Finite(Y(v, k)) && BaseSoFar(v, k + 1) == Position(v, k)
    ensures !Above(Y(v, k), GreatestY(v, k)) ==> GreatestY(v, k + 1) == GreatestY(v, k) && BaseSoFar(v, k + 1) == BaseSoFar(v, k)
  {
  }

  /** In a buffer of whole vertices, vertex k starts before the end exactly when k < Count. */
  lemma VertexInBuffer(len: nat, k: nat)
    requires len % 6 == 0
    ensures 6 * k < len <==> k < len / 6
    ensures 6 * k < len ==> 6 * k + 5 < len
    ensures 6 * k >= len && k <= len / 6 ==> k == len / 6
  {
  }

  /**
   * What the tail-fin placement relies on: tip and base are vertices of the buffer, and every
   * vertex lies between them in y.
   */
  lemma TipBelowBase(v: seq<real>)
    requires Count(v) > 0
    ensures forall k :: 0 <= k < Count(v) ==>
      Position(v, ArgMinY(v, Count(v)))[1] <= Y(v, k) <= Position(v, ArgMaxY(v, Count(v)))[1]
    ensures exists k :: 0 <= k < Count(v) && Position(v, ArgMinY(v, Count(v))) == Position(v, k)
    ensures exists k :: 0 <= k < Count(v) && Position(v, ArgMaxY(v, Count(v))) == Position(v, k)
  {
    var lo, hi := ArgMinY(v, Count(v)), ArgMaxY(v, Count(v));
    assert Position(v, lo) == Position(v, lo) && Position(v, hi) == Position(v, hi);
  }

  /** With equal y everywhere, the first vertex is both tip and base: the comparisons are strict. */
  lemma FlatBufferPicksFirst(v: seq<real>)
    requires Count(v) > 0
    requires forall k :: 0 <= k < Count(v) ==> Y(v, k) == Y(v, 0)
    ensures ArgMinY(v, Count(v)) == 0 && ArgMaxY(v, Count(v)) == 0
  {
  }
}
