/**
 * The shape every procedural generator returns, and the index patterns they share.
 *
 * A generator fills a vertex buffer of six floats per vertex (x, y, z, r, g, b) and an
 * index list read three at a time as triangles. Here one pushed vertex is one `Vertex`;
 * `Flatten` is the interleaved Float32Array view. The nested loops that the generators
 * run to push a ring-major grid of vertices, the two-triangle quads between neighbouring
 * rings, triangle fans and the two-sided back copy are written once below as methods,
 * each proved equal to a specification function; the lemmas give counts, index formulas
 * and index ranges of those functions.
 */
module Mesh {
  import opened Vectors

  datatype Vertex = Vertex(pos: Vec3, color: Vec3)

  /** The `{ vertices, faces }` object a generator returns. */
  datatype Geometry = Geometry(vertices: seq<Vertex>, faces: seq<nat>)

  /** The interleaved buffer [x, y, z, r, g, b, ...] that is uploaded to the GPU. */
  function Flatten(vs: seq<Vertex>): (r: seq<real>)
    ensures |r| == 6 * |vs|
    ensures forall k :: 0 <= k < |vs| ==>
      && r[6 * k] == vs[k].pos.x && r[6 * k + 1] == vs[k].pos.y && r[6 * k + 2] == vs[k].pos.z
      && r[6 * k + 3] == vs[k].color.x && r[6 * k + 4] == vs[k].color.y && r[6 * k + 5] == vs[k].color.z
  {
    if vs == [] then []
    else
      var v := vs[|vs| - 1];
      Flatten(vs[..|vs| - 1]) + [v.pos.x, v.pos.y, v.pos.z, v.color.x, v.color.y, v.color.z]
  }

  /** Every index names an existing vertex. */
  predicate InRange(faces: seq<nat>, n: nat)
  {
    forall k :: 0 <= k < |faces| ==> faces[k] < n
  }

  /** Every index lies in the block [lo, hi). */
  predicate Within(faces: seq<nat>, lo: nat, hi: nat)
  {
    forall k :: 0 <= k < |faces| ==> lo <= faces[k] < hi
  }

  predicate AllColored(vs: seq<Vertex>, c: Vec3)
  {
    forall k :: 0 <= k < |vs| ==> vs[k].color == c
  }

  lemma WithinConcat(a: seq<nat>, b: seq<nat>, lo: nat, hi: nat)
    requires Within(a, lo, hi) && Within(b, lo, hi)
    ensures Within(a + b, lo, hi)
  {
  }

  /** A block of faces within [lo, n) appended to faces below n keeps every index below n. */
  lemma InRangeJoin(a: seq<nat>, b: seq<nat>, lo: nat, n: nat)
    requires InRange(a, n) && Within(b, lo, n)
    ensures InRange(a + b, n)
  {
    assert forall k :: |a| <= k < |a + b| ==> (a + b)[k] == b[k - |a|];
  }

  lemma InRangeWiden(a: seq<nat>, n: nat, n': nat)
    requires InRange(a, n) && n <= n'
    ensures InRange(a, n')
  {
  }

  lemma WithinWiden(a: seq<nat>, lo: nat, hi: nat, lo': nat, hi': nat)
    requires Within(a, lo, hi) && lo' <= lo && hi <= hi'
    ensures Within(a, lo', hi')
  {
  }

  /** What `new Uint16Array(faces)` stores: each index reduced modulo 2^16. */
  function Uint16Array(faces: seq<nat>): (r: seq<nat>)
    ensures |r| == |faces|
  {
    seq(|faces|, k requires 0 <= k < |faces| => faces[k] % 65536)
  }

  /** With at most 65536 vertices the Uint16 conversion loses nothing. */
  lemma Uint16Lossless(faces: seq<nat>, n: nat)
    requires InRange(faces, n) && n <= 65536
    ensures Uint16Array(faces) == faces
  {
    assert forall k :: 0 <= k < |faces| ==> Uint16Array(faces)[k] == faces[k];
  }

  /** A reduced index is still below the vertex count, whatever that count is. */
  lemma Uint16InRange(faces: seq<nat>, n: nat)
    requires InRange(faces, n)
    ensures InRange(Uint16Array(faces), n)
  {
    forall k | 0 <= k < |faces|
      ensures Uint16Array(faces)[k] < n
    {
      assert faces[k] % 65536 <= faces[k];
    }
  }

  // ---------------------------------------------------------------- vertex grids

  /** Ring i of a grid: `width` vertices f(i, 0), ..., f(i, width-1). */
  function Ring(i: nat, width: nat, f: (nat, nat) -> Vertex): (vs: seq<Vertex>)
    ensures |vs| == width
  {
    seq(width, (j: int) requires 0 <= j < width => f(i, j))
  }

  /** `rings` rings of `width` vertices pushed ring by ring: vertex (i, j) lands at i*width + j. */
  function Grid(rings: nat, width: nat, f: (nat, nat) -> Vertex): (vs: seq<Vertex>)
    ensures |vs| == rings * width
    decreases rings
  {
    if rings == 0 then []
    else Grid(rings - 1, width, f) + Ring(rings - 1, width, f)
  }

  lemma MulMonotone(a: nat, b: nat, w: nat)
    requires a <= b
    ensures a * w <= b * w
  {
  }

  /** The index formula of a grid. */
  lemma {:induction false} GridAt(rings: nat, width: nat, f: (nat, nat) -> Vertex, i: nat, j: nat)
    requires i < rings && j < width
    ensures i * width + j < rings * width
    ensures Grid(rings, width, f)[i * width + j] == f(i, j)
    decreases rings
  {
    if i == rings - 1 {
      assert i * width + j == (rings - 1) * width + j;
    } else {
      GridAt(rings - 1, width, f, i, j);
      MulMonotone(rings - 1, rings, width);
    }
  }

  /** A property every f(i, j) has is shared by every vertex of the grid. */
  lemma {:induction false} GridAll(rings: nat, width: nat, f: (nat, nat) -> Vertex, P: Vertex -> bool)
    requires forall i: nat, j: nat :: i < rings && j < width ==> P(f(i, j))
    ensures forall k :: 0 <= k < |Grid(rings, width, f)| ==> P(Grid(rings, width, f)[k])
    decreases rings
  {
    if rings > 0 {
      GridAll(rings - 1, width, f, P);
      var g := Grid(rings, width, f);
      var prev := Grid(rings - 1, width, f);
      forall k | 0 <= k < |g|
        ensures P(g[k])
      {
        if k >= |prev| {
          assert g[k] == f(rings - 1, k - |prev|);
        } else {
          assert g[k] == prev[k];
        }
      }
    }
  }

  /** A grid in which every f(i, j) has colour c is uniformly coloured. */
  lemma GridColored(rings: nat, width: nat, f: (nat, nat) -> Vertex, c: Vec3)
    requires forall i: nat, j: nat :: i < rings && j < width ==> f(i, j).color == c
    ensures AllColored(Grid(rings, width, f), c)
  {
    GridAll(rings, width, f, (v: Vertex) => v.color == c);
  }

  /** The nested `for` loops of the generators, pushing ring after ring onto `vs`. */
  method AppendGrid(vs: seq<Vertex>, rings: nat, width: nat, f: (nat, nat) -> Vertex) returns (out: seq<Vertex>)
    ensures out == vs + Grid(rings, width, f)
  {
    out := vs;
    for i := 0 to rings
      invariant out == vs + Grid(i, width, f)
    {
      out := AppendRing(out, i, width, f);
    }
  }

  /** The inner loop: vertices f(i, 0), ..., f(i, width-1) pushed onto `vs`. */
  method AppendRing(vs: seq<Vertex>, i: nat, width: nat, f: (nat, nat) -> Vertex) returns (out: seq<Vertex>)
    ensures out == vs + Ring(i, width, f)
  {
    out := vs;
    for j := 0 to width
      invariant out == vs + Ring(i, width, f)[..j]
    {
      assert Ring(i, width, f)[..j + 1] == Ring(i, width, f)[..j] + [f(i, j)];
      out := out + [f(i, j)];
    }
    assert Ring(i, width, f)[..width] == Ring(i, width, f);
  }

  // ---------------------------------------------------------------- quads between rings

  /**
   * The three two-triangle splittings of the quad whose corner is `first`, where the
   * vertex straight across in the next ring is `second = first + ring`.
   */
  datatype Winding =
    | RingFirst   // (first, second, first+1), (second, second+1, first+1)
    | Diagonal    // (first, first+1, second+1), (first, second+1, second)
    | Strip       // (first, second, first+1), (first+1, second, second+1)

  function Quad(w: Winding, first: nat, ring: nat): (q: seq<nat>)
    ensures |q| == 6
  {
    var second := first + ring;
    match w
    case RingFirst => [first, second, first + 1, second, second + 1, first + 1]
    case Diagonal => [first, first + 1, second + 1, first, second + 1, second]
    case Strip => [first, second, first + 1, first + 1, second, second + 1]
  }

  lemma QuadWithin(w: Winding, first: nat, ring: nat)
    ensures Within(Quad(w, first, ring), first, first + ring + 2)
  {
  }

  /** The quads of one ring: corners start, start+1, ..., start+cols-1. */
  function RowFaces(w: Winding, start: nat, cols: nat, ring: nat): (fs: seq<nat>)
    ensures |fs| == 6 * cols
    decreases cols
  {
    if cols == 0 then []
    else RowFaces(w, start, cols - 1, ring) + Quad(w, start + cols - 1, ring)
  }

  /**
   * The face list of a (rows+1) x (cols+1) vertex grid whose first vertex is `base`:
   * the quads of ring 0, then those of the rings after it: ring i starts at index
   * 6*(i*cols) and has corner base + i*(cols+1) (lemma GridFacesRing), and quad j of a
   * ring sits at index 6*j within it (lemma RowFacesAt).
   */
  function GridFaces(w: Winding, rows: nat, cols: nat, base: nat): (fs: seq<nat>)
    decreases rows
  {
    if rows == 0 then []
    else RowFaces(w, base, cols, cols + 1) + GridFaces(w, rows - 1, cols, base + cols + 1)
  }

  lemma MulSucc(a: nat, b: nat)
    ensures a * b + b == (a + 1) * b
    ensures 6 * (a * b) + 6 * b == 6 * ((a + 1) * b)
  {
  }

  lemma {:induction false} GridFacesLength(w: Winding, rows: nat, cols: nat, base: nat)
    ensures |GridFaces(w, rows, cols, base)| == 6 * (rows * cols)
    decreases rows
  {
    if rows > 0 {
      GridFacesLength(w, rows - 1, cols, base + cols + 1);
      MulSucc(rows - 1, cols);
    }
  }

  lemma {:induction false} RowFacesAt(w: Winding, start: nat, cols: nat, ring: nat, j: nat, o: nat)
    requires j < cols && o < 6
    ensures RowFaces(w, start, cols, ring)[6 * j + o] == Quad(w, start + j, ring)[o]
    decreases cols
  {
    if j < cols - 1 {
      RowFacesAt(w, start, cols - 1, ring, j, o);
    }
  }

  lemma {:induction false} RowFacesWithin(w: Winding, start: nat, cols: nat, ring: nat)
    ensures Within(RowFaces(w, start, cols, ring), start, start + cols + ring + 1)
    decreases cols
  {
    if cols > 0 {
      RowFacesWithin(w, start, cols - 1, ring);
      WithinWiden(RowFaces(w, start, cols - 1, ring), start, start + cols - 1 + ring + 1, start, start + cols + ring + 1);
      QuadWithin(w, start + cols - 1, ring);
      WithinConcat(RowFaces(w, start, cols - 1, ring), Quad(w, start + cols - 1, ring), start, start + cols + ring + 1);
    }
  }

  /** Ring i of a grid's faces sits after the 6*(i*cols) indices of the rings before it. */
  lemma GridFacesRing(w: Winding, rows: nat, cols: nat, base: nat, i: nat)
    requires i < rows
    ensures |GridFaces(w, i, cols, base)| == 6 * (i * cols)
    ensures GridFaces(w, rows, cols, base)
         == GridFaces(w, i, cols, base)
          + (RowFaces(w, base + i * (cols + 1), cols, cols + 1)
             + GridFaces(w, rows - i - 1, cols, base + i * (cols + 1) + cols + 1))
  {
    MulNonNegative(i, cols + 1);
    GridFacesSplit(w, i, rows, cols, base, rows - i, base + i * (cols + 1));
    GridFacesLength(w, i, cols, base);
  }

  lemma ConcatAssoc(a: seq<nat>, b: seq<nat>, c: seq<nat>)
    ensures (a + b) + c == a + (b + c)
  {
  }


  /** Every index of a grid's faces lies inside that grid's (rows+1)*(cols+1) vertices. */
  lemma GridFacesWithin(w: Winding, rows: nat, cols: nat, base: nat)
    ensures Within(GridFaces(w, rows, cols, base), base, base + (rows + 1) * (cols + 1))
  {
    GridFacesBelow(w, rows, cols, base, base + (rows + 1) * (cols + 1));
  }

  /** GridFacesWithin with the end of the grid's vertices as a plain number. */
  lemma {:induction false} GridFacesBelow(w: Winding, rows: nat, cols: nat, base: nat, top: nat)
    requires top == base + (rows + 1) * (cols + 1)
    ensures Within(GridFaces(w, rows, cols, base), base, top)
    decreases rows
  {
    if rows > 0 {
      MulSucc(rows, cols + 1);
      MulSucc(rows - 1, cols + 1);
      MulNonNegative(rows - 1, cols + 1);
      RowFacesWithin(w, base, cols, cols + 1);
      WithinWiden(RowFaces(w, base, cols, cols + 1), base, base + cols + (cols + 1) + 1, base, top);
      GridFacesBelow(w, rows - 1, cols, base + cols + 1, top);
      WithinWiden(GridFaces(w, rows - 1, cols, base + cols + 1), base + cols + 1, top, base, top);
      WithinConcat(RowFaces(w, base, cols, cols + 1), GridFaces(w, rows - 1, cols, base + cols + 1), base, top);
    }
  }


  /** Two grids stacked ring to ring are one grid: the first a rings, then the other n − a, a rings later. */
  lemma {:induction false} GridFacesSplit(w: Winding, a: nat, n: nat, cols: nat, base: nat, rest: nat, top: nat)
    requires a + rest == n && top == base + a * (cols + 1)
    ensures GridFaces(w, n, cols, base) == GridFaces(w, a, cols, base) + GridFaces(w, rest, cols, top)
    decreases a
  {
    if a > 0 {
      MulSucc(a - 1, cols + 1);
      GridFacesSplit(w, a - 1, n - 1, cols, base + cols + 1, rest, top);
      ConcatAssoc(RowFaces(w, base, cols, cols + 1), GridFaces(w, a - 1, cols, base + cols + 1), GridFaces(w, rest, cols, top));
    }
  }

  /** One more ring of quads at the end, whose first corner is start: the shape of the generators' outer loop. */
  lemma GridFacesSnoc(w: Winding, rows: nat, cols: nat, base: nat, start: nat)
    requires start == base + rows * (cols + 1)
    ensures GridFaces(w, rows + 1, cols, base) == GridFaces(w, rows, cols, base) + RowFaces(w, start, cols, cols + 1)
  {
    GridFacesSplit(w, rows, rows + 1, cols, base, 1, start);
    assert GridFaces(w, 1, cols, start) == RowFaces(w, start, cols, cols + 1) + [];
    assert RowFaces(w, start, cols, cols + 1) + [] == RowFaces(w, start, cols, cols + 1);
  }

  lemma MulNonNegative(a: nat, b: nat)
    ensures a * b >= 0
  {
  }

  /** The inner faces loop: one quad per column of the ring starting at `start`. */
  method AppendRowFaces(faces: seq<nat>, w: Winding, start: nat, cols: nat, ring: nat) returns (out: seq<nat>)
    ensures out == faces + RowFaces(w, start, cols, ring)
  {
    out := faces;
    for j := 0 to cols
      invariant out == faces + RowFaces(w, start, j, ring)
    {
      assert RowFaces(w, start, j + 1, ring) == RowFaces(w, start, j, ring) + Quad(w, start + j, ring);
      out := out + Quad(w, start + j, ring);
      assert out == faces + (RowFaces(w, start, j, ring) + Quad(w, start + j, ring));
    }
  }

  /** The faces loops of the generators: for each ring, for each column, push one quad. */
  method AppendGridFaces(faces: seq<nat>, w: Winding, rows: nat, cols: nat, base: nat) returns (out: seq<nat>)
    ensures out == faces + GridFaces(w, rows, cols, base)
  {
    out := faces;
    for i := 0 to rows
      invariant out == faces + GridFaces(w, i, cols, base)
    {
      var start := base + i * (cols + 1);
      out := AppendRowFaces(out, w, start, cols, cols + 1);
      GridFacesSnoc(w, i, cols, base, start);
      ConcatAssoc(faces, GridFaces(w, i, cols, base), RowFaces(w, start, cols, cols + 1));
    }
  }

  // ---------------------------------------------------------------- grid meshes

  /** A loop count the source divides by. Zero (a NaN in JavaScript) is not modelled. */
  type Pos = n: nat | 0 < n witness 1

  /**
   * The mesh most generators build: rows+1 rings of cols+1 vertices pushed ring-major, then
   * one quad of winding w for every cell between neighbouring rings.
   */
  function GridMesh(w: Winding, rows: nat, cols: nat, f: (nat, nat) -> Vertex): Geometry
  {
    Geometry(Grid(rows + 1, cols + 1, f), GridFaces(w, rows, cols, 0))
  }

  /** (rows+1)(cols+1) vertices, 6·rows·cols indices, every index naming one of those vertices. */
  lemma GridMeshShape(w: Winding, rows: nat, cols: nat, f: (nat, nat) -> Vertex)
    ensures |GridMesh(w, rows, cols, f).vertices| == (rows + 1) * (cols + 1)
    ensures |GridMesh(w, rows, cols, f).faces| == 6 * (rows * cols)
    ensures InRange(GridMesh(w, rows, cols, f).faces, (rows + 1) * (cols + 1))
  {
    GridFacesLength(w, rows, cols, 0);
    GridFacesWithin(w, rows, cols, 0);
  }

  /** The two nested vertex loops followed by the two nested face loops. */
  method BuildGridMesh(w: Winding, rows: nat, cols: nat, f: (nat, nat) -> Vertex) returns (g: Geometry)
    ensures g == GridMesh(w, rows, cols, f)
  {
    var vs := AppendGrid([], rows + 1, cols + 1, f);
    var fs := AppendGridFaces([], w, rows, cols, 0);
    g := Geometry(vs, fs);
  }

  /** `{ vertices: new Float32Array(vertices), faces: new Uint16Array(faces) }`. */
  function Typed(g: Geometry): (r: Geometry)
    ensures r.vertices == g.vertices && |r.faces| == |g.faces|
  {
    Geometry(g.vertices, Uint16Array(g.faces))
  }

  /** The Uint16 conversion keeps indices in range, and loses nothing up to 65536 vertices. */
  lemma TypedFaces(g: Geometry)
    requires InRange(g.faces, |g.vertices|)
    ensures InRange(Typed(g).faces, |g.vertices|)
    ensures |g.vertices| <= 65536 ==> Typed(g).faces == g.faces
  {
    Uint16InRange(g.faces, |g.vertices|);
    if |g.vertices| <= 65536 {
      Uint16Lossless(g.faces, |g.vertices|);
    }
  }

  /** GridMeshShape for the Uint16 result: the faces are the grid's quads up to 65536 vertices. */
  lemma TypedGridShape(w: Winding, rows: nat, cols: nat, f: (nat, nat) -> Vertex)
    ensures |Typed(GridMesh(w, rows, cols, f)).vertices| == (rows + 1) * (cols + 1)
    ensures |Typed(GridMesh(w, rows, cols, f)).faces| == 6 * (rows * cols)
    ensures InRange(Typed(GridMesh(w, rows, cols, f)).faces, (rows + 1) * (cols + 1))
    ensures (rows + 1) * (cols + 1) <= 65536 ==> Typed(GridMesh(w, rows, cols, f)).faces == GridFaces(w, rows, cols, 0)
  {
    GridMeshShape(w, rows, cols, f);
    TypedFaces(GridMesh(w, rows, cols, f));
  }

  // ---------------------------------------------------------------- fans

  /**
   * Triangles (center, start+j, start+j+1) for j < n, or (center, start+j+1, start+j)
   * when `reversed`: the cap of a ring, wound one way or the other.
   */
  function Fan(center: nat, start: nat, n: nat, reversed: bool): (fs: seq<nat>)
    ensures |fs| == 3 * n
    decreases n
  {
    if n == 0 then []
    else
      var j := n - 1;
      Fan(center, start, n - 1, reversed)
        + (if reversed then [center, start + j + 1, start + j] else [center, start + j, start + j + 1])
  }

  /** Triangle j of a fan. */
  lemma {:induction false} FanAt(center: nat, start: nat, n: nat, reversed: bool, j: nat)
    requires j < n
    ensures Fan(center, start, n, reversed)[3 * j] == center
    ensures Fan(center, start, n, reversed)[3 * j + 1] == (if reversed then start + j + 1 else start + j)
    ensures Fan(center, start, n, reversed)[3 * j + 2] == (if reversed then start + j else start + j + 1)
    decreases n
  {
    if j < n - 1 {
      FanAt(center, start, n - 1, reversed, j);
    }
  }
  /** Triangle j of a fan, as the 3 indices from 3·j. */
  lemma FanTriangle(center: nat, start: nat, n: nat, reversed: bool, j: nat)
    requires j < n
    ensures Fan(center, start, n, reversed)[3 * j..3 * j + 3]
         == (if reversed then [center, start + j + 1, start + j] else [center, start + j, start + j + 1])
  {
    FanAt(center, start, n, reversed, j);
    var t := Fan(center, start, n, reversed)[3 * j..3 * j + 3];
    assert t[0] == center;
  }


  /** A fan touches only its centre and the rim vertices start .. start+n. */
  lemma {:induction false} FanWithin(center: nat, start: nat, n: nat, reversed: bool, lo: nat, hi: nat)
    requires lo <= center < hi && lo <= start && start + n < hi
    ensures Within(Fan(center, start, n, reversed), lo, hi)
    decreases n
  {
    if n > 0 {
      FanWithin(center, start, n - 1, reversed, lo, hi);
    }
  }

  /** The cap loop `for (j = 0; j < n; j++) faces.push(...)`. */
  method AppendFan(faces: seq<nat>, center: nat, start: nat, n: nat, reversed: bool) returns (out: seq<nat>)
    ensures out == faces + Fan(center, start, n, reversed)
  {
    out := faces;
    for j := 0 to n
      invariant out == faces + Fan(center, start, j, reversed)
    {
      if reversed {
        out := out + [center, start + j + 1, start + j];
      } else {
        out := out + [center, start + j, start + j + 1];
      }
    }
  }

  // ---------------------------------------------------------------- two-sided copies

  /** The copy of a vertex on the back side: same x, y and colour, z rewritten by `backZ`. */
  function Back(v: Vertex, backZ: real -> real): Vertex
  {
    Vertex(Vec3(v.pos.x, v.pos.y, backZ(v.pos.z)), v.color)
  }

  function Mirror(vs: seq<Vertex>, backZ: real -> real): (r: seq<Vertex>)
    ensures |r| == |vs|
    ensures forall k :: 0 <= k < |vs| ==> r[k] == Back(vs[k], backZ)
  {
    seq(|vs|, (k: int) requires 0 <= k < |vs| => Back(vs[k], backZ))
  }

  /** Position inside a triangle once its 2nd and 3rd corners are swapped. */
  function Swapped(k: nat): nat
  {
    k - k % 3 + (if k % 3 == 0 then 0 else 3 - k % 3)
  }

  /**
   * One back face per front face: each triangle (a, b, c) becomes (a+shift, c+shift, b+shift),
   * the opposite winding over the copied vertices.
   */
  function BackFaces(faces: seq<nat>, shift: nat): (r: seq<nat>)
    requires |faces| % 3 == 0
    ensures |r| == |faces|
  {
    seq(|faces|, (k: int) requires 0 <= k < |faces| => faces[Swapped(k)] + shift)
  }

  /** Triangle t of the back faces is triangle t of the front with 2nd and 3rd corner swapped. */
  lemma BackFacesAt(faces: seq<nat>, shift: nat, t: nat)
    requires |faces| % 3 == 0 && 3 * t < |faces|
    ensures BackFaces(faces, shift)[3 * t] == faces[3 * t] + shift
    ensures BackFaces(faces, shift)[3 * t + 1] == faces[3 * t + 2] + shift
    ensures BackFaces(faces, shift)[3 * t + 2] == faces[3 * t + 1] + shift
  {
    assert Swapped(3 * t) == 3 * t;
    assert Swapped(3 * t + 1) == 3 * t + 2;
    assert Swapped(3 * t + 2) == 3 * t + 1;
  }

  /** Back faces of faces inside [0, n) lie inside the copied block [n, 2n). */
  lemma BackFacesWithin(faces: seq<nat>, n: nat)
    requires |faces| % 3 == 0 && InRange(faces, n)
    ensures Within(BackFaces(faces, n), n, 2 * n)
  {
    forall k | 0 <= k < |faces|
      ensures n <= BackFaces(faces, n)[k] < 2 * n
    {
      assert Swapped(k) < |faces|;
    }
  }

  /**
   * The vertex loop of the two-sided branches: the count is read once, then every vertex
   * up to it is read back from the same growing buffer and pushed again.
   */
  method AppendMirror(vs: seq<Vertex>, backZ: real -> real) returns (out: seq<Vertex>)
    ensures out == vs + Mirror(vs, backZ)
  {
    out := vs;
    var baseCount := |out|;
    for i := 0 to baseCount
      invariant out == vs + Mirror(vs, backZ)[..i]
    {
      assert Mirror(vs, backZ)[..i + 1] == Mirror(vs, backZ)[..i] + [Back(out[i], backZ)];
      out := out + [Back(out[i], backZ)];
    }
    assert Mirror(vs, backZ)[..baseCount] == Mirror(vs, backZ);
  }

  /**
   * The face loop of the two-sided branches, with the bound snapshotted before the loop:
   * `for (i = 0; i < orig; i += 3) faces.push(faces[i]+bc, faces[i+2]+bc, faces[i+1]+bc)`.
   */
  method AppendBackFaces(faces: seq<nat>, shift: nat) returns (out: seq<nat>)
    requires |faces| % 3 == 0
    ensures out == faces + BackFaces(faces, shift)
  {
    out := faces;
    var orig := |out|;
    var i := 0;
    while i < orig
      invariant 0 <= i <= orig && i % 3 == 0
      invariant out == faces + BackFaces(faces, shift)[..i]
    {
      BackFacesAt(faces, shift, i / 3);
      assert BackFaces(faces, shift)[..i + 3]
          == BackFaces(faces, shift)[..i] + [out[i] + shift, out[i + 2] + shift, out[i + 1] + shift];
      out := out + [out[i] + shift, out[i + 2] + shift, out[i + 1] + shift];
      i := i + 3;
    }
    assert BackFaces(faces, shift)[..orig] == BackFaces(faces, shift);
  }

  /**
   * The two-sided branch: a back copy of every vertex, then one back face per front face
   * over the copies, both loops bounded by counts taken before they start.
   */
  function TwoSided(g: Geometry, backZ: real -> real): Geometry
    requires |g.faces| % 3 == 0
  {
    Geometry(g.vertices + Mirror(g.vertices, backZ), g.faces + BackFaces(g.faces, |g.vertices|))
  }

  method MakeTwoSided(g: Geometry, backZ: real -> real) returns (r: Geometry)
    requires |g.faces| % 3 == 0
    ensures r == TwoSided(g, backZ)
  {
    var baseCount := |g.vertices|;
    var vs := AppendMirror(g.vertices, backZ);
    var fs := AppendBackFaces(g.faces, baseCount);
    r := Geometry(vs, fs);
  }

  /**
   * Two-siding exactly doubles both buffers, keeps every index in range, and its second
   * half is the front half mirrored: vertex n+k is vertex k with z mapped by backZ, and the
   * back face of triangle t is triangle t shifted by n with its 2nd and 3rd corners swapped.
   */
  lemma TwoSidedShape(g: Geometry, backZ: real -> real)
    requires |g.faces| % 3 == 0 && InRange(g.faces, |g.vertices|)
    ensures |TwoSided(g, backZ).vertices| == 2 * |g.vertices|
    ensures |TwoSided(g, backZ).faces| == 2 * |g.faces|
    ensures InRange(TwoSided(g, backZ).faces, 2 * |g.vertices|)
    ensures TwoSided(g, backZ).vertices[..|g.vertices|] == g.vertices
    ensures TwoSided(g, backZ).faces[..|g.faces|] == g.faces
    ensures forall k :: 0 <= k < |g.vertices| ==> TwoSided(g, backZ).vertices[|g.vertices| + k] == Back(g.vertices[k], backZ)
    ensures forall t :: 0 <= t && 3 * t < |g.faces| ==>
      && TwoSided(g, backZ).faces[|g.faces| + 3 * t] == g.faces[3 * t] + |g.vertices|
      && TwoSided(g, backZ).faces[|g.faces| + 3 * t + 1] == g.faces[3 * t + 2] + |g.vertices|
      && TwoSided(g, backZ).faces[|g.faces| + 3 * t + 2] == g.faces[3 * t + 1] + |g.vertices|
  {
    var n := |g.vertices|;
    BackFacesWithin(g.faces, n);
    InRangeWiden(g.faces, n, 2 * n);
    WithinWiden(BackFaces(g.faces, n), n, 2 * n, 0, 2 * n);
    InRangeJoin(g.faces, BackFaces(g.faces, n), 0, 2 * n);
    forall t | 0 <= t && 3 * t < |g.faces|
      ensures TwoSided(g, backZ).faces[|g.faces| + 3 * t] == g.faces[3 * t] + n
      ensures TwoSided(g, backZ).faces[|g.faces| + 3 * t + 1] == g.faces[3 * t + 2] + n
      ensures TwoSided(g, backZ).faces[|g.faces| + 3 * t + 2] == g.faces[3 * t + 1] + n
    {
      BackFacesAt(g.faces, n, t);
    }
  }

  // ---------------------------------------------------------------- winding

  /** The z component of (b − a) × (c − a): negative when a, b, c turn clockwise seen from +z. */
  function Turn(a: Vec3, b: Vec3, c: Vec3): real
  {
    (b.x - a.x) * (c.y - a.y) - (b.y - a.y) * (c.x - a.x)
  }

  /** Triangle t of `faces` exists and its three corners name vertices of `vs`. */
  predicate HasTriangle(vs: seq<Vertex>, faces: seq<nat>, t: nat)
  {
    3 * t + 2 < |faces| && faces[3 * t] < |vs| && faces[3 * t + 1] < |vs| && faces[3 * t + 2] < |vs|
  }

  /** The turn of triangle t of `faces` over `vs`. */
  function TriangleTurn(vs: seq<Vertex>, faces: seq<nat>, t: nat): real
    requires HasTriangle(vs, faces, t)
  {
    Turn(vs[faces[3 * t]].pos, vs[faces[3 * t + 1]].pos, vs[faces[3 * t + 2]].pos)
  }

  /** Swapping the last two corners reverses the turn. */
  lemma TurnSwap(a: Vec3, b: Vec3, c: Vec3)
    ensures Turn(a, c, b) == -Turn(a, b, c)
  {
  }

  /**
   * The back copy keeps x and y and swaps two corners of every triangle, so back triangle t
   * (triangle count + t of the result) turns the other way from front triangle t, whatever
   * backZ does to z.
   */
  lemma TwoSidedTurn(g: Geometry, backZ: real -> real, count: nat, t: nat)
    requires |g.faces| == 3 * count && InRange(g.faces, |g.vertices|) && t < count
    ensures HasTriangle(g.vertices, g.faces, t)
    ensures HasTriangle(TwoSided(g, backZ).vertices, TwoSided(g, backZ).faces, count + t)
    ensures TriangleTurn(TwoSided(g, backZ).vertices, TwoSided(g, backZ).faces, count + t)
         == -TriangleTurn(g.vertices, g.faces, t)
  {
    var n := |g.vertices|;
    var a, b, c := g.faces[3 * t], g.faces[3 * t + 1], g.faces[3 * t + 2];
    assert a < n && b < n && c < n;
    BackCorners(g.faces, n, count, t);
    MirrorAt(g.vertices, backZ, a);
    MirrorAt(g.vertices, backZ, b);
    MirrorAt(g.vertices, backZ, c);
    BackTurn(g.vertices[a], g.vertices[b], g.vertices[c], backZ);
  }

  lemma MirrorAt(vs: seq<Vertex>, backZ: real -> real, k: nat)
    requires k < |vs|
    ensures |vs| + k < |vs + Mirror(vs, backZ)|
    ensures (vs + Mirror(vs, backZ))[|vs| + k] == Back(vs[k], backZ)
  {
  }

  /** The corners of back triangle t, read through the concatenation. */
  lemma BackCorners(faces: seq<nat>, n: nat, count: nat, t: nat)
    requires |faces| == 3 * count && t < count
    ensures (faces + BackFaces(faces, n))[3 * (count + t)] == faces[3 * t] + n
    ensures (faces + BackFaces(faces, n))[3 * (count + t) + 1] == faces[3 * t + 2] + n
    ensures (faces + BackFaces(faces, n))[3 * (count + t) + 2] == faces[3 * t + 1] + n
  {
    BackFacesAt(faces, n, t);
  }

  lemma BackTurn(a: Vertex, b: Vertex, c: Vertex, backZ: real -> real)
    ensures Turn(Back(a, backZ).pos, Back(c, backZ).pos, Back(b, backZ).pos) == -Turn(a.pos, b.pos, c.pos)
  {
    TurnSwap(a.pos, b.pos, c.pos);
  }

  // ---------------------------------------------------------------- slices of concatenations

  /** A slice inside the left operand of a concatenation. */
  lemma SliceLeft<T>(a: seq<T>, b: seq<T>, lo: nat, hi: nat)
    requires lo <= hi <= |a|
    ensures (a + b)[lo..hi] == a[lo..hi]
  {
  }

  /** A slice inside the right operand of a concatenation, shifted by the left one's length. */
  lemma SliceRight<T>(a: seq<T>, b: seq<T>, lo: nat, hi: nat)
    requires lo <= hi <= |b|
    ensures (a + b)[|a| + lo..|a| + hi] == b[lo..hi]
  {
  }

  /**
   * SliceRight with the left operand's length passed as `off` and the slice as lo and a
   * length k, so that the slice bounds read off + lo and off + lo + k as a caller writes them.
   */
  lemma SliceAfter<T>(a: seq<T>, b: seq<T>, off: nat, lo: nat, k: nat)
    requires off == |a| && lo + k <= |b|
    ensures (a + b)[off + lo..off + lo + k] == b[lo..lo + k]
  {
  }

  /** The middle operand of a three-way concatenation. */
  lemma SliceMiddle<T>(a: seq<T>, b: seq<T>, c: seq<T>)
    ensures (a + b + c)[|a|..|a| + |b|] == b
  {
  }

  /** An element of the left operand of a concatenation. */
  lemma ConcatLeftAt<T>(a: seq<T>, b: seq<T>, k: nat)
    requires k < |a|
    ensures (a + b)[k] == a[k]
  {
  }

  /** An element of the right operand of a concatenation, shifted by the left one's length. */
  lemma ConcatRightAt<T>(a: seq<T>, b: seq<T>, off: nat, k: nat)
    requires off == |a| && k < |b|
    ensures off + k < |a + b| && (a + b)[off + k] == b[k]
  {
  }
}
