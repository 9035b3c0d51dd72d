/**
 * generateCurvedHorn_flat of Flygon/BodyParts/Head/FlygonHorn.js. Ring i (t = i/steps) is
 * a circle of `slices` vertices, with no repeated seam vertex, centred on the arc point
 * (sin(t·A)·length, (1 − cos(t·A))·length, 0) with A = 0.55·PI, lying in the plane y = const
 * and of radius radiusBase·(1 − t) + radiusTip·t. Neighbouring rings are joined by the
 * triangles (a, b, c), (b, d, c), where b and d take the next vertex round the ring modulo
 * `slices`. When radiusTip > 0.0001 a tip vertex on the last arc point closes the horn
 * with a fan. Indices are stored in a Uint16Array.
 */
module FlygonHorn {
  import opened JsMath
  import opened Vectors
  import opened Mesh

  const HornGreen: Vec3 := Vec3(102.0 / 255.0, 172.0 / 255.0, 85.0 / 255.0)
  const TipGreen: Vec3 := Vec3(50.0 / 255.0, 120.0 / 255.0, 50.0 / 255.0)

  /** The bend of the whole horn, 0.55·PI (81 degrees). */
  const ArcAngle: real := PI * 0.55

  /** The tip is closed only for a tip radius above this. */
  const TipThreshold: real := 0.0001

  function Param(steps: Pos, i: nat): real
  {
    i as real / steps as real
  }

  /** The arc point ring i is centred on. */
  function PathPoint(m: Math, length: real, steps: Pos, i: nat): Vec3
  {
    var angle := Param(steps, i) * ArcAngle;
    Vec3(m.sin(angle) * length, (1.0 - m.cos(angle)) * length, 0.0)
  }

  /** The linear taper of the ring radius. */
  function Radius(radiusBase: real, radiusTip: real, steps: Pos, i: nat): real
  {
    var t := Param(steps, i);
    radiusBase * (1.0 - t) + radiusTip * t
  }

  function Theta(slices: Pos, j: nat): real
  {
    (j as real / slices as real) * PI * 2.0
  }

  function HornVertex(m: Math, radiusBase: real, radiusTip: real, length: real, steps: Pos, slices: Pos,
                      i: nat, j: nat): Vertex
  {
    var p := PathPoint(m, length, steps, i);
    var r := Radius(radiusBase, radiusTip, steps, i);
    var cx, cz := m.cos(Theta(slices, j)) * r, m.sin(Theta(slices, j)) * r;
    Vertex(Vec3(p.x + cx, p.y, p.z + cz), HornGreen)
  }

  /** The tip vertex, on the arc point of the last ring. */
  function TipVertex(m: Math, length: real): Vertex
  {
    Vertex(Vec3(m.sin(ArcAngle) * length, (1.0 - m.cos(ArcAngle)) * length, 0.0), TipGreen)
  }

  // ---------------------------------------------------------------- faces

  /** The two triangles between vertex j of ring i and the next vertex round, on rings i and i+1. */
  function HornQuad(i: nat, j: nat, slices: Pos): seq<nat>
  {
    var nextJ := (j + 1) % slices;
    var a, b := i * slices + j, i * slices + nextJ;
    var c, d := (i + 1) * slices + j, (i + 1) * slices + nextJ;
    [a, b, c, b, d, c]
  }

  /** The first n quads between rings i and i+1. */
  function HornRow(i: nat, slices: Pos, n: nat): (fs: seq<nat>)
    ensures |fs| == 6 * n
  {
    if n == 0 then [] else HornRow(i, slices, n - 1) + HornQuad(i, n - 1, slices)
  }

  /** The quads between the first rows+1 rings. */
  function HornFaces(rows: nat, slices: Pos): (fs: seq<nat>)
    ensures |fs| == 6 * (rows * slices)
  {
    if rows == 0 then []
    else
      var fs := HornFaces(rows - 1, slices) + HornRow(rows - 1, slices, slices);
      assert 6 * ((rows - 1) * slices) + 6 * slices == 6 * (rows * slices);
      fs
  }

  /** The first n tip triangles (base + j, base + (j+1) mod slices, tip). */
  function TipFan(base: nat, tip: nat, slices: Pos, n: nat): (fs: seq<nat>)
    ensures |fs| == 3 * n
  {
    if n == 0 then [] else TipFan(base, tip, slices, n - 1) + [base + (n - 1), base + n % slices, tip]
  }

  function Rings(m: Math, radiusBase: real, radiusTip: real, length: real, steps: Pos, slices: Pos): seq<Vertex>
  {
    Grid(steps + 1, slices, (i: nat, j: nat) => HornVertex(m, radiusBase, radiusTip, length, steps, slices, i, j))
  }

  /** The horn before the typed-array conversion. */
  function Horn(m: Math, radiusBase: real, radiusTip: real, length: real, steps: Pos, slices: Pos): Geometry
  {
    var rings := Rings(m, radiusBase, radiusTip, length, steps, slices);
    var faces := HornFaces(steps, slices);
    if radiusTip > TipThreshold then
      Geometry(rings + [TipVertex(m, length)], faces + TipFan(steps * slices, |rings|, slices, slices))
    else
      Geometry(rings, faces)
  }

  // ---------------------------------------------------------------- the generator

  method AppendHornRow(fs: seq<nat>, i: nat, slices: Pos) returns (out: seq<nat>)
    ensures out == fs + HornRow(i, slices, slices)
  {
    out := fs;
    for j := 0 to slices
      invariant out == fs + HornRow(i, slices, j)
    {
      var nextJ := (j + 1) % slices;
      var a, b := i * slices + j, i * slices + nextJ;
      var c, d := (i + 1) * slices + j, (i + 1) * slices + nextJ;
      out := out + [a, b, c];
      out := out + [b, d, c];
    }
  }

  method AppendTipFan(fs: seq<nat>, base: nat, tip: nat, slices: Pos) returns (out: seq<nat>)
    ensures out == fs + TipFan(base, tip, slices, slices)
  {
    out := fs;
    for j := 0 to slices
      invariant out == fs + TipFan(base, tip, slices, j)
    {
      var nextJ := (j + 1) % slices;
      out := out + [base + j, base + nextJ, tip];
    }
  }

  /**
   * generateCurvedHorn_flat(radiusBase, radiusTip, length, steps, slices); `extra` holds any
   * further arguments, which the function never reads.
   */
  method GenerateCurvedHornFlat(m: Math, radiusBase: real, radiusTip: real, length: real, steps: Pos, slices: Pos,
                                extra: seq<real>) returns (g: Geometry)
    ensures g == Typed(Horn(m, radiusBase, radiusTip, length, steps, slices))
  {
    var f := (i: nat, j: nat) => HornVertex(m, radiusBase, radiusTip, length, steps, slices, i, j);
    var verts := AppendGrid([], steps + 1, slices, f);
    var inds := [];
    for i := 0 to steps
      invariant inds == HornFaces(i, slices)
    {
      inds := AppendHornRow(inds, i, slices);
    }
    if radiusTip > TipThreshold {
      var tipIndex := |verts|;
      verts := verts + [TipVertex(m, length)];
      inds := AppendTipFan(inds, steps * slices, tipIndex, slices);
    }
    g := Typed(Geometry(verts, inds));
  }

  // ---------------------------------------------------------------- properties

  /** Every corner of the quads between rings i and i+1 names a vertex of those two rings. */
  lemma {:induction false} HornRowWithin(i: nat, slices: Pos, n: nat)
    requires n <= slices
    ensures Within(HornRow(i, slices, n), i * slices, (i + 2) * slices)
  {
    if n > 0 {
      HornRowWithin(i, slices, n - 1);
      var j := n - 1;
      HornQuadWithin(i, j, slices);
      WithinJoin(HornRow(i, slices, n - 1), HornQuad(i, j, slices), i * slices, (i + 2) * slices);
    }
  }

  lemma HornQuadWithin(i: nat, j: nat, slices: Pos)
    requires j < slices
    ensures Within(HornQuad(i, j, slices), i * slices, (i + 2) * slices)
  {
    var nextJ := (j + 1) % slices;
    assert (i + 1) * slices == i * slices + slices;
    assert (i + 2) * slices == i * slices + 2 * slices;
    assert HornQuad(i, j, slices)
        == [i * slices + j, i * slices + nextJ, (i + 1) * slices + j, i * slices + nextJ,
            (i + 1) * slices + nextJ, (i + 1) * slices + j];
  }

  lemma WithinJoin(a: seq<nat>, b: seq<nat>, lo: nat, hi: nat)
    requires Within(a, lo, hi) && Within(b, lo, hi)
    ensures Within(a + b, lo, hi)
  {
    assert forall k :: |a| <= k < |a + b| ==> (a + b)[k] == b[k - |a|];
  }

  lemma {:induction false} HornFacesInRange(rows: nat, slices: Pos)
    ensures InRange(HornFaces(rows, slices), (rows + 1) * slices)
  {
    if rows > 0 {
      HornFacesInRange(rows - 1, slices);
      InRangeWiden(HornFaces(rows - 1, slices), rows * slices, (rows + 1) * slices);
      HornRowWithin(rows - 1, slices, slices);
      assert (rows - 1 + 2) * slices == (rows + 1) * slices;
      InRangeJoin(HornFaces(rows - 1, slices), HornRow(rows - 1, slices, slices), (rows - 1) * slices, (rows + 1) * slices);
    }
  }

  lemma {:induction false} TipFanWithin(base: nat, tip: nat, slices: Pos, n: nat)
    requires tip >= base + slices && n <= slices
    ensures Within(TipFan(base, tip, slices, n), base, tip + 1)
  {
    if n > 0 {
      TipFanWithin(base, tip, slices, n - 1);
      assert n % slices < slices;
      WithinJoin(TipFan(base, tip, slices, n - 1), [base + (n - 1), base + n % slices, tip], base, tip + 1);
    }
  }

  /**
   * (steps+1)·slices ring vertices, plus the tip when radiusTip > 0.0001; 6·steps·slices
   * ring indices, plus 3·slices for the tip fan; every index names a vertex, and the Uint16
   * conversion loses nothing up to 65536 vertices.
   */
  lemma HornShape(m: Math, radiusBase: real, radiusTip: real, length: real, steps: Pos, slices: Pos)
    ensures var g := Horn(m, radiusBase, radiusTip, length, steps, slices);
            var tip := if radiusTip > TipThreshold then 1 else 0;
            && |g.vertices| == (steps + 1) * slices + tip
            && |g.faces| == 6 * (steps * slices) + 3 * slices * tip
            && InRange(g.faces, |g.vertices|)
            && InRange(Typed(g).faces, |g.vertices|)
            && (|g.vertices| <= 65536 ==> Typed(g).faces == g.faces)
  {
    var g := Horn(m, radiusBase, radiusTip, length, steps, slices);
    var n := (steps + 1) * slices;
    HornFacesInRange(steps, slices);
    if radiusTip > TipThreshold {
      InRangeWiden(HornFaces(steps, slices), n, n + 1);
      assert steps * slices + slices == n;
      TipFanWithin(steps * slices, n, slices, slices);
      InRangeJoin(HornFaces(steps, slices), TipFan(steps * slices, n, slices, slices), steps * slices, n + 1);
    }
    TypedFaces(g);
  }

  /** Quad j between rings i and i+1 is the 6 indices from 6·(i·slices + j). */
  lemma {:induction false} HornQuadAt(rows: nat, slices: Pos, i: nat, j: nat)
    requires i < rows && j < slices
    ensures 6 * (i * slices + j) + 6 <= |HornFaces(rows, slices)|
    ensures HornFaces(rows, slices)[6 * (i * slices + j)..6 * (i * slices + j) + 6] == HornQuad(i, j, slices)
  {
    var prev := HornFaces(rows - 1, slices);
    var row := HornRow(rows - 1, slices, slices);
    assert HornFaces(rows, slices) == prev + row;
    var s := 6 * (i * slices + j);
    if i == rows - 1 {
      assert |prev| == 6 * (i * slices);
      HornRowAt(i, slices, slices, j);
      assert s == |prev| + 6 * j;
      SliceRight(prev, row, 6 * j, 6 * j + 6);
    } else {
      HornQuadAt(rows - 1, slices, i, j);
      MulMonotone(i + 1, rows - 1, slices);
      assert s + 6 <= 6 * ((i + 1) * slices);
      SliceLeft(prev, row, s, s + 6);
    }
  }

  lemma {:induction false} HornRowAt(i: nat, slices: Pos, n: nat, j: nat)
    requires j < n
    ensures HornRow(i, slices, n)[6 * j..6 * j + 6] == HornQuad(i, j, slices)
  {
    if j == n - 1 {
      SliceRight(HornRow(i, slices, n - 1), HornQuad(i, n - 1, slices), 0, 6);
    } else {
      HornRowAt(i, slices, n - 1, j);
      SliceLeft(HornRow(i, slices, n - 1), HornQuad(i, n - 1, slices), 6 * j, 6 * j + 6);
    }
  }

  /**
   * The seam is closed without a duplicate vertex: the last quad of each row turns back to
   * the first vertex of both rings, and every other quad takes the next one.
   */
  lemma SeamCloses(i: nat, j: nat, slices: Pos)
    requires j < slices
    ensures j == slices - 1 ==> HornQuad(i, j, slices)[1] == i * slices && HornQuad(i, j, slices)[4] == (i + 1) * slices
    ensures j < slices - 1 ==>
              HornQuad(i, j, slices)[1] == i * slices + j + 1 && HornQuad(i, j, slices)[4] == (i + 1) * slices + j + 1
  {
  }

  /** The ring vertices come first, in the grid order, tip or no tip. */
  lemma HornRingAt(m: Math, radiusBase: real, radiusTip: real, length: real, steps: Pos, slices: Pos, i: nat, j: nat)
    requires i <= steps && j < slices
    ensures i * slices + j < |Rings(m, radiusBase, radiusTip, length, steps, slices)|
    ensures i * slices + j < |Horn(m, radiusBase, radiusTip, length, steps, slices).vertices|
    ensures Horn(m, radiusBase, radiusTip, length, steps, slices).vertices[i * slices + j]
         == HornVertex(m, radiusBase, radiusTip, length, steps, slices, i, j)
  {
    GridAt(steps + 1, slices, (i: nat, j: nat) => HornVertex(m, radiusBase, radiusTip, length, steps, slices, i, j), i, j);
  }

  /**
   * Vertex j of ring i sits at index i·slices + j. It has the horn colour, the y of its arc
   * point, and lies on the circle of the ring's radius about that point in the xz-plane.
   */
  lemma HornRing(m: Math, radiusBase: real, radiusTip: real, length: real, steps: Pos, slices: Pos, i: nat, j: nat)
    requires TrigLaws(m) && i <= steps && j < slices
    ensures i * slices + j < |Horn(m, radiusBase, radiusTip, length, steps, slices).vertices|
    ensures var v := Horn(m, radiusBase, radiusTip, length, steps, slices).vertices[i * slices + j];
            var p := PathPoint(m, length, steps, i);
            var r := Radius(radiusBase, radiusTip, steps, i);
            && v.color == HornGreen && v.pos.y == p.y
            && (v.pos.x - p.x) * (v.pos.x - p.x) + (v.pos.z - p.z) * (v.pos.z - p.z) == r * r
  {
    HornRingAt(m, radiusBase, radiusTip, length, steps, slices, i, j);
    HornVertexOnCircle(m, radiusBase, radiusTip, length, steps, slices, i, j);
  }

  lemma HornVertexOnCircle(m: Math, radiusBase: real, radiusTip: real, length: real, steps: Pos, slices: Pos, i: nat, j: nat)
    requires TrigLaws(m)
    ensures var v := HornVertex(m, radiusBase, radiusTip, length, steps, slices, i, j);
            var p := PathPoint(m, length, steps, i);
            var r := Radius(radiusBase, radiusTip, steps, i);
            && v.color == HornGreen && v.pos.y == p.y
            && (v.pos.x - p.x) * (v.pos.x - p.x) + (v.pos.z - p.z) * (v.pos.z - p.z) == r * r
  {
    var th := Theta(slices, j);
    assert m.sin(th) * m.sin(th) + m.cos(th) * m.cos(th) == 1.0;
    CircleLaw(m.cos(th), m.sin(th), Radius(radiusBase, radiusTip, steps, i));
  }

  lemma CircleLaw(c: real, s: real, r: real)
    requires s * s + c * c == 1.0
    ensures (c * r) * (c * r) + (s * r) * (s * r) == r * r
  {
    calc {
      (c * r) * (c * r) + (s * r) * (s * r);
      (s * s + c * c) * (r * r);
      r * r;
    }
  }

  /** The radius runs from radiusBase at the first ring to radiusTip at the last. */
  lemma RadiusEnds(radiusBase: real, radiusTip: real, steps: Pos)
    ensures Radius(radiusBase, radiusTip, steps, 0) == radiusBase
    ensures Radius(radiusBase, radiusTip, steps, steps) == radiusTip
  {
    assert Param(steps, 0) == 0.0 && Param(steps, steps) == 1.0;
  }

  /**
   * With radiusTip > 0.0001 the tip vertex sits at index (steps+1)·slices on the last ring's
   * arc point, and tip triangle j, after the ring quads, is (base + j, base + (j+1) mod slices,
   * tip) with base = steps·slices; otherwise there is no vertex after the rings.
   */
  lemma HornTip(m: Math, radiusBase: real, radiusTip: real, length: real, steps: Pos, slices: Pos, j: nat)
    requires j < slices
    ensures var g := Horn(m, radiusBase, radiusTip, length, steps, slices);
            var tip := (steps + 1) * slices;
            var at := 6 * (steps * slices) + 3 * j;
            radiusTip > TipThreshold ==>
              && tip < |g.vertices| && g.vertices[tip] == Vertex(PathPoint(m, length, steps, steps), TipGreen)
              && at + 3 <= |g.faces|
              && g.faces[at..at + 3] == [steps * slices + j, steps * slices + (j + 1) % slices, tip]
    ensures radiusTip <= TipThreshold ==> |Horn(m, radiusBase, radiusTip, length, steps, slices).vertices| == (steps + 1) * slices
  {
    TipOnPath(m, length, steps);
    if radiusTip > TipThreshold {
      HornTipVertex(m, radiusBase, radiusTip, length, steps, slices);
      HornTipFace(m, radiusBase, radiusTip, length, steps, slices, j);
    }
  }

  /** The tip vertex follows the rings. */
  lemma HornTipVertex(m: Math, radiusBase: real, radiusTip: real, length: real, steps: Pos, slices: Pos)
    requires radiusTip > TipThreshold
    ensures var rings := Rings(m, radiusBase, radiusTip, length, steps, slices);
            var g := Horn(m, radiusBase, radiusTip, length, steps, slices);
            |rings| < |g.vertices| && g.vertices[|rings|] == TipVertex(m, length)
  {
    var rings := Rings(m, radiusBase, radiusTip, length, steps, slices);
    var faces := HornFaces(steps, slices);
    var fan := TipFan(steps * slices, |rings|, slices, slices);
    assert Horn(m, radiusBase, radiusTip, length, steps, slices) == Geometry(rings + [TipVertex(m, length)], faces + fan);
  }

  /** Tip triangle j follows the ring quads. */
  lemma HornTipFace(m: Math, radiusBase: real, radiusTip: real, length: real, steps: Pos, slices: Pos, j: nat)
    requires j < slices && radiusTip > TipThreshold
    ensures var g := Horn(m, radiusBase, radiusTip, length, steps, slices);
            var tip := |Rings(m, radiusBase, radiusTip, length, steps, slices)|;
            var at := |HornFaces(steps, slices)| + 3 * j;
            at + 3 <= |g.faces| && g.faces[at..at + 3] == [steps * slices + j, steps * slices + (j + 1) % slices, tip]
  {
    var rings := Rings(m, radiusBase, radiusTip, length, steps, slices);
    var faces := HornFaces(steps, slices);
    var fan := TipFan(steps * slices, |rings|, slices, slices);
    assert Horn(m, radiusBase, radiusTip, length, steps, slices).faces == faces + fan;
    FanAfter(faces, steps * slices, |rings|, slices, j);
  }

  /** Tip triangle j of a whole fan appended to other faces. */
  lemma FanAfter(faces: seq<nat>, base: nat, tip: nat, slices: Pos, j: nat)
    requires j < slices
    ensures |faces| + 3 * j + 3 <= |faces + TipFan(base, tip, slices, slices)|
    ensures (faces + TipFan(base, tip, slices, slices))[|faces| + 3 * j..|faces| + 3 * j + 3]
            == [base + j, base + (j + 1) % slices, tip]
  {
    TipFanAt(base, tip, slices, slices, j);
    SliceRight(faces, TipFan(base, tip, slices, slices), 3 * j, 3 * j + 3);
  }

  /** The tip vertex lies on the arc point at t = 1. */
  lemma TipOnPath(m: Math, length: real, steps: Pos)
    ensures PathPoint(m, length, steps, steps) == TipVertex(m, length).pos
  {
    WholeFraction(steps);
    assert Param(steps, steps) == 1.0;
  }

  lemma {:induction false} TipFanAt(base: nat, tip: nat, slices: Pos, n: nat, j: nat)
    requires j < n
    ensures TipFan(base, tip, slices, n)[3 * j..3 * j + 3] == [base + j, base + (j + 1) % slices, tip]
  {
    if j == n - 1 {
      SliceRight(TipFan(base, tip, slices, n - 1), [base + (n - 1), base + n % slices, tip], 0, 3);
    } else {
      TipFanAt(base, tip, slices, n - 1, j);
      SliceLeft(TipFan(base, tip, slices, n - 1), [base + (n - 1), base + n % slices, tip], 3 * j, 3 * j + 3);
    }
  }

  /**
   * The horn createFlygon builds, (0.15, 0.02, 1) on 8 steps and 22 slices: 199 vertices
   * with the tip, 1122 indices, all in range and unchanged by the Uint16 conversion.
   */
  lemma CreateFlygonHorn(m: Math)
    ensures var g := Horn(m, 0.15, 0.02, 1.0, 8, 22);
            && |g.vertices| == 199 && |g.faces| == 1122 && Typed(g).faces == g.faces && InRange(g.faces, 199)
  {
    HornShape(m, 0.15, 0.02, 1.0, 8, 22);
  }
}
