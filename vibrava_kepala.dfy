/**
 * generateKepala of Vibrava/kepala.js: the head, a latitude/longitude ellipsoid
 * (a·cos v·cos u, b·sin u, c·sin v·cos u) with u = (i/stack)·PI − PI/2 and
 * v = (j/step)·2·PI, followed by the neck: two rings of step+1 vertices of radius 0.4·a
 * around the x axis, at x = −0.5·a and x = +0.5·a, joined by one row of quads.
 */
module VibravaKepala {
  import opened JsMath
  import opened Vectors
  import opened Mesh

  /** The neck's top and bottom rings. */
  const NeckRings: nat := 2

  const HeadColor: Vec3 := Vec3(0.9, 0.95, 0.6)
  const NeckColor: Vec3 := Vec3(0.8, 0.9, 0.5)

  function Lat(stack: Pos, i: nat): real
  {
    (i as real / stack as real) * PI - PI / 2.0
  }

  function Around(step: Pos, j: nat): real
  {
    (j as real / step as real) * 2.0 * PI
  }

  function HeadVertex(m: Math, a: real, b: real, c: real, stack: Pos, step: Pos, i: nat, j: nat): Vertex
  {
    var u, v := Lat(stack, i), Around(step, j);
    Vertex(Vec3(a * m.cos(v) * m.cos(u), b * m.sin(u), c * m.sin(v) * m.cos(u)), HeadColor)
  }

  /** The neck ring i (0 or 1): offsetX = −height·0.5 for ring 0 and height·0.5 after, height = a·1. */
  function NeckVertex(m: Math, a: real, step: Pos, i: nat, j: nat): Vertex
  {
    var radius, height := a * 0.4, a * 1.0;
    var offsetX := if i == 0 then -height * 0.5 else height * 0.5;
    var theta := Around(step, j);
    Vertex(Vec3(offsetX, radius * m.cos(theta), radius * m.sin(theta)), NeckColor)
  }

  /** The index of the neck's first vertex: the head's (stack+1)(step+1) vertices come first. */
  function NeckBase(stack: Pos, step: Pos): nat
  {
    (stack + 1) * (step + 1)
  }

  function HeadGrid(m: Math, a: real, b: real, c: real, stack: Pos, step: Pos): seq<Vertex>
  {
    Grid(stack + 1, step + 1, (i: nat, j: nat) => HeadVertex(m, a, b, c, stack, step, i, j))
  }

  function NeckGrid(m: Math, a: real, step: Pos): seq<Vertex>
  {
    Grid(NeckRings, step + 1, (i: nat, j: nat) => NeckVertex(m, a, step, i, j))
  }

  function Kepala(m: Math, a: real, b: real, c: real, stack: Pos, step: Pos): Geometry
  {
    Geometry(HeadGrid(m, a, b, c, stack, step) + NeckGrid(m, a, step),
             GridFaces(Diagonal, stack, step, 0) + RowFaces(Diagonal, NeckBase(stack, step), step, step + 1))
  }

  /** generateKepala(a, b, c, stack, step). */
  method GenerateKepala(m: Math, a: real, b: real, c: real, stack: Pos, step: Pos) returns (g: Geometry)
    ensures g == Kepala(m, a, b, c, stack, step)
  {
    var vs := AppendGrid([], stack + 1, step + 1, (i: nat, j: nat) => HeadVertex(m, a, b, c, stack, step, i, j));
    assert vs == HeadGrid(m, a, b, c, stack, step);
    var faces := AppendGridFaces([], Diagonal, stack, step, 0);
    assert faces == GridFaces(Diagonal, stack, step, 0);
    var baseIndex := |vs|;
    assert baseIndex == NeckBase(stack, step);
    vs := AppendGrid(vs, NeckRings, step + 1, (i: nat, j: nat) => NeckVertex(m, a, step, i, j));
    faces := AppendRowFaces(faces, Diagonal, baseIndex, step, step + 1);
    g := Geometry(vs, faces);
  }

  /**
   * (stack+3)(step+1) vertices, the head's in the head colour and the neck's in the
   * neck colour, and 6·step·(stack+1) indices, all in range.
   */
  lemma KepalaShape(m: Math, a: real, b: real, c: real, stack: Pos, step: Pos)
    ensures var g, base := Kepala(m, a, b, c, stack, step), NeckBase(stack, step);
            && |g.vertices| == (stack + 3) * (step + 1) && |g.faces| == 6 * (step * (stack + 1))
            && InRange(g.faces, |g.vertices|)
            && (forall k :: 0 <= k < base ==> g.vertices[k].color == HeadColor)
            && (forall k :: base <= k < |g.vertices| ==> g.vertices[k].color == NeckColor)
  {
    var base := NeckBase(stack, step);
    KepalaFaces(stack, step);
    GridColored(stack + 1, step + 1, (i: nat, j: nat) => HeadVertex(m, a, b, c, stack, step, i, j), HeadColor);
    GridColored(NeckRings, step + 1, (i: nat, j: nat) => NeckVertex(m, a, step, i, j), NeckColor);
    ConcatColored(HeadGrid(m, a, b, c, stack, step), NeckGrid(m, a, step), HeadColor, NeckColor);
  }

  lemma KepalaFaces(stack: Pos, step: Pos)
    ensures var faces := GridFaces(Diagonal, stack, step, 0) + RowFaces(Diagonal, NeckBase(stack, step), step, step + 1);
            |faces| == 6 * (step * (stack + 1)) && InRange(faces, (stack + 3) * (step + 1))
  {
    var base := NeckBase(stack, step);
    GridFacesLength(Diagonal, stack, step, 0);
    GridFacesWithin(Diagonal, stack, step, 0);
    RowFacesWithin(Diagonal, base, step, step + 1);
    var top := base + 2 * (step + 1);
    assert top == (stack + 3) * (step + 1);
    WithinWiden(GridFaces(Diagonal, stack, step, 0), 0, base, 0, top);
    WithinConcat(GridFaces(Diagonal, stack, step, 0), RowFaces(Diagonal, base, step, step + 1), 0, top);
  }

  lemma ConcatColored(xs: seq<Vertex>, ys: seq<Vertex>, cx: Vec3, cy: Vec3)
    requires AllColored(xs, cx) && AllColored(ys, cy)
    ensures forall k :: 0 <= k < |xs| ==> (xs + ys)[k].color == cx
    ensures forall k :: |xs| <= k < |xs + ys| ==> (xs + ys)[k].color == cy
  {
    forall k | |xs| <= k < |xs + ys|
      ensures (xs + ys)[k].color == cy
    {
      assert (xs + ys)[k] == ys[k - |xs|];
    }
  }

  /** Vertex j of head ring i sits at index i(step+1)+j. */
  lemma HeadVertexAt(m: Math, a: real, b: real, c: real, stack: Pos, step: Pos, i: nat, j: nat)
    requires i <= stack && j <= step
    ensures i * (step + 1) + j < NeckBase(stack, step)
    ensures |Kepala(m, a, b, c, stack, step).vertices| >= NeckBase(stack, step)
    ensures Kepala(m, a, b, c, stack, step).vertices[i * (step + 1) + j] == HeadVertex(m, a, b, c, stack, step, i, j)
  {
    MulNonNegative(i, step + 1);
    GridAt(stack + 1, step + 1, (i: nat, j: nat) => HeadVertex(m, a, b, c, stack, step, i, j), i, j);
    var head, neck := HeadGrid(m, a, b, c, stack, step), NeckGrid(m, a, step);
    assert (head + neck)[i * (step + 1) + j] == head[i * (step + 1) + j];
  }

  /** Vertex j of neck ring i sits at index (stack+1)(step+1) + i(step+1) + j. */
  lemma NeckVertexAt(m: Math, a: real, b: real, c: real, stack: Pos, step: Pos, i: nat, j: nat)
    requires i <= 1 && j <= step
    ensures NeckBase(stack, step) + i * (step + 1) + j < |Kepala(m, a, b, c, stack, step).vertices|
    ensures Kepala(m, a, b, c, stack, step).vertices[NeckBase(stack, step) + i * (step + 1) + j]
         == NeckVertex(m, a, step, i, j)
  {
    MulNonNegative(i, step + 1);
    GridAt(NeckRings, step + 1, (i: nat, j: nat) => NeckVertex(m, a, step, i, j), i, j);
    var head, neck := HeadGrid(m, a, b, c, stack, step), NeckGrid(m, a, step);
    var n := i * (step + 1) + j;
    assert |head| == NeckBase(stack, step);
    assert (head + neck)[|head| + n] == neck[n];
  }

  /**
   * The neck's ring 0 lies at x = −0.5·a and ring 1 at x = +0.5·a, and every neck vertex is
   * at distance 0.4·a from the x axis: y² + z² = (0.4·a)².
   */
  lemma NeckRing(m: Math, a: real, step: Pos, i: nat, j: nat)
    requires TrigLaws(m) && i <= 1
    ensures var p := NeckVertex(m, a, step, i, j).pos;
            && p.x == (if i == 0 then -0.5 * a else 0.5 * a)
            && p.y * p.y + p.z * p.z == (0.4 * a) * (0.4 * a)
  {
    OnCircle(m, a * 0.4, Around(step, j));
  }
}
