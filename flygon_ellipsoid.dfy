/**
 * The ellipsoid that generateFlygonFeet, generateFlygonThigh and generateFlygonBelly each
 * build with the same loops: ring i at polar angle v = (i/stacks)·PI from +z, vertex j at
 * azimuth u = (j/steps)·2·PI, position (a·cos u·sin v, b·sin u·sin v, c·cos v), and quads
 * (first, second, fourth), (first, fourth, third) with second = first+1,
 * third = first+steps+1 and fourth = third+1. The three files differ only in how they pick
 * a vertex's colour, which is the `paint` argument here.
 */
module FlygonEllipsoid {
  import opened JsMath
  import opened Vectors
  import opened Mesh

  function Lat(stacks: Pos, i: nat): real
  {
    (i as real / stacks as real) * PI
  }

  function Lon(steps: Pos, j: nat): real
  {
    (j as real / steps as real) * 2.0 * PI
  }

  /** The position of vertex j of ring i. */
  function Point(m: Math, a: real, b: real, c: real, stacks: Pos, steps: Pos, i: nat, j: nat): Vec3
  {
    var v, u := Lat(stacks, i), Lon(steps, j);
    Vec3(a * m.cos(u) * m.sin(v), b * m.sin(u) * m.sin(v), c * m.cos(v))
  }

  function EllipsoidVertex(m: Math, a: real, b: real, c: real, stacks: Pos, steps: Pos, paint: Vec3 -> Vec3,
                           i: nat, j: nat): Vertex
  {
    var p := Point(m, a, b, c, stacks, steps, i, j);
    Vertex(p, paint(p))
  }

  /** The quads, in the order the source pushes their corners. */
  function SourceQuad(first: nat, steps: nat): seq<nat>
  {
    var second := first + 1;
    var third := first + (steps + 1);
    var fourth := third + 1;
    [first, second, fourth, first, fourth, third]
  }

  function Ellipsoid(m: Math, a: real, b: real, c: real, stacks: Pos, steps: Pos, paint: Vec3 -> Vec3): Geometry
  {
    GridMesh(Diagonal, stacks, steps, (i: nat, j: nat) => EllipsoidVertex(m, a, b, c, stacks, steps, paint, i, j))
  }

  method BuildEllipsoid(m: Math, a: real, b: real, c: real, stacks: Pos, steps: Pos, paint: Vec3 -> Vec3)
    returns (g: Geometry)
    ensures g == Ellipsoid(m, a, b, c, stacks, steps, paint)
  {
    g := BuildGridMesh(Diagonal, stacks, steps,
                       (i: nat, j: nat) => EllipsoidVertex(m, a, b, c, stacks, steps, paint, i, j));
  }

  /** The source's corner order is the (first, first+1, second+1), (first, second+1, second) quad. */
  lemma SourceQuadIsDiagonal(first: nat, steps: nat)
    ensures SourceQuad(first, steps) == Quad(Diagonal, first, steps + 1)
  {
  }

  /**
   * (stacks+1)(steps+1) vertices and 6·stacks·steps indices in range, quad by quad in the
   * source's order.
   */
  lemma EllipsoidShape(m: Math, a: real, b: real, c: real, stacks: Pos, steps: Pos, paint: Vec3 -> Vec3)
    ensures var g := Ellipsoid(m, a, b, c, stacks, steps, paint);
            && |g.vertices| == (stacks + 1) * (steps + 1) && |g.faces| == 6 * (stacks * steps)
            && InRange(g.faces, (stacks + 1) * (steps + 1)) && g.faces == GridFaces(Diagonal, stacks, steps, 0)
  {
    GridMeshShape(Diagonal, stacks, steps,
                  (i: nat, j: nat) => EllipsoidVertex(m, a, b, c, stacks, steps, paint, i, j));
  }

  /** Vertex j of ring i sits at index i·(steps+1) + j, painted by its own position. */
  lemma EllipsoidVertexAt(m: Math, a: real, b: real, c: real, stacks: Pos, steps: Pos, paint: Vec3 -> Vec3,
                          i: nat, j: nat)
    requires i <= stacks && j <= steps
    ensures i * (steps + 1) + j < |Ellipsoid(m, a, b, c, stacks, steps, paint).vertices|
    ensures Ellipsoid(m, a, b, c, stacks, steps, paint).vertices[i * (steps + 1) + j]
         == Vertex(Point(m, a, b, c, stacks, steps, i, j), paint(Point(m, a, b, c, stacks, steps, i, j)))
  {
    GridAt(stacks + 1, steps + 1, (i: nat, j: nat) => EllipsoidVertex(m, a, b, c, stacks, steps, paint, i, j), i, j);
  }

  /** Every vertex's colour is `paint` of its position. */
  lemma EllipsoidPainted(m: Math, a: real, b: real, c: real, stacks: Pos, steps: Pos, paint: Vec3 -> Vec3)
    ensures var vs := Ellipsoid(m, a, b, c, stacks, steps, paint).vertices;
            forall k :: 0 <= k < |vs| ==> vs[k].color == paint(vs[k].pos)
  {
    GridAll(stacks + 1, steps + 1, (i: nat, j: nat) => EllipsoidVertex(m, a, b, c, stacks, steps, paint, i, j),
            (v: Vertex) => v.color == paint(v.pos));
  }

  /** Ring 0 collapses to the pole (0, 0, c), given sin 0 = 0 and cos 0 = 1. */
  lemma EllipsoidPole(m: Math, a: real, b: real, c: real, stacks: Pos, steps: Pos, j: nat)
    requires TrigLaws(m)
    ensures Point(m, a, b, c, stacks, steps, 0, j) == Vec3(0.0, 0.0, c)
  {
    assert Lat(stacks, 0) == 0.0;
  }

  /**
   * Every vertex is a point q of the unit sphere scaled by (a, b, c) axis by axis, so
   * (x/a)² + (y/b)² + (z/c)² = 1 whenever the axes are nonzero.
   */
  lemma OnEllipsoid(m: Math, a: real, b: real, c: real, stacks: Pos, steps: Pos, i: nat, j: nat)
    requires TrigLaws(m)
    ensures var v, u := Lat(stacks, i), Lon(steps, j);
            var q := Vec3(m.cos(u) * m.sin(v), m.sin(u) * m.sin(v), m.cos(v));
            && Point(m, a, b, c, stacks, steps, i, j) == Vec3(a * q.x, b * q.y, c * q.z)
            && Dot(q, q) == 1.0
  {
    var v, u := Lat(stacks, i), Lon(steps, j);
    assert m.sin(v) * m.sin(v) + m.cos(v) * m.cos(v) == 1.0;
    assert m.sin(u) * m.sin(u) + m.cos(u) * m.cos(u) == 1.0;
    UnitSphere(m.sin(v), m.cos(v), m.sin(u), m.cos(u));
    Associate(a, m.cos(u), m.sin(v));
    Associate(b, m.sin(u), m.sin(v));
  }
}
