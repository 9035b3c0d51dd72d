/**
 * generateVibravaWingAttachment of Vibrava/wingAttachment.js: the lower sheet of a
 * hyperboloid of two sheets, −x²/a² − y²/b² + z²/c² = 1. Ring i is at u = (i/stacks)·1.2,
 * vertex j at v = (j/slices)·2·PI, position (a·sinh u·cos v, b·sinh u·sin v, −c·cosh u),
 * with triangles (p1, p2, p3), (p3, p2, p4) over p1 = i(slices+1)+j, p2 = p1+slices+1,
 * p3 = p1+1, p4 = p2+1.
 */
module VibravaWingAttachment {
  import opened JsMath
  import opened Vectors
  import opened Mesh

  const AttachmentColor: Vec3 := Vec3(0.9, 0.8, 0.4)

  /** uMax, how far the sheet opens. */
  const UMax: real := 1.2

  function U(stacks: Pos, i: nat): real
  {
    (i as real / stacks as real) * UMax
  }

  function V(slices: Pos, j: nat): real
  {
    (j as real / slices as real) * 2.0 * PI
  }

  function SheetPoint(m: Math, a: real, b: real, c: real, slices: Pos, stacks: Pos, i: nat, j: nat): Vec3
  {
    var u, v := U(stacks, i), V(slices, j);
    Vec3(a * m.sinh(u) * m.cos(v), b * m.sinh(u) * m.sin(v), -c * m.cosh(u))
  }

  function AttachmentVertex(m: Math, a: real, b: real, c: real, slices: Pos, stacks: Pos, color: Vec3,
                            i: nat, j: nat): Vertex
  {
    Vertex(SheetPoint(m, a, b, c, slices, stacks, i, j), color)
  }

  function Attachment(m: Math, a: real, b: real, c: real, slices: Pos, stacks: Pos, color: Vec3): Geometry
  {
    GridMesh(Strip, stacks, slices, (i: nat, j: nat) => AttachmentVertex(m, a, b, c, slices, stacks, color, i, j))
  }

  /**
   * generateVibravaWingAttachment(a = 1, b = 1, c = 1.5, slices = 32, stacks = 32,
   * color = [0.9, 0.8, 0.4]); note that slices comes before stacks.
   */
  method GenerateWingAttachment(m: Math, aArg: Option<real>, bArg: Option<real>, cArg: Option<real>,
                                slicesArg: Option<Pos>, stacksArg: Option<Pos>, colorArg: Option<Vec3>)
    returns (g: Geometry)
    ensures g == Attachment(m, Nullish(aArg, 1.0), Nullish(bArg, 1.0), Nullish(cArg, 1.5), Nullish(slicesArg, 32),
                            Nullish(stacksArg, 32), Nullish(colorArg, AttachmentColor))
  {
    var a, b, c := Nullish(aArg, 1.0), Nullish(bArg, 1.0), Nullish(cArg, 1.5);
    var slices, stacks, color := Nullish(slicesArg, 32), Nullish(stacksArg, 32), Nullish(colorArg, AttachmentColor);
    g := BuildGridMesh(Strip, stacks, slices,
                       (i: nat, j: nat) => AttachmentVertex(m, a, b, c, slices, stacks, color, i, j));
  }

  /** (stacks+1)(slices+1) vertices of the one colour, 6·stacks·slices indices in range. */
  lemma AttachmentShape(m: Math, a: real, b: real, c: real, slices: Pos, stacks: Pos, color: Vec3)
    ensures var g := Attachment(m, a, b, c, slices, stacks, color);
            && |g.vertices| == (stacks + 1) * (slices + 1) && |g.faces| == 6 * (stacks * slices)
            && InRange(g.faces, (stacks + 1) * (slices + 1)) && g.faces == GridFaces(Strip, stacks, slices, 0)
            && AllColored(g.vertices, color)
  {
    var f := (i: nat, j: nat) => AttachmentVertex(m, a, b, c, slices, stacks, color, i, j);
    GridMeshShape(Strip, stacks, slices, f);
    GridColored(stacks + 1, slices + 1, f, color);
  }

  /** The source's (p1, p2, p3), (p3, p2, p4) is the (first, second, first+1), (first+1, second, second+1) quad. */
  lemma AttachmentQuad(p1: nat, slices: nat)
    ensures var p2, p3 := p1 + (slices + 1), p1 + 1;
            var p4 := p2 + 1;
            [p1, p2, p3, p3, p2, p4] == Quad(Strip, p1, slices + 1)
  {
  }

  /** Vertex j of ring i sits at index i(slices+1)+j. */
  lemma AttachmentVertexAt(m: Math, a: real, b: real, c: real, slices: Pos, stacks: Pos, color: Vec3,
                           i: nat, j: nat)
    requires i <= stacks && j <= slices
    ensures i * (slices + 1) + j < |Attachment(m, a, b, c, slices, stacks, color).vertices|
    ensures Attachment(m, a, b, c, slices, stacks, color).vertices[i * (slices + 1) + j]
         == Vertex(SheetPoint(m, a, b, c, slices, stacks, i, j), color)
  {
    GridAt(stacks + 1, slices + 1,
           (i: nat, j: nat) => AttachmentVertex(m, a, b, c, slices, stacks, color, i, j), i, j);
  }

  /** Ring 0 (u = 0) collapses to the vertex (0, 0, −c) of the sheet. */
  lemma SheetApex(m: Math, a: real, b: real, c: real, slices: Pos, stacks: Pos, j: nat)
    requires HyperbolicLaws(m)
    ensures SheetPoint(m, a, b, c, slices, stacks, 0, j) == Vec3(0.0, 0.0, -c)
  {
    assert U(stacks, 0) == 0.0;
    CoshZero(m);
  }

  /** Since cosh ≥ 1, no vertex rises above the apex: z ≤ −c (for c ≥ 0, as with the default 1.5). */
  lemma SheetBelowApex(m: Math, a: real, b: real, c: real, slices: Pos, stacks: Pos, i: nat, j: nat)
    requires HyperbolicLaws(m) && c >= 0.0
    ensures SheetPoint(m, a, b, c, slices, stacks, i, j).z <= -c
  {
    var h := m.cosh(U(stacks, i));
    assert h >= 1.0;
    assert c * (h - 1.0) >= 0.0;
  }

  /** −(x/a)² − (y/b)² + (z/c)² = 1, for nonzero a, b, c. */
  ghost predicate OnHyperboloid(p: Vec3, a: real, b: real, c: real)
    requires a != 0.0 && b != 0.0 && c != 0.0
  {
    -((p.x / a) * (p.x / a)) - (p.y / b) * (p.y / b) + (p.z / c) * (p.z / c) == 1.0
  }

  /** Every vertex lies on the hyperboloid, given cosh² − sinh² = 1 and sin² + cos² = 1. */
  lemma SheetOnHyperboloid(m: Math, a: real, b: real, c: real, slices: Pos, stacks: Pos, i: nat, j: nat)
    requires HyperbolicLaws(m) && TrigLaws(m) && a != 0.0 && b != 0.0 && c != 0.0
    ensures OnHyperboloid(SheetPoint(m, a, b, c, slices, stacks, i, j), a, b, c)
  {
    var u, v := U(stacks, i), V(slices, j);
    HyperbolaRatios(SheetPoint(m, a, b, c, slices, stacks, i, j), a, b, c, m.sinh(u), m.cosh(u), m.cos(v), m.sin(v));
  }

  lemma HyperbolaRatios(p: Vec3, a: real, b: real, c: real, sh: real, ch: real, cv: real, sv: real)
    requires a != 0.0 && b != 0.0 && c != 0.0
    requires p == Vec3(a * sh * cv, b * sh * sv, -c * ch)
    requires ch * ch - sh * sh == 1.0 && sv * sv + cv * cv == 1.0
    ensures OnHyperboloid(p, a, b, c)
  {
    Unscale(a, sh, cv);
    Unscale(b, sh, sv);
    assert (-c * ch) / c == -ch;
    calc {
      -((sh * cv) * (sh * cv)) - (sh * sv) * (sh * sv) + (-ch) * (-ch);
      ch * ch - (sh * sh) * (sv * sv + cv * cv);
      1.0;
    }
  }
}
