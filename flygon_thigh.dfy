/**
 * generateFlygonThigh of Flygon/BodyParts/Legs/FlygonThigh.js: the shared Flygon ellipsoid
 * in one colour, the outer green unless `inner` is set.
 */
module FlygonThigh {
  import opened JsMath
  import opened Vectors
  import opened Mesh
  import opened FlygonEllipsoid

  const OuterGreen: Vec3 := Vec3(181.0 / 255.0, 235.0 / 255.0, 145.0 / 255.0)
  const InnerGreen: Vec3 := Vec3(85.0 / 255.0, 170.0 / 255.0, 85.0 / 255.0)

  /** The colour `!inner` picks; `inner` is tested for truthiness. */
  function ThighColor(inner: bool): Vec3
  {
    if !inner then OuterGreen else InnerGreen
  }

  function Thigh(m: Math, a: real, b: real, c: real, stacks: Pos, steps: Pos, inner: bool): Geometry
  {
    Ellipsoid(m, a, b, c, stacks, steps, (p: Vec3) => ThighColor(inner))
  }

  /** generateFlygonThigh(a, b, c, stacks, steps, inner). */
  method GenerateFlygonThigh(m: Math, a: real, b: real, c: real, stacks: Pos, steps: Pos, inner: bool)
    returns (g: Geometry)
    ensures g == Thigh(m, a, b, c, stacks, steps, inner)
  {
    g := BuildEllipsoid(m, a, b, c, stacks, steps, (p: Vec3) => ThighColor(inner));
  }

  /**
   * (stacks+1)(steps+1) vertices and 6·stacks·steps indices in range, every vertex outer
   * green when `inner` is false and inner green when it is true.
   */
  lemma ThighShape(m: Math, a: real, b: real, c: real, stacks: Pos, steps: Pos, inner: bool)
    ensures var g := Thigh(m, a, b, c, stacks, steps, inner);
            && |g.vertices| == (stacks + 1) * (steps + 1) && |g.faces| == 6 * (stacks * steps)
            && InRange(g.faces, (stacks + 1) * (steps + 1)) && g.faces == GridFaces(Diagonal, stacks, steps, 0)
            && (!inner ==> AllColored(g.vertices, OuterGreen))
            && (inner ==> AllColored(g.vertices, InnerGreen))
  {
    var paint := (p: Vec3) => ThighColor(inner);
    EllipsoidShape(m, a, b, c, stacks, steps, paint);
    EllipsoidPainted(m, a, b, c, stacks, steps, paint);
  }

  /** The first ring collapses to (0, 0, c). */
  lemma ThighPole(m: Math, a: real, b: real, c: real, stacks: Pos, steps: Pos, inner: bool, j: nat)
    requires TrigLaws(m) && j <= steps
    ensures Thigh(m, a, b, c, stacks, steps, inner).vertices[j].pos == Vec3(0.0, 0.0, c)
  {
    EllipsoidVertexAt(m, a, b, c, stacks, steps, (p: Vec3) => ThighColor(inner), 0, j);
    EllipsoidPole(m, a, b, c, stacks, steps, j);
  }
}
