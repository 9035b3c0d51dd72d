/**
 * generateFlygonBelly of Flygon/BodyParts/FlygonBelly.js: the shared Flygon ellipsoid in
 * one yellow-green colour.
 */
module FlygonBelly {
  import opened JsMath
  import opened Vectors
  import opened Mesh
  import opened FlygonEllipsoid

  const BellyColor: Vec3 := Vec3(214.0 / 255.0, 216.0 / 255.0, 93.0 / 255.0)

  function Belly(m: Math, a: real, b: real, c: real, stacks: Pos, steps: Pos): Geometry
  {
    Ellipsoid(m, a, b, c, stacks, steps, (p: Vec3) => BellyColor)
  }

  /** generateFlygonBelly(a, b, c, stacks, steps). */
  method GenerateFlygonBelly(m: Math, a: real, b: real, c: real, stacks: Pos, steps: Pos) returns (g: Geometry)
    ensures g == Belly(m, a, b, c, stacks, steps)
  {
    g := BuildEllipsoid(m, a, b, c, stacks, steps, (p: Vec3) => BellyColor);
  }

  /** (stacks+1)(steps+1) vertices, 6·stacks·steps indices in range, one colour. */
  lemma BellyShape(m: Math, a: real, b: real, c: real, stacks: Pos, steps: Pos)
    ensures var g := Belly(m, a, b, c, stacks, steps);
            && |g.vertices| == (stacks + 1) * (steps + 1) && |g.faces| == 6 * (stacks * steps)
            && InRange(g.faces, (stacks + 1) * (steps + 1)) && g.faces == GridFaces(Diagonal, stacks, steps, 0)
            && AllColored(g.vertices, BellyColor)
  {
    var paint := (p: Vec3) => BellyColor;
    EllipsoidShape(m, a, b, c, stacks, steps, paint);
    EllipsoidPainted(m, a, b, c, stacks, steps, paint);
  }
}
