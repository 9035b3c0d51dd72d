/**
 * generateFlygonFeet of Flygon/BodyParts/Legs/FlygonFeet.js: the shared Flygon ellipsoid,
 * with each vertex dark green where its z lies above 0.7·c (the claws) and light green
 * elsewhere.
 */
module FlygonFeet {
  import opened JsMath
  import opened Vectors
  import opened Mesh
  import opened FlygonEllipsoid

  const ClawGreen: Vec3 := Vec3(50.0 / 255.0, 120.0 / 255.0, 50.0 / 255.0)
  const FootGreen: Vec3 := Vec3(214.0 / 255.0, 216.0 / 255.0, 93.0 / 255.0)

  function FootPaint(c: real, p: Vec3): Vec3
  {
    if p.z > 0.7 * c then ClawGreen else FootGreen
  }

  function Feet(m: Math, a: real, b: real, c: real, stacks: Pos, steps: Pos): Geometry
  {
    Ellipsoid(m, a, b, c, stacks, steps, (p: Vec3) => FootPaint(c, p))
  }

  /** generateFlygonFeet(a, b, c, stacks, steps). */
  method GenerateFlygonFeet(m: Math, a: real, b: real, c: real, stacks: Pos, steps: Pos) returns (g: Geometry)
    ensures g == Feet(m, a, b, c, stacks, steps)
  {
    g := BuildEllipsoid(m, a, b, c, stacks, steps, (p: Vec3) => FootPaint(c, p));
  }

  /**
   * (stacks+1)(steps+1) vertices, 6·stacks·steps indices in range, and each vertex dark
   * exactly when its own z exceeds 0.7·c, light otherwise.
   */
  lemma FeetShape(m: Math, a: real, b: real, c: real, stacks: Pos, steps: Pos)
    ensures var g := Feet(m, a, b, c, stacks, steps);
            && |g.vertices| == (stacks + 1) * (steps + 1) && |g.faces| == 6 * (stacks * steps)
            && InRange(g.faces, (stacks + 1) * (steps + 1)) && g.faces == GridFaces(Diagonal, stacks, steps, 0)
            && (forall k :: 0 <= k < |g.vertices| ==> (g.vertices[k].color == ClawGreen <==> g.vertices[k].pos.z > 0.7 * c))
            && (forall k :: 0 <= k < |g.vertices| ==> (g.vertices[k].color == FootGreen <==> g.vertices[k].pos.z <= 0.7 * c))
  {
    var paint := (p: Vec3) => FootPaint(c, p);
    EllipsoidShape(m, a, b, c, stacks, steps, paint);
    EllipsoidPainted(m, a, b, c, stacks, steps, paint);
  }

  /** The first ring is the tip (0, 0, c); it is dark whenever c > 0. */
  lemma FeetTip(m: Math, a: real, b: real, c: real, stacks: Pos, steps: Pos, j: nat)
    requires TrigLaws(m) && j <= steps
    ensures Feet(m, a, b, c, stacks, steps).vertices[j].pos == Vec3(0.0, 0.0, c)
    ensures c > 0.0 ==> Feet(m, a, b, c, stacks, steps).vertices[j].color == ClawGreen
  {
    EllipsoidVertexAt(m, a, b, c, stacks, steps, (p: Vec3) => FootPaint(c, p), 0, j);
    EllipsoidPole(m, a, b, c, stacks, steps, j);
  }
}
