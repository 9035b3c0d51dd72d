/**
 * generateFlygonEyes of Flygon/BodyParts/Head/Eyes/FlygonEyes.js: the same loops as the
 * arm's hand ellipsoid, with red as the default colour.
 */
module FlygonEyes {
  import opened JsMath
  import opened Vectors
  import opened Mesh
  import FlygonArm

  const EyeRed: Vec3 := Vec3(1.0, 0.0, 0.0)

  /** generateFlygonEyes(ax, by, cz, stacks = 14, slices = 20, color = red). */
  method GenerateFlygonEyes(m: Math, rx: real, ry: real, rz: real,
                            stacksArg: Option<Pos>, slicesArg: Option<Pos>, colorArg: Option<Vec3>)
    returns (g: Geometry)
    ensures g == FlygonArm.Hand(m, rx, ry, rz, Nullish(stacksArg, 14), Nullish(slicesArg, 20), Nullish(colorArg, EyeRed))
  {
    g := FlygonArm.BuildHand(m, rx, ry, rz, Nullish(stacksArg, 14), Nullish(slicesArg, 20), Nullish(colorArg, EyeRed));
  }

  /** With every parameter at its default: 15·21 vertices, 6·14·20 indices in range, all red. */
  lemma DefaultEyes(m: Math, rx: real, ry: real, rz: real)
    ensures var g := FlygonArm.Hand(m, rx, ry, rz, Nullish(None, 14), Nullish(None, 20), Nullish(None, EyeRed));
            && |g.vertices| == 315 && |g.faces| == 1680 && InRange(g.faces, 315) && AllColored(g.vertices, EyeRed)
  {
    FlygonArm.HandShape(m, rx, ry, rz, 14, 20, EyeRed);
  }
}
