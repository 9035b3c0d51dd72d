/**
 * The arm generators of Flygon/BodyParts/Arms/FlygonArm.js. generateArmSegment sweeps an
 * ellipse whose semi-axes go linearly from (a0, b0) to (a1, b1) up the y axis to `length`;
 * generateHandEllipsoid is a latitude/longitude ellipsoid with the poles on the y axis; and
 * generateClaw runs the hand's loops on the axes (0.85·radius, length/2, radius). All three
 * use the (first, first+1, second+1), (first, second+1, second) quads and one colour.
 * A parameter the caller leaves out is None and takes the source's default.
 */
module FlygonArm {
  import opened JsMath
  import opened Vectors
  import opened Mesh

  const ArmColor: Vec3 := Vec3(171.0 / 255.0, 225.0 / 255.0, 135.0 / 255.0)
  const ClawColor: Vec3 := Vec3(255.0 / 255.0, 255.0 / 255.0, 255.0 / 255.0)

  /** The angle u = 2·PI·j/slices of vertex j around its ring. */
  function Around(slices: Pos, j: nat): real
  {
    (2.0 * PI * j as real) / slices as real
  }

  // ---------------------------------------------------------------- arm segment

  /** x0 + (x1 − x0)·t, the semi-axis at height fraction t. */
  function Lerp(x0: real, x1: real, t: real): real
  {
    x0 + (x1 - x0) * t
  }

  function Fraction(stacks: Pos, i: nat): real
  {
    i as real / stacks as real
  }

  function ArmVertex(m: Math, a0: real, b0: real, a1: real, b1: real, length: real, stacks: Pos, slices: Pos,
                     color: Vec3, i: nat, j: nat): Vertex
  {
    var t := Fraction(stacks, i);
    var a, b := Lerp(a0, a1, t), Lerp(b0, b1, t);
    var u := Around(slices, j);
    Vertex(Vec3(a * m.cos(u), t * length, b * m.sin(u)), color)
  }

  function ArmSegment(m: Math, a0: real, b0: real, a1: real, b1: real, length: real, stacks: Pos, slices: Pos,
                      color: Vec3): Geometry
  {
    GridMesh(Diagonal, stacks, slices,
             (i: nat, j: nat) => ArmVertex(m, a0, b0, a1, b1, length, stacks, slices, color, i, j))
  }

  /** generateArmSegment(a0, b0, a1, b1, length, stacks = 24, slices = 24, color). */
  method GenerateArmSegment(m: Math, a0: real, b0: real, a1: real, b1: real, length: real,
                            stacksArg: Option<Pos>, slicesArg: Option<Pos>, colorArg: Option<Vec3>)
    returns (g: Geometry)
    ensures g == ArmSegment(m, a0, b0, a1, b1, length, Nullish(stacksArg, 24), Nullish(slicesArg, 24),
                            Nullish(colorArg, ArmColor))
  {
    var stacks, slices, color := Nullish(stacksArg, 24), Nullish(slicesArg, 24), Nullish(colorArg, ArmColor);
    g := BuildGridMesh(Diagonal, stacks, slices,
                       (i: nat, j: nat) => ArmVertex(m, a0, b0, a1, b1, length, stacks, slices, color, i, j));
  }

  /** (stacks+1)(slices+1) vertices, 6·stacks·slices indices in range, all of the one colour. */
  lemma ArmSegmentShape(m: Math, a0: real, b0: real, a1: real, b1: real, length: real, stacks: Pos, slices: Pos,
                        color: Vec3)
    ensures var g := ArmSegment(m, a0, b0, a1, b1, length, stacks, slices, color);
            && |g.vertices| == (stacks + 1) * (slices + 1) && |g.faces| == 6 * (stacks * slices)
            && InRange(g.faces, (stacks + 1) * (slices + 1)) && g.faces == GridFaces(Diagonal, stacks, slices, 0)
            && AllColored(g.vertices, color)
  {
    var f := (i: nat, j: nat) => ArmVertex(m, a0, b0, a1, b1, length, stacks, slices, color, i, j);
    GridMeshShape(Diagonal, stacks, slices, f);
    GridColored(stacks + 1, slices + 1, f, color);
  }

  /** Vertex j of ring i sits at index i·(slices+1) + j. */
  lemma ArmVertexAt(m: Math, a0: real, b0: real, a1: real, b1: real, length: real, stacks: Pos, slices: Pos,
                    color: Vec3, i: nat, j: nat)
    requires i <= stacks && j <= slices
    ensures i * (slices + 1) + j < |ArmSegment(m, a0, b0, a1, b1, length, stacks, slices, color).vertices|
    ensures ArmSegment(m, a0, b0, a1, b1, length, stacks, slices, color).vertices[i * (slices + 1) + j]
         == ArmVertex(m, a0, b0, a1, b1, length, stacks, slices, color, i, j)
  {
    GridAt(stacks + 1, slices + 1,
           (i: nat, j: nat) => ArmVertex(m, a0, b0, a1, b1, length, stacks, slices, color, i, j), i, j);
  }

  /**
   * The shoulder ring lies at y = 0 on the ellipse with semi-axes (a0, b0), the last ring at
   * y = length on the one with (a1, b1), and each ring sits higher than the one before when
   * length > 0.
   */
  lemma ArmTaper(m: Math, a0: real, b0: real, a1: real, b1: real, length: real, stacks: Pos, slices: Pos,
                 color: Vec3, j: nat)
    ensures var v := ArmVertex(m, a0, b0, a1, b1, length, stacks, slices, color, 0, j).pos;
            v == Vec3(a0 * m.cos(Around(slices, j)), 0.0, b0 * m.sin(Around(slices, j)))
    ensures var v := ArmVertex(m, a0, b0, a1, b1, length, stacks, slices, color, stacks, j).pos;
            v == Vec3(a1 * m.cos(Around(slices, j)), length, b1 * m.sin(Around(slices, j)))
    ensures length > 0.0 ==> forall i: nat, k: nat :: i < k ==>
      ArmVertex(m, a0, b0, a1, b1, length, stacks, slices, color, i, j).pos.y
        < ArmVertex(m, a0, b0, a1, b1, length, stacks, slices, color, k, j).pos.y
  {
    assert Fraction(stacks, 0) == 0.0 && Fraction(stacks, stacks) == 1.0;
    if length > 0.0 {
      forall i: nat, k: nat | i < k
        ensures ArmVertex(m, a0, b0, a1, b1, length, stacks, slices, color, i, j).pos.y
              < ArmVertex(m, a0, b0, a1, b1, length, stacks, slices, color, k, j).pos.y
      {
        assert Fraction(stacks, i) < Fraction(stacks, k);
        ScaleStrict(Fraction(stacks, i), Fraction(stacks, k), length);
      }
    }
  }

  lemma ScaleStrict(x: real, y: real, k: real)
    requires x < y && k > 0.0
    ensures x * k < y * k
  {
  }

  /** Every vertex of ring i lies on its ellipse: x²·b² + z²·a² = a²·b², given sin² + cos² = 1. */
  lemma ArmOnEllipse(m: Math, a0: real, b0: real, a1: real, b1: real, length: real, stacks: Pos, slices: Pos,
                     color: Vec3, i: nat, j: nat)
    requires TrigLaws(m)
    ensures var p := ArmVertex(m, a0, b0, a1, b1, length, stacks, slices, color, i, j).pos;
            var a, b := Lerp(a0, a1, Fraction(stacks, i)), Lerp(b0, b1, Fraction(stacks, i));
            p.x * p.x * (b * b) + p.z * p.z * (a * a) == a * a * (b * b)
  {
    var u := Around(slices, j);
    assert m.sin(u) * m.sin(u) + m.cos(u) * m.cos(u) == 1.0;
    EllipseLaw(Lerp(a0, a1, Fraction(stacks, i)), Lerp(b0, b1, Fraction(stacks, i)), m.cos(u), m.sin(u));
  }

  lemma EllipseLaw(a: real, b: real, c: real, s: real)
    requires s * s + c * c == 1.0
    ensures (a * c) * (a * c) * (b * b) + (b * s) * (b * s) * (a * a) == a * a * (b * b)
  {
    calc {
      (a * c) * (a * c) * (b * b) + (b * s) * (b * s) * (a * a);
      (a * a) * (b * b) * (c * c) + (a * a) * (b * b) * (s * s);
      (a * a) * (b * b) * (s * s + c * c);
      a * a * (b * b);
    }
  }

  // ---------------------------------------------------------------- hand ellipsoid and claw

  /** The point of the unit sphere at polar angle v from +y and azimuth u from +x towards +z. */
  function UnitPolar(m: Math, v: real, u: real): Vec3
  {
    Vec3(m.sin(v) * m.cos(u), m.cos(v), m.sin(v) * m.sin(u))
  }

  function Polar(stacks: Pos, i: nat): real
  {
    (i as real / stacks as real) * PI
  }

  function HandVertex(m: Math, rx: real, ry: real, rz: real, stacks: Pos, slices: Pos, color: Vec3,
                      i: nat, j: nat): Vertex
  {
    var v := Polar(stacks, i);
    var y := ry * m.cos(v);
    var r := m.sin(v);
    var u := Around(slices, j);
    Vertex(Vec3(rx * r * m.cos(u), y, rz * r * m.sin(u)), color)
  }

  function Hand(m: Math, rx: real, ry: real, rz: real, stacks: Pos, slices: Pos, color: Vec3): Geometry
  {
    GridMesh(Diagonal, stacks, slices, (i: nat, j: nat) => HandVertex(m, rx, ry, rz, stacks, slices, color, i, j))
  }

  /** The shared loops of the hand, the claw and Flygon's eyes. */
  method BuildHand(m: Math, rx: real, ry: real, rz: real, stacks: Pos, slices: Pos, color: Vec3)
    returns (g: Geometry)
    ensures g == Hand(m, rx, ry, rz, stacks, slices, color)
  {
    g := BuildGridMesh(Diagonal, stacks, slices,
                       (i: nat, j: nat) => HandVertex(m, rx, ry, rz, stacks, slices, color, i, j));
  }

  /** generateHandEllipsoid(rx, ry, rz, stacks = 14, slices = 20, color). */
  method GenerateHandEllipsoid(m: Math, rx: real, ry: real, rz: real,
                               stacksArg: Option<Pos>, slicesArg: Option<Pos>, colorArg: Option<Vec3>)
    returns (g: Geometry)
    ensures g == Hand(m, rx, ry, rz, Nullish(stacksArg, 14), Nullish(slicesArg, 20), Nullish(colorArg, ArmColor))
  {
    g := BuildHand(m, rx, ry, rz, Nullish(stacksArg, 14), Nullish(slicesArg, 20), Nullish(colorArg, ArmColor));
  }

  /** The claw's axes: rx = 0.85·radius, ry = length/2, rz = radius. */
  function Claw(m: Math, length: real, radius: real, stacks: Pos, slices: Pos, color: Vec3): Geometry
  {
    Hand(m, radius * 0.85, length * 0.5, radius, stacks, slices, color)
  }

  lemma ClawIsHand(m: Math, length: real, radius: real, stacks: Pos, slices: Pos, color: Vec3, rx: real, ry: real)
    requires rx == radius * 0.85 && ry == length * 0.5
    ensures Claw(m, length, radius, stacks, slices, color) == Hand(m, rx, ry, radius, stacks, slices, color)
  {
  }

  /** generateClaw(length, radius, stacks = 12, slices = 20, color = white). */
  method GenerateClaw(m: Math, length: real, radius: real,
                      stacksArg: Option<Pos>, slicesArg: Option<Pos>, colorArg: Option<Vec3>)
    returns (g: Geometry)
    ensures g == Claw(m, length, radius, Nullish(stacksArg, 12), Nullish(slicesArg, 20), Nullish(colorArg, ClawColor))
  {
    var stacks, slices, color := Nullish(stacksArg, 12), Nullish(slicesArg, 20), Nullish(colorArg, ClawColor);
    var rx, ry := radius * 0.85, length * 0.5;
    g := BuildHand(m, rx, ry, radius, stacks, slices, color);
    ClawIsHand(m, length, radius, stacks, slices, color, rx, ry);
  }

  lemma HandShape(m: Math, rx: real, ry: real, rz: real, stacks: Pos, slices: Pos, color: Vec3)
    ensures var g := Hand(m, rx, ry, rz, stacks, slices, color);
            && |g.vertices| == (stacks + 1) * (slices + 1) && |g.faces| == 6 * (stacks * slices)
            && InRange(g.faces, (stacks + 1) * (slices + 1)) && g.faces == GridFaces(Diagonal, stacks, slices, 0)
            && AllColored(g.vertices, color)
  {
    var f := (i: nat, j: nat) => HandVertex(m, rx, ry, rz, stacks, slices, color, i, j);
    GridMeshShape(Diagonal, stacks, slices, f);
    GridColored(stacks + 1, slices + 1, f, color);
  }

  lemma HandVertexAt(m: Math, rx: real, ry: real, rz: real, stacks: Pos, slices: Pos, color: Vec3, i: nat, j: nat)
    requires i <= stacks && j <= slices
    ensures i * (slices + 1) + j < |Hand(m, rx, ry, rz, stacks, slices, color).vertices|
    ensures Hand(m, rx, ry, rz, stacks, slices, color).vertices[i * (slices + 1) + j]
         == HandVertex(m, rx, ry, rz, stacks, slices, color, i, j)
  {
    GridAt(stacks + 1, slices + 1, (i: nat, j: nat) => HandVertex(m, rx, ry, rz, stacks, slices, color, i, j), i, j);
  }

  /**
   * Every vertex is a point q of the unit sphere scaled by (rx, ry, rz) axis by axis, so it
   * satisfies (x/rx)² + (y/ry)² + (z/rz)² = 1 whenever the axes are nonzero.
   */
  lemma HandOnEllipsoid(m: Math, rx: real, ry: real, rz: real, stacks: Pos, slices: Pos, color: Vec3, i: nat, j: nat)
    requires TrigLaws(m)
    ensures var q := UnitPolar(m, Polar(stacks, i), Around(slices, j));
            && HandVertex(m, rx, ry, rz, stacks, slices, color, i, j).pos == Vec3(rx * q.x, ry * q.y, rz * q.z)
            && Dot(q, q) == 1.0
  {
    var v, u := Polar(stacks, i), Around(slices, j);
    assert m.sin(v) * m.sin(v) + m.cos(v) * m.cos(v) == 1.0;
    assert m.sin(u) * m.sin(u) + m.cos(u) * m.cos(u) == 1.0;
    UnitSphere(m.sin(v), m.cos(v), m.sin(u), m.cos(u));
    Associate(rx, m.sin(v), m.cos(u));
    Associate(rz, m.sin(v), m.sin(u));
  }

  /** Ring 0 collapses to the pole (0, ry, 0), given sin 0 = 0 and cos 0 = 1. */
  lemma HandPole(m: Math, rx: real, ry: real, rz: real, stacks: Pos, slices: Pos, color: Vec3, j: nat)
    requires TrigLaws(m)
    ensures HandVertex(m, rx, ry, rz, stacks, slices, color, 0, j).pos == Vec3(0.0, ry, 0.0)
  {
    assert Polar(stacks, 0) == 0.0;
  }

  /**
   * The claw is the hand ellipsoid on (0.85·radius, length/2, radius): its first ring is the
   * tip (0, length/2, 0) and its vertices have the claw's colour.
   */
  lemma ClawShape(m: Math, length: real, radius: real, stacks: Pos, slices: Pos, color: Vec3)
    requires TrigLaws(m)
    ensures var g := Claw(m, length, radius, stacks, slices, color);
            && |g.vertices| == (stacks + 1) * (slices + 1) && |g.faces| == 6 * (stacks * slices)
            && InRange(g.faces, (stacks + 1) * (slices + 1)) && AllColored(g.vertices, color)
            && forall j :: 0 <= j <= slices ==> g.vertices[j].pos == Vec3(0.0, length / 2.0, 0.0)
  {
    HandShape(m, radius * 0.85, length * 0.5, radius, stacks, slices, color);
    forall j | 0 <= j <= slices
      ensures Claw(m, length, radius, stacks, slices, color).vertices[j].pos == Vec3(0.0, length / 2.0, 0.0)
    {
      HandVertexAt(m, radius * 0.85, length * 0.5, radius, stacks, slices, color, 0, j);
      HandPole(m, radius * 0.85, length * 0.5, radius, stacks, slices, color, j);
    }
  }

  /** Vertex j of ring i of the claw: the hand vertex on the claw's axes. */
  function ClawVertex(m: Math, length: real, radius: real, stacks: Pos, slices: Pos, color: Vec3, i: nat, j: nat): Vertex
  {
    HandVertex(m, radius * 0.85, length * 0.5, radius, stacks, slices, color, i, j)
  }

  /**
   * The claw's y runs exactly over [−length/2, length/2]: the first ring at the top, the last
   * at the bottom, given that the cosine of PI is −1 (as Math.cos(Math.PI) is).
   */
  lemma ClawSpan(m: Math, length: real, radius: real, stacks: Pos, slices: Pos, color: Vec3)
    requires TrigLaws(m) && m.cos(PI) == -1.0 && length >= 0.0
    ensures forall i: nat, j: nat :: i <= stacks ==>
      -length / 2.0 <= ClawVertex(m, length, radius, stacks, slices, color, i, j).pos.y <= length / 2.0
    ensures forall j: nat :: ClawVertex(m, length, radius, stacks, slices, color, 0, j).pos.y == length / 2.0
    ensures forall j: nat :: ClawVertex(m, length, radius, stacks, slices, color, stacks, j).pos.y == -length / 2.0
  {
    assert Polar(stacks, 0) == 0.0;
    assert Polar(stacks, stacks) == PI;
    forall i: nat, j: nat | i <= stacks
      ensures -length / 2.0 <= ClawVertex(m, length, radius, stacks, slices, color, i, j).pos.y <= length / 2.0
    {
      ClawHeight(m, length, radius, stacks, slices, color, i, j);
    }
  }

  /** One claw vertex's y lies in [−length/2, length/2]. */
  lemma ClawHeight(m: Math, length: real, radius: real, stacks: Pos, slices: Pos, color: Vec3, i: nat, j: nat)
    requires TrigLaws(m) && length >= 0.0
    ensures -length / 2.0 <= ClawVertex(m, length, radius, stacks, slices, color, i, j).pos.y <= length / 2.0
  {
    var c := m.cos(Polar(stacks, i));
    TrigBounded(m, Polar(stacks, i));
    assert ClawVertex(m, length, radius, stacks, slices, color, i, j).pos.y == (length * 0.5) * c;
    CosScaled(length * 0.5, c);
  }

  /** Ring i of the claw is the block of slices+1 vertices from index i·(slices+1). */
  lemma ClawVertexAt(m: Math, length: real, radius: real, stacks: Pos, slices: Pos, color: Vec3, i: nat, j: nat)
    requires i <= stacks && j <= slices
    ensures i * (slices + 1) + j < |Claw(m, length, radius, stacks, slices, color).vertices|
    ensures Claw(m, length, radius, stacks, slices, color).vertices[i * (slices + 1) + j]
         == ClawVertex(m, length, radius, stacks, slices, color, i, j)
  {
    HandVertexAt(m, radius * 0.85, length * 0.5, radius, stacks, slices, color, i, j);
  }

  lemma CosScaled(h: real, c: real)
    requires h >= 0.0 && -1.0 <= c <= 1.0
    ensures -h <= h * c <= h
  {
  }
}
