/**
 * generateFlygonBodyBezier of Flygon/BodyParts/Body/FlygonBody.js: a tube swept along a
 * cubic Bezier curve. Ring i (t = i/stacks) is centred on the curve point B(t); its
 * vertices are center + at·cos(u)·normal + bt·sin(u)·binormal, where the binormal is
 * fixed at (0, 0, 1), the normal is binormal × (unit tangent), and at, bt are a and b
 * scaled by radiusProfile(t). Quads are split as (first, first+1, second+1),
 * (first, second+1, second); every vertex has one pale green colour.
 */
module FlygonBody {
  import opened JsMath
  import opened Vectors
  import opened Mesh
  import Bezier

  const BodyColor: Vec3 := Vec3(181.0 / 255.0, 235.0 / 255.0, 145.0 / 255.0)

  /** The sideways axis every ring uses. */
  const Binormal: Vec3 := Vec3(0.0, 0.0, 1.0)

  /** The cosh domain of the profile: v runs from VMin at t = 0 to VMax at t = 1. */
  const VMin: real := -1.25
  const VMax: real := 0.55

  /** The normalisation (cosh(v) − 1)/(rMax − 1) divides by a nonzero number. */
  predicate ProfileDefined(m: Math)
  {
    Max(m.cosh(VMin), m.cosh(VMax)) != 1.0
  }

  /** exp(−((t − c)/w)²), one bump of the profile; Math.pow(x, 2) is x·x. */
  function Bump(m: Math, t: real, c: real, w: real): real
    requires w != 0.0
  {
    var d := (t - c) / w;
    m.exp(-(d * d))
  }

  /** radiusProfile(t) before the final Math.max(0.12, s). */
  function RawProfile(m: Math, t: real): real
    requires ProfileDefined(m)
  {
    var v := VMin + (VMax - VMin) * t;
    var r := m.cosh(v);
    var rMax := Max(m.cosh(VMin), m.cosh(VMax));
    var s0 := (r - 1.0) / (rMax - 1.0);
    var s1 := 0.36 + 0.64 * s0;
    var s2 := s1 + 0.06 * Bump(m, t, 0.22, 0.16);
    var s3 := s2 + 0.05 * Bump(m, t, 0.74, 0.14);
    var s4 := s3 - 0.08 * (1.0 - Bump(m, t, 0.50, 0.20));
    var s5 := s4 + 0.06 * Bump(m, t, 0.90, 0.10);
    s5 * (1.0 + 0.18 * (1.0 - t))
  }

  /**
   * radiusProfile(t): never below 0.12, and equal to the raw profile wherever that is at
   * least 0.12.
   */
  function RadiusProfile(m: Math, t: real): (r: real)
    requires ProfileDefined(m)
    ensures r >= 0.12 && r >= RawProfile(m, t)
    ensures RawProfile(m, t) >= 0.12 ==> r == RawProfile(m, t)
    ensures RawProfile(m, t) < 0.12 ==> r == 0.12
  {
    Max(0.12, RawProfile(m, t))
  }

  function Param(stacks: Pos, i: nat): real
  {
    i as real / stacks as real
  }

  /** The centre of ring i: the curve point at t = i/stacks. */
  function Center(p0: Vec3, p1: Vec3, p2: Vec3, p3: Vec3, stacks: Pos, i: nat): Vec3
  {
    Bezier.Point(Param(stacks, i), p0, p1, p2, p3)
  }

  /** The unit tangent of ring i. */
  function UnitTangent(m: Math, p0: Vec3, p1: Vec3, p2: Vec3, p3: Vec3, stacks: Pos, i: nat): Vec3
  {
    Normalize(m, Bezier.Tangent(Param(stacks, i), p0, p1, p2, p3))
  }

  /** normal = binormal × tangent, in the component order of the source. */
  function Normal(tangent: Vec3): Vec3
  {
    Cross(Binormal, tangent)
  }

  /** The angle u = 2·PI·j/slices of vertex j around its ring. */
  function Angle(slices: Pos, j: nat): real
  {
    2.0 * PI * j as real / slices as real
  }

  /** The frame of one ring: its centre, its normal and the factor its semi-axes are scaled by. */
  datatype Ring = Ring(center: Vec3, normal: Vec3, scale: real)

  /** Ring i: centred on the curve point at t = i/stacks, scaled by the profile there. */
  function RingAt(m: Math, p0: Vec3, p1: Vec3, p2: Vec3, p3: Vec3, stacks: Pos, i: nat): Ring
    requires ProfileDefined(m)
  {
    Ring(Center(p0, p1, p2, p3, stacks, i), Normal(UnitTangent(m, p0, p1, p2, p3, stacks, i)),
         RadiusProfile(m, Param(stacks, i)))
  }

  /** Vertex j of a ring whose unscaled semi-axes are a and b. */
  function RingVertex(m: Math, r: Ring, a: real, b: real, slices: Pos, j: nat): Vertex
  {
    Vertex(Bezier.SweepPoint(r.center, r.normal, Binormal, a * r.scale, b * r.scale,
                             m.cos(Angle(slices, j)), m.sin(Angle(slices, j))),
           BodyColor)
  }

  /** Vertex j of ring i. */
  function BodyVertex(m: Math, p0: Vec3, p1: Vec3, p2: Vec3, p3: Vec3, a: real, b: real, stacks: Pos, slices: Pos,
                      i: nat, j: nat): Vertex
    requires ProfileDefined(m)
  {
    RingVertex(m, RingAt(m, p0, p1, p2, p3, stacks, i), a, b, slices, j)
  }

  function Body(m: Math, p0: Vec3, p1: Vec3, p2: Vec3, p3: Vec3, a: real, b: real, stacks: Pos, slices: Pos): Geometry
    requires ProfileDefined(m)
  {
    GridMesh(Diagonal, stacks, slices,
             (i: nat, j: nat) => BodyVertex(m, p0, p1, p2, p3, a, b, stacks, slices, i, j))
  }

  /** generateFlygonBodyBezier(p0, p1, p2, p3, a, b, stacks, slices). */
  method GenerateFlygonBodyBezier(m: Math, p0: Vec3, p1: Vec3, p2: Vec3, p3: Vec3, a: real, b: real,
                                  stacks: Pos, slices: Pos) returns (g: Geometry)
    requires ProfileDefined(m)
    ensures g == Body(m, p0, p1, p2, p3, a, b, stacks, slices)
  {
    g := BuildGridMesh(Diagonal, stacks, slices,
                       (i: nat, j: nat) => BodyVertex(m, p0, p1, p2, p3, a, b, stacks, slices, i, j));
  }

  /** (stacks+1)(slices+1) vertices, 6·stacks·slices indices, all naming a vertex. */
  lemma BodyShape(m: Math, p0: Vec3, p1: Vec3, p2: Vec3, p3: Vec3, a: real, b: real, stacks: Pos, slices: Pos)
    requires ProfileDefined(m)
    ensures |Body(m, p0, p1, p2, p3, a, b, stacks, slices).vertices| == (stacks + 1) * (slices + 1)
    ensures |Body(m, p0, p1, p2, p3, a, b, stacks, slices).faces| == 6 * (stacks * slices)
    ensures InRange(Body(m, p0, p1, p2, p3, a, b, stacks, slices).faces, (stacks + 1) * (slices + 1))
    ensures Body(m, p0, p1, p2, p3, a, b, stacks, slices).faces == GridFaces(Diagonal, stacks, slices, 0)
  {
    GridMeshShape(Diagonal, stacks, slices,
                  (i: nat, j: nat) => BodyVertex(m, p0, p1, p2, p3, a, b, stacks, slices, i, j));
  }

  /** Vertex j of ring i sits at index i·(slices+1) + j. */
  lemma BodyVertexAt(m: Math, p0: Vec3, p1: Vec3, p2: Vec3, p3: Vec3, a: real, b: real, stacks: Pos, slices: Pos,
                     i: nat, j: nat)
    requires ProfileDefined(m) && i <= stacks && j <= slices
    ensures i * (slices + 1) + j < |Body(m, p0, p1, p2, p3, a, b, stacks, slices).vertices|
    ensures Body(m, p0, p1, p2, p3, a, b, stacks, slices).vertices[i * (slices + 1) + j]
         == BodyVertex(m, p0, p1, p2, p3, a, b, stacks, slices, i, j)
  {
    GridAt(stacks + 1, slices + 1,
           (i: nat, j: nat) => BodyVertex(m, p0, p1, p2, p3, a, b, stacks, slices, i, j), i, j);
  }

  lemma BodyColored(m: Math, p0: Vec3, p1: Vec3, p2: Vec3, p3: Vec3, a: real, b: real, stacks: Pos, slices: Pos)
    requires ProfileDefined(m)
    ensures AllColored(Body(m, p0, p1, p2, p3, a, b, stacks, slices).vertices, BodyColor)
  {
    GridColored(stacks + 1, slices + 1,
                (i: nat, j: nat) => BodyVertex(m, p0, p1, p2, p3, a, b, stacks, slices, i, j), BodyColor);
  }

  /** The normal is (−ty, tx, 0), orthogonal to the tangent and to the binormal. */
  lemma NormalOrthogonal(tangent: Vec3)
    ensures Normal(tangent) == Vec3(-tangent.y, tangent.x, 0.0)
    ensures Dot(Normal(tangent), tangent) == 0.0
    ensures Dot(Normal(tangent), Binormal) == 0.0
  {
    CrossOrthogonal(Binormal, tangent);
  }

  /**
   * Ring i is centred on the curve point at t = i/stacks, its normal is binormal × unit
   * tangent there, and it is scaled by the radius profile at t.
   */
  lemma RingAtIs(m: Math, p0: Vec3, p1: Vec3, p2: Vec3, p3: Vec3, stacks: Pos, i: nat)
    requires ProfileDefined(m)
    ensures var r := RingAt(m, p0, p1, p2, p3, stacks, i);
            && r.center == Bezier.Point(Param(stacks, i), p0, p1, p2, p3)
            && r.normal == Normal(UnitTangent(m, p0, p1, p2, p3, stacks, i))
            && r.scale == RadiusProfile(m, Param(stacks, i))
  {
  }

  /**
   * Every vertex of a ring is its centre moved by a·k·cos(u) along the normal and by
   * b·k·sin(u) along the binormal, k being the ring's scale.
   */
  lemma RingOffset(m: Math, r: Ring, a: real, b: real, slices: Pos, j: nat)
    ensures Sub(RingVertex(m, r, a, b, slices, j).pos, r.center)
            == Add(Scale(a * r.scale * m.cos(Angle(slices, j)), r.normal),
                   Scale(b * r.scale * m.sin(Angle(slices, j)), Binormal))
  {
    Bezier.SweepOffset(r.center, r.normal, Binormal, a * r.scale, b * r.scale,
                       m.cos(Angle(slices, j)), m.sin(Angle(slices, j)));
  }

  /** Vertex j of ring i is vertex j of the frame RingAt(i), with semi-axes a and b. */
  lemma BodyVertexOffset(m: Math, p0: Vec3, p1: Vec3, p2: Vec3, p3: Vec3, a: real, b: real, stacks: Pos, slices: Pos,
                         i: nat, j: nat)
    requires ProfileDefined(m)
    ensures var r := RingAt(m, p0, p1, p2, p3, stacks, i);
            Sub(BodyVertex(m, p0, p1, p2, p3, a, b, stacks, slices, i, j).pos, r.center)
            == Add(Scale(a * r.scale * m.cos(Angle(slices, j)), r.normal),
                   Scale(b * r.scale * m.sin(Angle(slices, j)), Binormal))
  {
    RingOffset(m, RingAt(m, p0, p1, p2, p3, stacks, i), a, b, slices, j);
  }

  /** The first ring is centred on p0 and the last on p3. */
  lemma BodyEnds(p0: Vec3, p1: Vec3, p2: Vec3, p3: Vec3, stacks: Pos)
    ensures Center(p0, p1, p2, p3, stacks, 0) == p0
    ensures Center(p0, p1, p2, p3, stacks, stacks) == p3
  {
    assert Param(stacks, 0) == 0.0 && Param(stacks, stacks) == 1.0;
    Bezier.PointEnds(p0, p1, p2, p3);
  }
}
