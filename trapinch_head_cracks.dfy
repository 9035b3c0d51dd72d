/**
 * generateTrapinchHeadCracks of Trapinch/BodyParts/Head/TrapinchHeadCracks.js: fifteen cubic
 * Bezier paths across the front of the head, each sampled at segments+1 points. A sample is
 * projected onto the head ellipsoid (radii 1, 0.9, 1.2), pushed 0.02 outward along its
 * position vector and widened into two rail vertices either side in x; consecutive samples'
 * rails form a strip of two triangles. All paths append to one shared buffer.
 */
module TrapinchHeadCracks {
  import opened JsMath
  import opened Vectors
  import opened Mesh
  import Bezier

  const HeadRadiusX: real := 1.0
  const HeadRadiusY: real := 0.9
  const HeadRadiusZ: real := 1.2

  /** The zigzag: fifteen paths of four control points. */
  const CrackPaths: seq<seq<Vec3>> :=
    [
      [Vec3(-0.5 * HeadRadiusX, 0.7 * HeadRadiusY, 0.85 * HeadRadiusZ),
       Vec3(-0.52 * HeadRadiusX, 0.66 * HeadRadiusY, 0.88 * HeadRadiusZ),
       Vec3(-0.48 * HeadRadiusX, 0.62 * HeadRadiusY, 0.92 * HeadRadiusZ),
       Vec3(-0.42 * HeadRadiusX, 0.56 * HeadRadiusY, 0.95 * HeadRadiusZ)],
      [Vec3(-0.42 * HeadRadiusX, 0.56 * HeadRadiusY, 0.95 * HeadRadiusZ),
       Vec3(-0.48 * HeadRadiusX, 0.52 * HeadRadiusY, 0.93 * HeadRadiusZ),
       Vec3(-0.56 * HeadRadiusX, 0.48 * HeadRadiusY, 0.91 * HeadRadiusZ),
       Vec3(-0.62 * HeadRadiusX, 0.42 * HeadRadiusY, 0.90 * HeadRadiusZ)],
      [Vec3(-0.62 * HeadRadiusX, 0.42 * HeadRadiusY, 0.90 * HeadRadiusZ),
       Vec3(-0.58 * HeadRadiusX, 0.37 * HeadRadiusY, 0.89 * HeadRadiusZ),
       Vec3(-0.48 * HeadRadiusX, 0.33 * HeadRadiusY, 0.90 * HeadRadiusZ),
       Vec3(-0.38 * HeadRadiusX, 0.28 * HeadRadiusY, 0.90 * HeadRadiusZ)],
      [Vec3(-0.38 * HeadRadiusX, 0.28 * HeadRadiusY, 0.90 * HeadRadiusZ),
       Vec3(-0.45 * HeadRadiusX, 0.24 * HeadRadiusY, 0.88 * HeadRadiusZ),
       Vec3(-0.54 * HeadRadiusX, 0.20 * HeadRadiusY, 0.87 * HeadRadiusZ),
       Vec3(-0.62 * HeadRadiusX, 0.15 * HeadRadiusY, 0.86 * HeadRadiusZ)],
      [Vec3(-0.62 * HeadRadiusX, 0.15 * HeadRadiusY, 0.86 * HeadRadiusZ),
       Vec3(-0.57 * HeadRadiusX, 0.10 * HeadRadiusY, 0.85 * HeadRadiusZ),
       Vec3(-0.48 * HeadRadiusX, 0.06 * HeadRadiusY, 0.86 * HeadRadiusZ),
       Vec3(-0.40 * HeadRadiusX, 0.02 * HeadRadiusY, 0.86 * HeadRadiusZ)],
      [Vec3(-0.40 * HeadRadiusX, 0.02 * HeadRadiusY, 0.86 * HeadRadiusZ),
       Vec3(-0.46 * HeadRadiusX, -0.03 * HeadRadiusY, 0.85 * HeadRadiusZ),
       Vec3(-0.55 * HeadRadiusX, -0.07 * HeadRadiusY, 0.84 * HeadRadiusZ),
       Vec3(-0.62 * HeadRadiusX, -0.12 * HeadRadiusY, 0.83 * HeadRadiusZ)],
      [Vec3(-0.62 * HeadRadiusX, -0.12 * HeadRadiusY, 0.83 * HeadRadiusZ),
       Vec3(-0.57 * HeadRadiusX, -0.17 * HeadRadiusY, 0.82 * HeadRadiusZ),
       Vec3(-0.49 * HeadRadiusX, -0.21 * HeadRadiusY, 0.82 * HeadRadiusZ),
       Vec3(-0.42 * HeadRadiusX, -0.25 * HeadRadiusY, 0.81 * HeadRadiusZ)],
      [Vec3(-0.42 * HeadRadiusX, -0.25 * HeadRadiusY, 0.81 * HeadRadiusZ),
       Vec3(-0.48 * HeadRadiusX, -0.30 * HeadRadiusY, 0.79 * HeadRadiusZ),
       Vec3(-0.56 * HeadRadiusX, -0.34 * HeadRadiusY, 0.78 * HeadRadiusZ),
       Vec3(-0.61 * HeadRadiusX, -0.38 * HeadRadiusY, 0.76 * HeadRadiusZ)],
      [Vec3(-0.61 * HeadRadiusX, -0.38 * HeadRadiusY, 0.76 * HeadRadiusZ),
       Vec3(-0.57 * HeadRadiusX, -0.42 * HeadRadiusY, 0.75 * HeadRadiusZ),
       Vec3(-0.53 * HeadRadiusX, -0.44 * HeadRadiusY, 0.75 * HeadRadiusZ),
       Vec3(-0.50 * HeadRadiusX, -0.47 * HeadRadiusY, 0.74 * HeadRadiusZ)],
      [Vec3(-0.50 * HeadRadiusX, -0.47 * HeadRadiusY, 0.74 * HeadRadiusZ),
       Vec3(-0.56 * HeadRadiusX, -0.51 * HeadRadiusY, 0.73 * HeadRadiusZ),
       Vec3(-0.63 * HeadRadiusX, -0.55 * HeadRadiusY, 0.71 * HeadRadiusZ),
       Vec3(-0.68 * HeadRadiusX, -0.60 * HeadRadiusY, 0.69 * HeadRadiusZ)],
      [Vec3(-0.68 * HeadRadiusX, -0.60 * HeadRadiusY, 0.69 * HeadRadiusZ),
       Vec3(-0.63 * HeadRadiusX, -0.64 * HeadRadiusY, 0.68 * HeadRadiusZ),
       Vec3(-0.55 * HeadRadiusX, -0.68 * HeadRadiusY, 0.67 * HeadRadiusZ),
       Vec3(-0.48 * HeadRadiusX, -0.72 * HeadRadiusY, 0.66 * HeadRadiusZ)],
      [Vec3(-0.48 * HeadRadiusX, -0.72 * HeadRadiusY, 0.66 * HeadRadiusZ),
       Vec3(-0.54 * HeadRadiusX, -0.76 * HeadRadiusY, 0.64 * HeadRadiusZ),
       Vec3(-0.62 * HeadRadiusX, -0.80 * HeadRadiusY, 0.62 * HeadRadiusZ),
       Vec3(-0.68 * HeadRadiusX, -0.84 * HeadRadiusY, 0.60 * HeadRadiusZ)],
      [Vec3(-0.68 * HeadRadiusX, -0.84 * HeadRadiusY, 0.60 * HeadRadiusZ),
       Vec3(-0.63 * HeadRadiusX, -0.88 * HeadRadiusY, 0.58 * HeadRadiusZ),
       Vec3(-0.56 * HeadRadiusX, -0.91 * HeadRadiusY, 0.57 * HeadRadiusZ),
       Vec3(-0.50 * HeadRadiusX, -0.94 * HeadRadiusY, 0.56 * HeadRadiusZ)],
      [Vec3(-0.50 * HeadRadiusX, -0.94 * HeadRadiusY, 0.56 * HeadRadiusZ),
       Vec3(-0.56 * HeadRadiusX, -0.97 * HeadRadiusY, 0.54 * HeadRadiusZ),
       Vec3(-0.63 * HeadRadiusX, -1.00 * HeadRadiusY, 0.52 * HeadRadiusZ),
       Vec3(-0.68 * HeadRadiusX, -1.03 * HeadRadiusY, 0.50 * HeadRadiusZ)],
      [Vec3(-0.68 * HeadRadiusX, -1.03 * HeadRadiusY, 0.50 * HeadRadiusZ),
       Vec3(-0.64 * HeadRadiusX, -1.06 * HeadRadiusY, 0.48 * HeadRadiusZ),
       Vec3(-0.58 * HeadRadiusX, -1.08 * HeadRadiusY, 0.47 * HeadRadiusZ),
       Vec3(-0.52 * HeadRadiusX, -1.10 * HeadRadiusY, 0.46 * HeadRadiusZ)]
    ]

  /** The radicand of projectOntoHead: the point's squared size measured in head radii. */
  function EllipsoidNorm(p: Vec3): real
  {
    (p.x * p.x) / (HeadRadiusX * HeadRadiusX) + (p.y * p.y) / (HeadRadiusY * HeadRadiusY)
      + (p.z * p.z) / (HeadRadiusZ * HeadRadiusZ)
  }

  /** projectOntoHead: the point divided by that root. A zero root (the origin) is a NaN in JavaScript. */
  function ProjectOntoHead(m: Math, p: Vec3): Vec3
    requires m.sqrt(EllipsoidNorm(p)) != 0.0
  {
    var length := m.sqrt(EllipsoidNorm(p));
    Vec3(p.x / length, p.y / length, p.z / length)
  }

  function LengthSq(p: Vec3): real
  {
    p.x * p.x + p.y * p.y + p.z * p.z
  }

  /** The outward offset of a projected sample: each coordinate times 1 + 0.02/|p|. */
  function Lift(m: Math, p: Vec3): Vec3
    requires m.sqrt(LengthSq(p)) != 0.0
  {
    var offset := 0.02;
    Vec3(p.x * (1.0 + offset / m.sqrt(LengthSq(p))), p.y * (1.0 + offset / m.sqrt(LengthSq(p))),
         p.z * (1.0 + offset / m.sqrt(LengthSq(p))))
  }

  /** Four control points, all in front of the head (z > 0). */
  predicate InFront(path: seq<Vec3>)
  {
    |path| == 4 && forall k :: 0 <= k < 4 ==> path[k].z > 0.0
  }

  /** Sample i of a path: the curve at t = i/segments. */
  function SamplePoint(path: seq<Vec3>, segments: Pos, i: nat): Vec3
    requires |path| == 4
  {
    Bezier.Point(i as real / segments as real, path[0], path[1], path[2], path[3])
  }

  /** A point off the plane z = 0 has a positive radicand. */
  lemma NormPositive(p: Vec3)
    requires p.z != 0.0
    ensures EllipsoidNorm(p) > 0.0
  {
    calc {
      EllipsoidNorm(p);
      (p.x * p.x) / (HeadRadiusX * HeadRadiusX) + (p.y * p.y) / (HeadRadiusY * HeadRadiusY)
        + (p.z * p.z) / (HeadRadiusZ * HeadRadiusZ);
      p.x * p.x / 1.0 + p.y * p.y / 0.81 + p.z * p.z / 1.44;
    >  { ScaledSquaresPositive(p.x, p.y, p.z); }
      0.0;
    }
  }

  lemma ScaledSquaresPositive(a: real, b: real, c: real)
    requires c != 0.0
    ensures a * a / 1.0 + b * b / 0.81 + c * c / 1.44 > 0.0
  {
    SquareNonNegative(a);
    assert a * a >= 0.0;
    SquareNonNegative(b);
    assert b * b >= 0.0;
    SquarePositive(c);
    assert c * c > 0.0;
  }

  /** Every sample of a path in front of the head is in front of the head. */
  lemma SampleInFront(path: seq<Vec3>, segments: Pos, i: nat)
    requires InFront(path) && i <= segments
    ensures SamplePoint(path, segments, i).z > 0.0
    ensures EllipsoidNorm(SamplePoint(path, segments, i)) > 0.0
  {
    var t := i as real / segments as real;
    assert 0.0 <= t <= 1.0;
    Bezier.CubicPositive(t, path[0].z, path[1].z, path[2].z, path[3].z);
    NormPositive(SamplePoint(path, segments, i));
  }

  /** Dividing a point in front of the head by a positive root keeps it in front. */
  lemma ProjectedInFront(m: Math, p: Vec3)
    requires m.sqrt(EllipsoidNorm(p)) > 0.0 && p.z > 0.0
    ensures ProjectOntoHead(m, p).z > 0.0 && LengthSq(ProjectOntoHead(m, p)) > 0.0
  {
    QuotientPositive(p.z, m.sqrt(EllipsoidNorm(p)));
    LengthSqPositive(ProjectOntoHead(m, p));
  }

  lemma QuotientPositive(a: real, l: real)
    requires a > 0.0 && l > 0.0
    ensures a / l > 0.0
  {
  }

  lemma LengthSqPositive(q: Vec3)
    requires q.z > 0.0
    ensures LengthSq(q) > 0.0
  {
    calc {
      LengthSq(q);
      q.x * q.x + q.y * q.y + q.z * q.z;
    >  { SquaresPositive(q.x, q.y, q.z); }
      0.0;
    }
  }

  /** Sample i of a path, projected and lifted: never the undefined origin case. */
  function Surface(m: Math, path: seq<Vec3>, segments: Pos, i: nat): Vec3
    requires SqrtLaws(m) && InFront(path) && i <= segments
  {
    var q := SamplePoint(path, segments, i);
    SampleInFront(path, segments, i);
    SqrtPositive(m, EllipsoidNorm(q));
    var p := ProjectOntoHead(m, q);
    ProjectedInFront(m, q);
    SqrtPositive(m, LengthSq(p));
    Lift(m, p)
  }

  /** The rail vertex on side 0 (x − 0.01·thickness) or side 1 (x + 0.01·thickness) of sample i. */
  function Rail(m: Math, path: seq<Vec3>, thickness: real, segments: Pos, color: Vec3, i: nat, side: nat): Vertex
    requires SqrtLaws(m) && InFront(path) && i <= segments
  {
    var n := Surface(m, path, segments, i);
    Vertex(Vec3(if side == 0 then n.x - thickness * 0.01 else n.x + thickness * 0.01, n.y, n.z), color)
  }

  /** The vertices one path pushes: two rails per sample, sample by sample. */
  function CrackVertices(m: Math, path: seq<Vec3>, thickness: real, segments: Pos, color: Vec3): (vs: seq<Vertex>)
    requires SqrtLaws(m) && InFront(path)
    ensures |vs| == 2 * (segments + 1)
  {
    seq(2 * (segments + 1), (k: int) requires 0 <= k < 2 * (segments + 1) =>
      Rail(m, path, thickness, segments, color, k / 2, k % 2))
  }

  /** The first 2(i+1) rails are the first 2i followed by both rails of sample i. */
  lemma CrackVerticesStep(m: Math, path: seq<Vec3>, thickness: real, segments: Pos, color: Vec3, i: nat)
    requires SqrtLaws(m) && InFront(path) && i <= segments
    ensures CrackVertices(m, path, thickness, segments, color)[..2 * (i + 1)]
         == CrackVertices(m, path, thickness, segments, color)[..2 * i]
          + [Rail(m, path, thickness, segments, color, i, 0), Rail(m, path, thickness, segments, color, i, 1)]
  {
    var rails := CrackVertices(m, path, thickness, segments, color);
    assert rails[2 * i] == Rail(m, path, thickness, segments, color, i, 0);
    assert rails[2 * i + 1] == Rail(m, path, thickness, segments, color, i, 1);
    assert rails[..2 * (i + 1)] == rails[..2 * i] + [rails[2 * i], rails[2 * i + 1]];
  }

  /** The strip of one path whose first vertex is start: (b, b+1, b+2, b+1, b+3, b+2) for b = start + 2i. */
  function StripFaces(start: nat, n: nat): (fs: seq<nat>)
    ensures |fs| == 6 * n
  {
    if n == 0 then []
    else
      var base := start + (n - 1) * 2;
      StripFaces(start, n - 1) + [base, base + 1, base + 2, base + 1, base + 3, base + 2]
  }

  /** The faces after the first k paths (k <= 15) have been appended. */
  function Cracks(m: Math, thickness: real, segments: Pos, color: Vec3, k: nat): Geometry
    requires SqrtLaws(m) && k <= |CrackPaths|
  {
    if k == 0 then Geometry([], [])
    else
      var g := Cracks(m, thickness, segments, color, k - 1);
      PathsInFront();
      Geometry(g.vertices + CrackVertices(m, CrackPaths[k - 1], thickness, segments, color),
               g.faces + StripFaces(|g.vertices|, segments))
  }

  /** The result of generateTrapinchHeadCracks. */
  function HeadCracks(m: Math, thickness: real, segments: Pos, color: Vec3): Geometry
    requires SqrtLaws(m)
  {
    Typed(Cracks(m, thickness, segments, color, |CrackPaths|))
  }

  /** createCrackLine(controlPoints, thickness, segments), appending to the shared buffers. */
  method CreateCrackLine(m: Math, vertices: seq<Vertex>, faces: seq<nat>, path: seq<Vec3>, thickness: real,
                         segments: Pos, color: Vec3)
    returns (vs: seq<Vertex>, fs: seq<nat>)
    requires SqrtLaws(m) && InFront(path)
    ensures vs == vertices + CrackVertices(m, path, thickness, segments, color)
    ensures fs == faces + StripFaces(|vertices|, segments)
  {
    var startIdx := |vertices|;
    ghost var rails := CrackVertices(m, path, thickness, segments, color);
    vs := vertices;
    for i := 0 to segments + 1
      invariant vs == vertices + rails[..2 * i]
    {
      var n := Surface(m, path, segments, i);
      CrackVerticesStep(m, path, thickness, segments, color, i);
      vs := vs + [Vertex(Vec3(n.x - thickness * 0.01, n.y, n.z), color), Vertex(Vec3(n.x + thickness * 0.01, n.y, n.z), color)];
    }
    assert rails[..2 * (segments + 1)] == rails;
    fs := faces;
    for i := 0 to segments
      invariant fs == faces + StripFaces(startIdx, i)
    {
      var base := startIdx + i * 2;
      fs := fs + [base, base + 1, base + 2, base + 1, base + 3, base + 2];
    }
  }

  /** generateTrapinchHeadCracks(thickness, segments, color): crackPaths.forEach(createCrackLine). */
  method GenerateTrapinchHeadCracks(m: Math, thickness: real, segments: Pos, color: Vec3) returns (g: Geometry)
    requires SqrtLaws(m)
    ensures g == HeadCracks(m, thickness, segments, color)
  {
    var vertices, faces := [], [];
    PathsInFront();
    for k := 0 to |CrackPaths|
      invariant Geometry(vertices, faces) == Cracks(m, thickness, segments, color, k)
    {
      vertices, faces := CreateCrackLine(m, vertices, faces, CrackPaths[k], thickness, segments, color);
    }
    g := Typed(Geometry(vertices, faces));
  }

  // ---------------------------------------------------------------- properties

  /** Fifteen paths, all in front of the head, each starting where the previous one ends. */
  lemma PathsInFront()
    ensures |CrackPaths| == 15
    ensures forall k :: 0 <= k < |CrackPaths| ==> InFront(CrackPaths[k])
    ensures forall k :: 1 <= k < |CrackPaths| ==> CrackPaths[k][0] == CrackPaths[k - 1][3]
  {
  }

  /** projectOntoHead lands every point other than the origin on the head: x² + y²/0.9² + z²/1.2² = 1. */
  lemma ProjectOnSurface(m: Math, p: Vec3)
    requires SqrtLaws(m) && EllipsoidNorm(p) > 0.0
    ensures m.sqrt(EllipsoidNorm(p)) > 0.0
    ensures EllipsoidNorm(ProjectOntoHead(m, p)) == 1.0
  {
    SqrtPositive(m, EllipsoidNorm(p));
    var l := m.sqrt(EllipsoidNorm(p));
    DivIsScale(p.x, l);
    DivIsScale(p.y, l);
    DivIsScale(p.z, l);
    assert ProjectOntoHead(m, p) == Scale(1.0 / l, p);
    NormScale(1.0 / l, p);
    InverseSquare(l, EllipsoidNorm(p));
  }

  /** Scaling a point by k scales the radicand by k². */
  lemma NormScale(k: real, p: Vec3)
    ensures EllipsoidNorm(Scale(k, p)) == (k * k) * EllipsoidNorm(p)
  {
  }

  lemma DivIsScale(x: real, l: real)
    requires l != 0.0
    ensures x / l == (1.0 / l) * x
  {
  }

  lemma InverseSquare(l: real, s: real)
    requires l != 0.0 && l * l == s
    ensures ((1.0 / l) * (1.0 / l)) * s == 1.0
  {
    assert (1.0 / l) * l == 1.0;
    assert ((1.0 / l) * (1.0 / l)) * (l * l) == ((1.0 / l) * l) * ((1.0 / l) * l);
  }

  /** The lift multiplies all three coordinates by one factor, greater than 1. */
  lemma LiftScales(m: Math, p: Vec3)
    requires SqrtLaws(m) && LengthSq(p) > 0.0
    ensures m.sqrt(LengthSq(p)) > 0.0
    ensures exists k: real :: k > 1.0 && Lift(m, p) == Scale(k, p)
  {
    SqrtPositive(m, LengthSq(p));
    var k := 1.0 + 0.02 / m.sqrt(LengthSq(p));
    assert Lift(m, p) == Scale(k, p);
  }

  /** The two rails of a sample differ only in x, by 2·0.01·thickness. */
  lemma RailsApart(m: Math, path: seq<Vec3>, thickness: real, segments: Pos, color: Vec3, i: nat)
    requires SqrtLaws(m) && InFront(path) && i <= segments
    ensures Sub(Rail(m, path, thickness, segments, color, i, 1).pos, Rail(m, path, thickness, segments, color, i, 0).pos)
         == Vec3(2.0 * 0.01 * thickness, 0.0, 0.0)
  {
  }

  /** Strip quad i: (b, b+1, b+2), (b+1, b+3, b+2) with b = start + 2i. */
  lemma {:induction false} StripFacesAt(start: nat, n: nat, i: nat)
    requires i < n
    ensures StripFaces(start, n)[6 * i..6 * i + 6]
         == [start + 2 * i, start + 2 * i + 1, start + 2 * i + 2, start + 2 * i + 1, start + 2 * i + 3, start + 2 * i + 2]
  {
    if i < n - 1 {
      StripFacesAt(start, n - 1, i);
      assert StripFaces(start, n)[6 * i..6 * i + 6] == StripFaces(start, n - 1)[6 * i..6 * i + 6];
    }
  }

  /** A path's strip indexes only that path's own 2(segments+1) vertices. */
  lemma {:induction false} StripWithin(start: nat, n: nat)
    ensures Within(StripFaces(start, n), start, start + 2 * (n + 1))
  {
    if n > 0 {
      StripWithin(start, n - 1);
      WithinWiden(StripFaces(start, n - 1), start, start + 2 * n, start, start + 2 * (n + 1));
    }
  }

  /** After k paths: k·2(segments+1) vertices and k·6·segments indices, every index in range. */
  lemma {:induction false} CracksShape(m: Math, thickness: real, segments: Pos, color: Vec3, k: nat)
    requires SqrtLaws(m) && k <= |CrackPaths|
    ensures |Cracks(m, thickness, segments, color, k).vertices| == k * (2 * (segments + 1))
    ensures |Cracks(m, thickness, segments, color, k).faces| == k * (6 * segments)
    ensures InRange(Cracks(m, thickness, segments, color, k).faces, k * (2 * (segments + 1)))
  {
    if k > 0 {
      var w := 2 * (segments + 1);
      var g := Cracks(m, thickness, segments, color, k - 1);
      CracksShape(m, thickness, segments, color, k - 1);
      MulSucc(k - 1, w);
      MulSucc(k - 1, 6 * segments);
      MulMonotone(k - 1, k, w);
      StripWithin((k - 1) * w, segments);
      InRangeWiden(g.faces, (k - 1) * w, k * w);
      InRangeJoin(g.faces, StripFaces((k - 1) * w, segments), (k - 1) * w, k * w);
    }
  }

  /** In all: 30(segments+1) vertices and 90·segments indices, all in range. */
  lemma HeadCracksShape(m: Math, thickness: real, segments: Pos, color: Vec3)
    requires SqrtLaws(m)
    ensures |HeadCracks(m, thickness, segments, color).vertices| == 30 * (segments + 1)
    ensures |HeadCracks(m, thickness, segments, color).faces| == 90 * segments
    ensures InRange(HeadCracks(m, thickness, segments, color).faces, 30 * (segments + 1))
  {
    PathsInFront();
    CracksShape(m, thickness, segments, color, 15);
    TypedFaces(Cracks(m, thickness, segments, color, 15));
  }

  /** Every vertex carries the colour. */
  lemma {:induction false} CracksColored(m: Math, thickness: real, segments: Pos, color: Vec3, k: nat)
    requires SqrtLaws(m) && k <= |CrackPaths|
    ensures AllColored(Cracks(m, thickness, segments, color, k).vertices, color)
  {
    if k > 0 {
      CracksColored(m, thickness, segments, color, k - 1);
    }
  }
}
