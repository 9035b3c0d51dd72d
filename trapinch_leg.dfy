/**
 * generateTrapinchLegs of Trapinch/BodyParts/Legs/TrapinchLeg.js: segments+1 horizontal
 * circles of radius `radius`, centred on points of a fixed cubic Bezier (from the hip at the
 * origin down to the foot at (0, -0.5, 0)), joined by the (first, second, first+1),
 * (second, second+1, first+1) quads.
 */
module TrapinchLeg {
  import opened JsMath
  import opened Vectors
  import opened Mesh
  import Bezier

  const P0: Vec3 := Vec3(0.0, 0.0, 0.0)
  const P1: Vec3 := Vec3(0.2, -0.2, 0.2)
  const P2: Vec3 := Vec3(0.1, -0.3, 0.1)
  const P3: Vec3 := Vec3(0.0, -0.5, 0.0)

  /** The centre of ring i: the curve at t = i/segments. */
  function RingCenter(segments: Pos, i: nat): Vec3
  {
    Bezier.Point(i as real / segments as real, P0, P1, P2, P3)
  }

  function LegVertex(m: Math, radius: real, segments: Pos, radialSegments: Pos, color: Vec3, i: nat, j: nat): Vertex
  {
    var point := RingCenter(segments, i);
    var angle := (j as real * 2.0 * PI) / radialSegments as real;
    Vertex(Vec3(point.x + radius * m.cos(angle), point.y, point.z + radius * m.sin(angle)), color)
  }

  function Leg(m: Math, radius: real, segments: Pos, radialSegments: Pos, color: Vec3): Geometry
  {
    GridMesh(RingFirst, segments, radialSegments,
             (i: nat, j: nat) => LegVertex(m, radius, segments, radialSegments, color, i, j))
  }

  /** generateTrapinchLegs(radius, segments, radialSegments, color). */
  method GenerateTrapinchLegs(m: Math, radius: real, segments: Pos, radialSegments: Pos, color: Vec3)
    returns (g: Geometry)
    ensures g == Typed(Leg(m, radius, segments, radialSegments, color))
  {
    var raw := BuildGridMesh(RingFirst, segments, radialSegments,
                             (i: nat, j: nat) => LegVertex(m, radius, segments, radialSegments, color, i, j));
    g := Typed(raw);
  }

  /** (segments+1)(radialSegments+1) vertices, 6·segments·radialSegments indices, all in range. */
  lemma LegShape(m: Math, radius: real, segments: Pos, radialSegments: Pos, color: Vec3)
    ensures |Typed(Leg(m, radius, segments, radialSegments, color)).vertices| == (segments + 1) * (radialSegments + 1)
    ensures |Typed(Leg(m, radius, segments, radialSegments, color)).faces| == 6 * (segments * radialSegments)
    ensures InRange(Typed(Leg(m, radius, segments, radialSegments, color)).faces, (segments + 1) * (radialSegments + 1))
  {
    TypedGridShape(RingFirst, segments, radialSegments,
                   (i: nat, j: nat) => LegVertex(m, radius, segments, radialSegments, color, i, j));
  }

  /** The first ring is centred on the hip (0, 0, 0), the last on the foot (0, -0.5, 0). */
  lemma LegEnds(segments: Pos)
    ensures RingCenter(segments, 0) == Vec3(0.0, 0.0, 0.0)
    ensures RingCenter(segments, segments) == Vec3(0.0, -0.5, 0.0)
  {
    Bezier.PointEnds(P0, P1, P2, P3);
    assert 0 as real / segments as real == 0.0;
    assert segments as real / segments as real == 1.0;
  }

  /** Vertex (i, j) sits at index i·(radialSegments+1) + j. */
  lemma LegVertexAt(m: Math, radius: real, segments: Pos, radialSegments: Pos, color: Vec3, i: nat, j: nat)
    requires i <= segments && j <= radialSegments
    ensures i * (radialSegments + 1) + j < |Leg(m, radius, segments, radialSegments, color).vertices|
    ensures Leg(m, radius, segments, radialSegments, color).vertices[i * (radialSegments + 1) + j]
         == LegVertex(m, radius, segments, radialSegments, color, i, j)
  {
    GridAt(segments + 1, radialSegments + 1,
           (i: nat, j: nat) => LegVertex(m, radius, segments, radialSegments, color, i, j), i, j);
  }

  /**
   * Vertex (i, j) has the y of its ring's centre (the rings are horizontal, not perpendicular
   * to the curve) and lies at distance `radius` from that centre.
   */
  lemma LegVertexOnRing(m: Math, radius: real, segments: Pos, radialSegments: Pos, color: Vec3, i: nat, j: nat)
    requires TrigLaws(m)
    ensures LegVertex(m, radius, segments, radialSegments, color, i, j).pos.y == RingCenter(segments, i).y
    ensures var p, c := LegVertex(m, radius, segments, radialSegments, color, i, j).pos, RingCenter(segments, i);
      (p.x - c.x) * (p.x - c.x) + (p.z - c.z) * (p.z - c.z) == radius * radius
  {
    var angle := (j as real * 2.0 * PI) / radialSegments as real;
    OnCircle(m, radius, angle);
  }

  /** Every vertex carries the colour. */
  lemma LegColored(m: Math, radius: real, segments: Pos, radialSegments: Pos, color: Vec3)
    ensures AllColored(Leg(m, radius, segments, radialSegments, color).vertices, color)
  {
    GridColored(segments + 1, radialSegments + 1,
                (i: nat, j: nat) => LegVertex(m, radius, segments, radialSegments, color, i, j), color);
  }
}
