/**
 * Vibrava/legs.js. generateLegSegment is a tapered tube hanging down the y axis: segments+1
 * rings of segments+1 vertices, ring i at y = −length·i/segments with a radius interpolated
 * from radiusTop to radiusBottom, each vertex shaded by 0.8 + 0.2·cos of its angle; then a
 * top centre (0, 0, 0) and a bottom centre (0, −length, 0) in the plain colour, a fan over
 * the first ring and an oppositely wound fan over the last. generateVibravaLeg builds the
 * five segments of a leg and getLegPositions holds the four legs' placements.
 */
module VibravaLegs {
  import opened JsMath
  import opened Vectors
  import opened Mesh

  const SegmentColor: Vec3 := Vec3(0.2, 0.2, 0.2)

  // ---------------------------------------------------------------- one segment

  function Fraction(segments: Pos, i: nat): (t: real)
    ensures i == 0 ==> t == 0.0
    ensures i == segments ==> t == 1.0
  {
    WholeFraction(segments);
    i as real / segments as real
  }

  function Angle(segments: Pos, j: nat): real
  {
    (j as real / segments as real) * PI * 2.0
  }

  /** The radius at fraction t: radiusTop at the top ring, radiusBottom at the bottom one. */
  function RadiusAt(radiusTop: real, radiusBottom: real, t: real): (r: real)
    ensures t == 0.0 ==> r == radiusTop
    ensures t == 1.0 ==> r == radiusBottom
  {
    radiusTop + (radiusBottom - radiusTop) * t
  }

  function Shade(m: Math, angle: real): real
  {
    0.8 + 0.2 * m.cos(angle)
  }

  function Shaded(color: Vec3, shade: real): Vec3
  {
    Vec3(color.x * shade, color.y * shade, color.z * shade)
  }

  function SegmentVertex(m: Math, length: real, radiusTop: real, radiusBottom: real, segments: Pos, color: Vec3,
                         i: nat, j: nat): Vertex
  {
    var t := Fraction(segments, i);
    var radius := RadiusAt(radiusTop, radiusBottom, t);
    var angle := Angle(segments, j);
    Vertex(Vec3(m.cos(angle) * radius, -length * t, m.sin(angle) * radius), Shaded(color, Shade(m, angle)))
  }

  /** The (segments+1)² ring vertices. */
  function SegmentRings(m: Math, length: real, radiusTop: real, radiusBottom: real, segments: Pos, color: Vec3)
    : seq<Vertex>
  {
    Grid(segments + 1, segments + 1,
         (i: nat, j: nat) => SegmentVertex(m, length, radiusTop, radiusBottom, segments, color, i, j))
  }

  /** The index of the top centre, (segments+1)²; the bottom centre follows it. */
  function TopCenter(segments: Pos): nat
  {
    (segments + 1) * (segments + 1)
  }

  function TopVertex(color: Vec3): Vertex
  {
    Vertex(Vec3(0.0, 0.0, 0.0), color)
  }

  function BottomVertex(length: real, color: Vec3): Vertex
  {
    Vertex(Vec3(0.0, -length, 0.0), color)
  }

  function SegmentFaces(segments: Pos): seq<nat>
  {
    var top := TopCenter(segments);
    GridFaces(Diagonal, segments, segments, 0)
      + Fan(top, 0, segments, false)
      + Fan(top + 1, segments * (segments + 1), segments, true)
  }

  function LegSegment(m: Math, length: real, radiusTop: real, radiusBottom: real, segments: Pos, color: Vec3)
    : Geometry
  {
    Geometry(SegmentRings(m, length, radiusTop, radiusBottom, segments, color)
               + [TopVertex(color)] + [BottomVertex(length, color)],
             SegmentFaces(segments))
  }

  /** generateLegSegment(length, radiusTop, radiusBottom, segments = 8, color = [0.2, 0.2, 0.2]). */
  method GenerateLegSegment(m: Math, length: real, radiusTop: real, radiusBottom: real, segmentsArg: Option<Pos>,
                            colorArg: Option<Vec3>) returns (g: Geometry)
    ensures g == LegSegment(m, length, radiusTop, radiusBottom, Nullish(segmentsArg, 8),
                            Nullish(colorArg, SegmentColor))
  {
    g := BuildLegSegment(m, length, radiusTop, radiusBottom, Nullish(segmentsArg, 8), Nullish(colorArg, SegmentColor));
  }

  /** The body of generateLegSegment once its defaults are applied. */
  method BuildLegSegment(m: Math, length: real, radiusTop: real, radiusBottom: real, segments: Pos, color: Vec3)
    returns (g: Geometry)
    ensures g == LegSegment(m, length, radiusTop, radiusBottom, segments, color)
  {
    var vs := AppendGrid([], segments + 1, segments + 1,
                         (i: nat, j: nat) => SegmentVertex(m, length, radiusTop, radiusBottom, segments, color, i, j));
    assert vs == SegmentRings(m, length, radiusTop, radiusBottom, segments, color);
    var topCenter := |vs|;
    vs := vs + [TopVertex(color)];
    var bottomCenter := |vs|;
    vs := vs + [BottomVertex(length, color)];
    var fs := BuildSegmentFaces(segments, topCenter, bottomCenter);
    g := Geometry(vs, fs);
  }

  /** The side quads, then the two cap fans around the centres pushed after the rings. */
  method BuildSegmentFaces(segments: Pos, topCenter: nat, bottomCenter: nat) returns (fs: seq<nat>)
    requires topCenter == TopCenter(segments) && bottomCenter == topCenter + 1
    ensures fs == SegmentFaces(segments)
  {
    var ring := segments + 1;
    fs := AppendGridFaces([], Diagonal, segments, segments, 0);
    assert fs == GridFaces(Diagonal, segments, segments, 0);
    fs := AppendFan(fs, topCenter, 0, segments, false);
    MulNonNegative(segments, ring);
    var lastRing := segments * ring;
    fs := AppendFan(fs, bottomCenter, lastRing, segments, true);
  }

  /**
   * (segments+1)² + 2 vertices, 6·segments² + 6·segments indices in range; the side quads
   * come first, then the top fan (topCenter, j, j+1) and the bottom fan
   * (bottomCenter, lastRing+j+1, lastRing+j).
   */
  lemma SegmentFacesShape(segments: Pos)
    ensures var fs, top := SegmentFaces(segments), TopCenter(segments);
            && |fs| == 6 * (segments * segments) + 6 * segments
            && InRange(fs, top + 2)
  {
    var s, top := segments, TopCenter(segments);
    MulNonNegative(s, s + 1);
    var lastRing := s * (s + 1);
    MulSucc(s, s + 1);
    assert top == lastRing + s + 1;
    var grid, capTop, capBottom := GridFaces(Diagonal, s, s, 0), Fan(top, 0, s, false), Fan(top + 1, lastRing, s, true);
    assert SegmentFaces(s) == grid + capTop + capBottom;
    GridFacesLength(Diagonal, s, s, 0);
    GridFacesWithin(Diagonal, s, s, 0);
    WithinWiden(grid, 0, top, 0, top + 2);
    FanWithin(top, 0, s, false, 0, top + 2);
    FanWithin(top + 1, lastRing, s, true, 0, top + 2);
    WithinConcat(grid, capTop, 0, top + 2);
    WithinConcat(grid + capTop, capBottom, 0, top + 2);
  }

  /** The vertex count, and the two cap centres at (0, 0, 0) and (0, −length, 0), unshaded. */
  lemma SegmentCenters(m: Math, length: real, radiusTop: real, radiusBottom: real, segments: Pos, color: Vec3)
    ensures var g, top := LegSegment(m, length, radiusTop, radiusBottom, segments, color), TopCenter(segments);
            && |g.vertices| == top + 2
            && g.vertices[top] == Vertex(Vec3(0.0, 0.0, 0.0), color)
            && g.vertices[top + 1] == Vertex(Vec3(0.0, -length, 0.0), color)
  {
    var rings := SegmentRings(m, length, radiusTop, radiusBottom, segments, color);
    assert |rings| == TopCenter(segments);
    var top, bottom := TopVertex(color), BottomVertex(length, color);
    assert (rings + [top] + [bottom])[|rings|] == top;
    assert (rings + [top] + [bottom])[|rings| + 1] == bottom;
  }

  /** Vertex j of ring i sits at index i(segments+1)+j. */
  lemma SegmentVertexAt(m: Math, length: real, radiusTop: real, radiusBottom: real, segments: Pos, color: Vec3,
                        i: nat, j: nat)
    requires i <= segments && j <= segments
    ensures i * (segments + 1) + j < TopCenter(segments)
    ensures |LegSegment(m, length, radiusTop, radiusBottom, segments, color).vertices| > TopCenter(segments)
    ensures LegSegment(m, length, radiusTop, radiusBottom, segments, color).vertices[i * (segments + 1) + j]
         == SegmentVertex(m, length, radiusTop, radiusBottom, segments, color, i, j)
  {
    GridAt(segments + 1, segments + 1,
           (i: nat, j: nat) => SegmentVertex(m, length, radiusTop, radiusBottom, segments, color, i, j), i, j);
    var rings := SegmentRings(m, length, radiusTop, radiusBottom, segments, color);
    MulNonNegative(i, segments + 1);
    var n := i * (segments + 1) + j;
    ConcatLeftAt(rings, [TopVertex(color)], n);
    ConcatLeftAt(rings + [TopVertex(color)], [BottomVertex(length, color)], n);
  }

  /**
   * Ring i lies in the plane y = −length·i/segments, on the circle x² + z² = radius² for
   * the radius at that fraction.
   */
  lemma SegmentRing(m: Math, length: real, radiusTop: real, radiusBottom: real, segments: Pos, color: Vec3,
                    i: nat, j: nat)
    requires TrigLaws(m)
    ensures var p, r := SegmentVertex(m, length, radiusTop, radiusBottom, segments, color, i, j).pos,
                        RadiusAt(radiusTop, radiusBottom, Fraction(segments, i));
            && p.y == -length * Fraction(segments, i)
            && p.x * p.x + p.z * p.z == r * r
  {
    var angle := Angle(segments, j);
    var r := RadiusAt(radiusTop, radiusBottom, Fraction(segments, i));
    OnCircle(m, r, angle);
    assert m.cos(angle) * r == r * m.cos(angle) && m.sin(angle) * r == r * m.sin(angle);
  }

  /** A ring vertex's colour is the segment colour times a shade 0.8 + 0.2·cos in [0.6, 1]. */
  lemma SegmentShade(m: Math, length: real, radiusTop: real, radiusBottom: real, segments: Pos, color: Vec3,
                     i: nat, j: nat)
    requires TrigLaws(m)
    ensures SegmentVertex(m, length, radiusTop, radiusBottom, segments, color, i, j).color
         == Shaded(color, Shade(m, Angle(segments, j)))
    ensures 0.6 <= Shade(m, Angle(segments, j)) <= 1.0
  {
    TrigBounded(m, Angle(segments, j));
  }

  // ---------------------------------------------------------------- the leg

  /** The destructured config object; an absent property is None and takes its default. */
  datatype LegConfig = LegConfig(thighLength: Option<real>, thighRadius: Option<real>,
                                 shinLength: Option<real>, shinRadius: Option<real>,
                                 footLength: Option<real>, footRadius: Option<real>,
                                 toeLength: Option<real>, color: Option<Vec3>)

  const LegColor: Vec3 := Vec3(0.25, 0.25, 0.2)

  /** The segment counts: 8 for thigh and shin, 6 for the foot and the toes. */
  const UpperSegments: Pos := 8
  const LowerSegments: Pos := 6

  datatype Leg = Leg(thigh: Geometry, shin: Geometry, foot: Geometry, leftToe: Geometry, rightToe: Geometry)

  /** The five segments from the resolved lengths and radii. */
  function LegOf(m: Math, thighLength: real, thighRadius: real, shinLength: real, shinRadius: real,
                 footLength: real, footRadius: real, toeLength: real, color: Vec3, upper: Pos, lower: Pos): Leg
  {
    Leg(LegSegment(m, thighLength, thighRadius, thighRadius * 0.8, upper, color),
        LegSegment(m, shinLength, shinRadius, shinRadius * 0.7, upper, color),
        LegSegment(m, footLength, footRadius, footRadius * 0.5, lower, color),
        LegSegment(m, toeLength, footRadius * 0.4, footRadius * 0.2, lower, color),
        LegSegment(m, toeLength, footRadius * 0.4, footRadius * 0.2, lower, color))
  }

  function VibravaLeg(m: Math, cfg: LegConfig): Leg
  {
    LegOf(m, Nullish(cfg.thighLength, 1.2), Nullish(cfg.thighRadius, 0.3), Nullish(cfg.shinLength, 1.5),
          Nullish(cfg.shinRadius, 0.1), Nullish(cfg.footLength, 0.8), Nullish(cfg.footRadius, 0.08),
          Nullish(cfg.toeLength, 0.3), Nullish(cfg.color, LegColor), UpperSegments, LowerSegments)
  }

  /** generateVibravaLeg(config = {}). */
  method GenerateVibravaLeg(m: Math, cfg: LegConfig) returns (leg: Leg)
    ensures leg == VibravaLeg(m, cfg)
  {
    leg := BuildLeg(m, Nullish(cfg.thighLength, 1.2), Nullish(cfg.thighRadius, 0.3), Nullish(cfg.shinLength, 1.5),
                    Nullish(cfg.shinRadius, 0.1), Nullish(cfg.footLength, 0.8), Nullish(cfg.footRadius, 0.08),
                    Nullish(cfg.toeLength, 0.3), Nullish(cfg.color, LegColor), UpperSegments, LowerSegments);
  }

  /** The five generateLegSegment calls of generateVibravaLeg. */
  method BuildLeg(m: Math, thighLength: real, thighRadius: real, shinLength: real, shinRadius: real,
                  footLength: real, footRadius: real, toeLength: real, color: Vec3, upper: Pos, lower: Pos)
    returns (leg: Leg)
    ensures leg == LegOf(m, thighLength, thighRadius, shinLength, shinRadius, footLength, footRadius, toeLength, color,
                         upper, lower)
  {
    var thigh := BuildLegSegment(m, thighLength, thighRadius, thighRadius * 0.8, upper, color);
    var shin := BuildLegSegment(m, shinLength, shinRadius, shinRadius * 0.7, upper, color);
    var foot := BuildLegSegment(m, footLength, footRadius, footRadius * 0.5, lower, color);
    var leftToe := BuildLegSegment(m, toeLength, footRadius * 0.4, footRadius * 0.2, lower, color);
    var rightToe := BuildLegSegment(m, toeLength, footRadius * 0.4, footRadius * 0.2, lower, color);
    leg := Leg(thigh, shin, foot, leftToe, rightToe);
  }

  /**
   * The two toes are the same mesh; thigh and shin have 8 segments (83 vertices, 432
   * indices), foot and toes 6 (51 vertices, 252 indices); each segment's last ring has a
   * fixed fraction of its first ring's radius: 0.8, 0.7, 0.5, 0.5.
   */
  lemma LegParts(m: Math, cfg: LegConfig)
    ensures var leg, r := VibravaLeg(m, cfg), Nullish(cfg.footRadius, 0.08);
            && leg.leftToe == leg.rightToe
            && |leg.thigh.vertices| == 83 && |leg.thigh.faces| == 432
            && |leg.shin.vertices| == 83 && |leg.shin.faces| == 432
            && |leg.foot.vertices| == 51 && |leg.foot.faces| == 252
            && |leg.leftToe.vertices| == 51 && |leg.leftToe.faces| == 252
            && r * 0.2 == (r * 0.4) * 0.5
  {
    var footRadius, color := Nullish(cfg.footRadius, 0.08), Nullish(cfg.color, LegColor);
    SegmentFacesShape(UpperSegments);
    SegmentFacesShape(LowerSegments);
    SegmentCenters(m, Nullish(cfg.thighLength, 1.2), Nullish(cfg.thighRadius, 0.3),
                   Nullish(cfg.thighRadius, 0.3) * 0.8, UpperSegments, color);
    SegmentCenters(m, Nullish(cfg.shinLength, 1.5), Nullish(cfg.shinRadius, 0.1),
                   Nullish(cfg.shinRadius, 0.1) * 0.7, UpperSegments, color);
    SegmentCenters(m, Nullish(cfg.footLength, 0.8), footRadius, footRadius * 0.5, LowerSegments, color);
    SegmentCenters(m, Nullish(cfg.toeLength, 0.3), footRadius * 0.4, footRadius * 0.2, LowerSegments, color);
  }

  // ---------------------------------------------------------------- placements

  datatype Placement = Placement(base: Vec3, hip: real, knee: real, leftToe: real, rightToe: real)

  datatype LegPositions = LegPositions(frontLeft: Placement, frontRight: Placement,
                                       backLeft: Placement, backRight: Placement)

  /** A left leg's placement on the right side: base z and knee angle negated. */
  function Mirrored(p: Placement): Placement
  {
    Placement(Vec3(p.base.x, p.base.y, -p.base.z), p.hip, -p.knee, p.leftToe, p.rightToe)
  }

  /** getLegPositions(): each right leg mirrors its left counterpart. */
  function GetLegPositions(): (r: LegPositions)
    ensures r.frontRight == Mirrored(r.frontLeft) && r.backRight == Mirrored(r.backLeft)
    ensures r.frontLeft.base.z > 0.0 && r.backLeft.base.z > 0.0
  {
    LegPositions(Placement(Vec3(2.5, -0.3, 0.6), 100.0, 90.0, 60.0, 60.0),
                 Placement(Vec3(2.5, -0.3, -0.6), 100.0, -90.0, 60.0, 60.0),
                 Placement(Vec3(0.5, -0.4, 0.7), 100.0, 90.0, 65.0, 65.0),
                 Placement(Vec3(0.5, -0.4, -0.7), 100.0, -90.0, 65.0, 65.0))
  }
}
