/**
 * generateTrapinchNeck of Trapinch/BodyParts/Neck/TrapinchNeck.js: an hourglass stack of
 * heightSegments+1 horizontal rings from y = -height/2 to +height/2. The ring radius is
 * quadratic in the ring's height fraction v: radiusTop at v = 0, radiusMiddle at v = 1/2,
 * radiusBottom at v = 1. Faces are the (first, second, first+1), (second, second+1, first+1)
 * quads of a grid.
 */
module TrapinchNeck {
  import opened JsMath
  import opened Vectors
  import opened Mesh

  /** The radius of the ring at height fraction v, with the v > 0.5 branch overriding the first. */
  function NeckRadius(radiusTop: real, radiusMiddle: real, radiusBottom: real, v: real): real
  {
    var t := Abs(2.0 * v - 1.0);
    var radius := radiusMiddle + (radiusTop - radiusMiddle) * t * t;
    if v > 0.5 then
      var bottomT := (v - 0.5) * 2.0;
      radiusMiddle + (radiusBottom - radiusMiddle) * bottomT * bottomT
    else radius
  }

  /** The height fraction of ring i. */
  function Fraction(i: nat, heightSegments: Pos): real
  {
    i as real / heightSegments as real
  }

  function RingY(height: real, heightSegments: Pos, i: nat): real
  {
    Fraction(i, heightSegments) * height - height / 2.0
  }

  function NeckVertex(m: Math, radiusTop: real, radiusMiddle: real, radiusBottom: real, height: real,
                      heightSegments: Pos, radialSegments: Pos, color: Vec3, i: nat, j: nat): Vertex
  {
    var radius := NeckRadius(radiusTop, radiusMiddle, radiusBottom, Fraction(i, heightSegments));
    var angle := (j as real * 2.0 * PI) / radialSegments as real;
    Vertex(Vec3(radius * m.cos(angle), RingY(height, heightSegments, i), radius * m.sin(angle)), color)
  }

  function Neck(m: Math, radiusTop: real, radiusMiddle: real, radiusBottom: real, height: real,
                heightSegments: Pos, radialSegments: Pos, color: Vec3): Geometry
  {
    GridMesh(RingFirst, heightSegments, radialSegments,
             (i: nat, j: nat) => NeckVertex(m, radiusTop, radiusMiddle, radiusBottom, height, heightSegments, radialSegments, color, i, j))
  }

  /** generateTrapinchNeck(radiusTop, radiusMiddle, radiusBottom, height, heightSegments, radialSegments, color). */
  method GenerateTrapinchNeck(m: Math, radiusTop: real, radiusMiddle: real, radiusBottom: real, height: real,
                              heightSegments: Pos, radialSegments: Pos, color: Vec3)
    returns (g: Geometry)
    ensures g == Typed(Neck(m, radiusTop, radiusMiddle, radiusBottom, height, heightSegments, radialSegments, color))
  {
    var raw := BuildGridMesh(RingFirst, heightSegments, radialSegments,
                             (i: nat, j: nat) => NeckVertex(m, radiusTop, radiusMiddle, radiusBottom, height, heightSegments, radialSegments, color, i, j));
    g := Typed(raw);
  }

  /** (heightSegments+1)(radialSegments+1) vertices, 6·heightSegments·radialSegments indices, all in range. */
  lemma NeckShape(m: Math, radiusTop: real, radiusMiddle: real, radiusBottom: real, height: real,
                  heightSegments: Pos, radialSegments: Pos, color: Vec3)
    ensures |Typed(Neck(m, radiusTop, radiusMiddle, radiusBottom, height, heightSegments, radialSegments, color)).vertices|
         == (heightSegments + 1) * (radialSegments + 1)
    ensures |Typed(Neck(m, radiusTop, radiusMiddle, radiusBottom, height, heightSegments, radialSegments, color)).faces|
         == 6 * (heightSegments * radialSegments)
    ensures InRange(Typed(Neck(m, radiusTop, radiusMiddle, radiusBottom, height, heightSegments, radialSegments, color)).faces,
                    (heightSegments + 1) * (radialSegments + 1))
  {
    TypedGridShape(RingFirst, heightSegments, radialSegments,
                   (i: nat, j: nat) => NeckVertex(m, radiusTop, radiusMiddle, radiusBottom, height, heightSegments, radialSegments, color, i, j));
  }

  /**
   * Vertex (i, j) sits at index i·(radialSegments+1) + j, at the ring's height and offset from
   * the axis by radius·(cos, 0, sin); every vertex carries the colour.
   */
  lemma NeckVertexAt(m: Math, radiusTop: real, radiusMiddle: real, radiusBottom: real, height: real,
                     heightSegments: Pos, radialSegments: Pos, color: Vec3, i: nat, j: nat)
    requires i <= heightSegments && j <= radialSegments
    ensures i * (radialSegments + 1) + j < |Neck(m, radiusTop, radiusMiddle, radiusBottom, height, heightSegments, radialSegments, color).vertices|
    ensures Neck(m, radiusTop, radiusMiddle, radiusBottom, height, heightSegments, radialSegments, color).vertices[i * (radialSegments + 1) + j]
         == NeckVertex(m, radiusTop, radiusMiddle, radiusBottom, height, heightSegments, radialSegments, color, i, j)
    ensures NeckVertex(m, radiusTop, radiusMiddle, radiusBottom, height, heightSegments, radialSegments, color, i, j).pos.y
         == RingY(height, heightSegments, i)
  {
    GridAt(heightSegments + 1, radialSegments + 1,
           (i: nat, j: nat) => NeckVertex(m, radiusTop, radiusMiddle, radiusBottom, height, heightSegments, radialSegments, color, i, j), i, j);
  }

  /** The rings run from y = -height/2 (ring 0) to y = +height/2 (the last ring). */
  lemma NeckEnds(height: real, heightSegments: Pos)
    ensures RingY(height, heightSegments, 0) == -height / 2.0
    ensures RingY(height, heightSegments, heightSegments) == height / 2.0
  {
  }

  /**
   * The profile: radiusTop at the top, radiusMiddle halfway, radiusBottom at the bottom, and
   * never below radiusMiddle when that is the smallest of the three.
   */
  lemma NeckProfile(radiusTop: real, radiusMiddle: real, radiusBottom: real, v: real)
    ensures NeckRadius(radiusTop, radiusMiddle, radiusBottom, 0.0) == radiusTop
    ensures NeckRadius(radiusTop, radiusMiddle, radiusBottom, 0.5) == radiusMiddle
    ensures NeckRadius(radiusTop, radiusMiddle, radiusBottom, 1.0) == radiusBottom
    ensures radiusMiddle <= radiusTop && radiusMiddle <= radiusBottom ==>
      NeckRadius(radiusTop, radiusMiddle, radiusBottom, v) >= radiusMiddle
  {
    var t := Abs(2.0 * v - 1.0);
    assert t * t >= 0.0;
    var b := (v - 0.5) * 2.0;
    assert b * b >= 0.0;
  }

  /** Every vertex carries the colour. */
  lemma NeckColored(m: Math, radiusTop: real, radiusMiddle: real, radiusBottom: real, height: real,
                    heightSegments: Pos, radialSegments: Pos, color: Vec3)
    ensures AllColored(Neck(m, radiusTop, radiusMiddle, radiusBottom, height, heightSegments, radialSegments, color).vertices, color)
  {
    GridColored(heightSegments + 1, radialSegments + 1,
                (i: nat, j: nat) => NeckVertex(m, radiusTop, radiusMiddle, radiusBottom, height, heightSegments, radialSegments, color, i, j), color);
  }
}
