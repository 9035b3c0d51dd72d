/**
 * generateTrapinchMouth of Trapinch/BodyParts/Head/TrapinchMouth.js: a frustum of two rings
 * (topRadius at y = -height/2, bottomRadius at y = +height/2), its side quads, then a cap
 * centre and fan for each ring, the two fans wound in opposite directions.
 */
module TrapinchMouth {
  import opened JsMath
  import opened Vectors
  import opened Mesh

  function MouthVertex(m: Math, topRadius: real, bottomRadius: real, height: real, radialSegments: Pos, color: Vec3,
                       i: nat, j: nat): Vertex
  {
    var y := i as real * height - height / 2.0;
    var radius := if i == 0 then topRadius else bottomRadius;
    var angle := (j as real * 2.0 * PI) / radialSegments as real;
    Vertex(Vec3(radius * m.cos(angle), y, radius * m.sin(angle)), color)
  }

  function Rings(m: Math, topRadius: real, bottomRadius: real, height: real, radialSegments: Pos, color: Vec3): (vs: seq<Vertex>)
    ensures |vs| == 2 * (radialSegments + 1)
  {
    Grid(2, radialSegments + 1, (i: nat, j: nat) => MouthVertex(m, topRadius, bottomRadius, height, radialSegments, color, i, j))
  }

  /** The side quads, the top fan about index 2(rs+1) and the bottom fan about 2(rs+1)+1. */
  function MouthFaces(rs: Pos): seq<nat>
  {
    var top := 2 * (rs + 1);
    RowFaces(RingFirst, 0, rs, rs + 1) + Fan(top, 0, rs, false) + Fan(top + 1, rs + 1, rs, true)
  }

  /** The untyped buffers: the rings and the two cap centres; side quads, top fan, bottom fan. */
  function Mouth(m: Math, topRadius: real, bottomRadius: real, height: real, radialSegments: Pos, color: Vec3): Geometry
  {
    var rs := radialSegments;
    var top := 2 * (rs + 1);
    Geometry(Rings(m, topRadius, bottomRadius, height, rs, color)
               + [Vertex(Vec3(0.0, -height / 2.0, 0.0), color), Vertex(Vec3(0.0, height / 2.0, 0.0), color)],
             MouthFaces(rs))
  }

  /** The side quads, then the cap fans about the two given centre indices, as the source pushes them. */
  method PushMouthFaces(rs: Pos, topCenterIndex: nat, bottomCenterIndex: nat) returns (faces: seq<nat>)
    ensures faces == RowFaces(RingFirst, 0, rs, rs + 1) + Fan(topCenterIndex, 0, rs, false)
                     + Fan(bottomCenterIndex, rs + 1, rs, true)
  {
    faces := AppendRowFaces([], RingFirst, 0, rs, rs + 1);
    assert faces == RowFaces(RingFirst, 0, rs, rs + 1);
    faces := AppendFan(faces, topCenterIndex, 0, rs, false);
    faces := AppendFan(faces, bottomCenterIndex, rs + 1, rs, true);
  }

  method PushMouthRings(m: Math, topRadius: real, bottomRadius: real, height: real, radialSegments: Pos, color: Vec3)
    returns (rings: seq<Vertex>)
    ensures rings == Rings(m, topRadius, bottomRadius, height, radialSegments, color)
  {
    rings := AppendGrid([], 2, radialSegments + 1,
                        (i: nat, j: nat) => MouthVertex(m, topRadius, bottomRadius, height, radialSegments, color, i, j));
  }

  /** generateTrapinchMouth(topRadius, bottomRadius, height, radialSegments, color). */
  method GenerateTrapinchMouth(m: Math, topRadius: real, bottomRadius: real, height: real, radialSegments: Pos, color: Vec3)
    returns (g: Geometry)
    ensures g == Typed(Mouth(m, topRadius, bottomRadius, height, radialSegments, color))
  {
    var rs := radialSegments;
    var rings := PushMouthRings(m, topRadius, bottomRadius, height, rs, color);
    var topCenterIndex := |rings|;
    var vertices := rings + [Vertex(Vec3(0.0, -height / 2.0, 0.0), color)];
    var bottomCenterIndex := |vertices|;
    vertices := vertices + [Vertex(Vec3(0.0, height / 2.0, 0.0), color)];
    var faces := PushMouthFaces(rs, topCenterIndex, bottomCenterIndex);
    assert faces == MouthFaces(rs);
    assert vertices == rings + [Vertex(Vec3(0.0, -height / 2.0, 0.0), color), Vertex(Vec3(0.0, height / 2.0, 0.0), color)];
    g := Typed(Geometry(vertices, faces));
  }

  /** 6·rs side indices, 3·rs per cap (12·rs in all), every index below 2·rs + 4. */
  lemma MouthFacesInRange(rs: Pos)
    ensures |RowFaces(RingFirst, 0, rs, rs + 1)| == 6 * rs
    ensures |MouthFaces(rs)| == 12 * rs && InRange(MouthFaces(rs), 2 * rs + 4)
  {
    var n := 2 * rs + 4;
    RowFacesWithin(RingFirst, 0, rs, rs + 1);
    WithinWiden(RowFaces(RingFirst, 0, rs, rs + 1), 0, 0 + rs + (rs + 1) + 1, 0, n);
    FanWithin(2 * (rs + 1), 0, rs, false, 0, n);
    FanWithin(2 * (rs + 1) + 1, rs + 1, rs, true, 0, n);
    WithinConcat(RowFaces(RingFirst, 0, rs, rs + 1), Fan(2 * (rs + 1), 0, rs, false), 0, n);
    WithinConcat(RowFaces(RingFirst, 0, rs, rs + 1) + Fan(2 * (rs + 1), 0, rs, false), Fan(2 * (rs + 1) + 1, rs + 1, rs, true), 0, n);
  }

  /** 2·rs + 4 vertices and 12·rs indices, every index below 2·rs + 4, before and after the Uint16 conversion. */
  lemma MouthShape(m: Math, topRadius: real, bottomRadius: real, height: real, radialSegments: Pos, color: Vec3)
    ensures |Typed(Mouth(m, topRadius, bottomRadius, height, radialSegments, color)).vertices| == 2 * radialSegments + 4
    ensures |Typed(Mouth(m, topRadius, bottomRadius, height, radialSegments, color)).faces| == 12 * radialSegments
    ensures InRange(Typed(Mouth(m, topRadius, bottomRadius, height, radialSegments, color)).faces, 2 * radialSegments + 4)
  {
    var g := Mouth(m, topRadius, bottomRadius, height, radialSegments, color);
    MouthFacesInRange(radialSegments);
    assert g.faces == MouthFaces(radialSegments) && |g.vertices| == 2 * radialSegments + 4;
    TypedFaces(g);
  }

  /**
   * Ring 0 (vertices 0..rs) lies at y = -height/2 with topRadius, ring 1 (vertices rs+1..2rs+1)
   * at y = +height/2 with bottomRadius; vertex 2(rs+1) is the top-cap centre (0, -height/2, 0)
   * and vertex 2(rs+1)+1 the bottom-cap centre (0, height/2, 0).
   */
  lemma MouthVertices(m: Math, topRadius: real, bottomRadius: real, height: real, radialSegments: Pos, color: Vec3, j: nat)
    requires j <= radialSegments
    ensures var vs := Mouth(m, topRadius, bottomRadius, height, radialSegments, color).vertices;
      && vs[j] == MouthVertex(m, topRadius, bottomRadius, height, radialSegments, color, 0, j)
      && vs[radialSegments + 1 + j] == MouthVertex(m, topRadius, bottomRadius, height, radialSegments, color, 1, j)
      && vs[2 * (radialSegments + 1)] == Vertex(Vec3(0.0, -height / 2.0, 0.0), color)
      && vs[2 * (radialSegments + 1) + 1] == Vertex(Vec3(0.0, height / 2.0, 0.0), color)
    ensures MouthVertex(m, topRadius, bottomRadius, height, radialSegments, color, 0, j).pos.y == -height / 2.0
    ensures MouthVertex(m, topRadius, bottomRadius, height, radialSegments, color, 1, j).pos.y == height / 2.0
  {
    var f := (i: nat, j: nat) => MouthVertex(m, topRadius, bottomRadius, height, radialSegments, color, i, j);
    GridAt(2, radialSegments + 1, f, 0, j);
    GridAt(2, radialSegments + 1, f, 1, j);
  }

  /** Triangle j of the second and of the third part, when the parts are 6·rs, 3·rs and 3·rs long. */
  lemma PartsAt(side: seq<nat>, top: seq<nat>, bottom: seq<nat>, rs: nat, j: nat)
    requires |side| == 6 * rs && |top| == 3 * rs && |bottom| == 3 * rs && j < rs
    ensures (side + top + bottom)[6 * rs + 3 * j..6 * rs + 3 * j + 3] == top[3 * j..3 * j + 3]
    ensures (side + top + bottom)[9 * rs + 3 * j..9 * rs + 3 * j + 3] == bottom[3 * j..3 * j + 3]
  {
    SliceLeft(side + top, bottom, 6 * rs + 3 * j, 6 * rs + 3 * j + 3);
    SliceAfter(side, top, 6 * rs, 3 * j, 3);
    SliceAfter(side + top, bottom, 9 * rs, 3 * j, 3);
  }

  /**
   * Cap triangle j: (topCenter, j, j+1) in the top fan, (bottomCenter, rs+1+j+1, rs+1+j) in the
   * bottom fan, the opposite winding.
   */
  lemma MouthCaps(rs: Pos, j: nat)
    requires j < rs
    ensures var fs := MouthFaces(rs);
      && fs[6 * rs + 3 * j..6 * rs + 3 * j + 3] == [2 * (rs + 1), j, j + 1]
      && fs[9 * rs + 3 * j..9 * rs + 3 * j + 3] == [2 * (rs + 1) + 1, rs + 1 + j + 1, rs + 1 + j]
  {
    var side, top, bottom := RowFaces(RingFirst, 0, rs, rs + 1), Fan(2 * (rs + 1), 0, rs, false), Fan(2 * (rs + 1) + 1, rs + 1, rs, true);
    FanTriangle(2 * (rs + 1), 0, rs, false, j);
    FanTriangle(2 * (rs + 1) + 1, rs + 1, rs, true, j);
    PartsAt(side, top, bottom, rs, j);
  }

  /** Every vertex, cap centres included, carries the colour. */
  lemma MouthColored(m: Math, topRadius: real, bottomRadius: real, height: real, radialSegments: Pos, color: Vec3)
    ensures AllColored(Mouth(m, topRadius, bottomRadius, height, radialSegments, color).vertices, color)
  {
    GridColored(2, radialSegments + 1,
                (i: nat, j: nat) => MouthVertex(m, topRadius, bottomRadius, height, radialSegments, color, i, j), color);
  }
}
