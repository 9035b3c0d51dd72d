/**
 * generateTrapinchBody of Trapinch/BodyParts/Body/TrapinchBody.js: a latitude/longitude
 * ellipsoid with radii rx, ry, rz. Ring lat (theta = lat·PI/latBands, from the top) holds
 * longBands+1 vertices (phi = long·2PI/longBands around), all of one colour, and each cell
 * between two rings is two triangles (first, second, first+1), (second, second+1, first+1).
 * The head and both eye generators of Trapinch run this same code.
 */
module TrapinchBody {
  import opened JsMath
  import opened Vectors
  import opened Mesh

  /** Vertex (lat, long) of the ellipsoid. */
  function EllipsoidVertex(m: Math, rx: real, ry: real, rz: real, latBands: Pos, longBands: Pos, color: Vec3,
                           lat: nat, long: nat): Vertex
  {
    var theta := (lat as real * PI) / latBands as real;
    var phi := (long as real * 2.0 * PI) / longBands as real;
    Vertex(Vec3(rx * m.cos(phi) * m.sin(theta), ry * m.cos(theta), rz * m.sin(phi) * m.sin(theta)), color)
  }

  /** The untyped buffers the loops fill. */
  function Ellipsoid(m: Math, rx: real, ry: real, rz: real, latBands: Pos, longBands: Pos, color: Vec3): Geometry
  {
    GridMesh(RingFirst, latBands, longBands,
             (lat: nat, long: nat) => EllipsoidVertex(m, rx, ry, rz, latBands, longBands, color, lat, long))
  }

  /** generateTrapinchBody(rx, ry, rz, latBands, longBands, color). */
  method GenerateTrapinchBody(m: Math, rx: real, ry: real, rz: real, latBands: Pos, longBands: Pos, color: Vec3)
    returns (g: Geometry)
    ensures g == Typed(Ellipsoid(m, rx, ry, rz, latBands, longBands, color))
  {
    var raw := BuildGridMesh(RingFirst, latBands, longBands,
                             (lat: nat, long: nat) => EllipsoidVertex(m, rx, ry, rz, latBands, longBands, color, lat, long));
    g := Typed(raw);
  }

  /**
   * (latBands+1)(longBands+1) vertices and 6·latBands·longBands indices, every index below
   * the vertex count; up to 65536 vertices the Uint16 faces are the grid's quads unchanged.
   */
  lemma EllipsoidShape(m: Math, rx: real, ry: real, rz: real, latBands: Pos, longBands: Pos, color: Vec3)
    ensures |Typed(Ellipsoid(m, rx, ry, rz, latBands, longBands, color)).vertices| == (latBands + 1) * (longBands + 1)
    ensures |Typed(Ellipsoid(m, rx, ry, rz, latBands, longBands, color)).faces| == 6 * (latBands * longBands)
    ensures InRange(Typed(Ellipsoid(m, rx, ry, rz, latBands, longBands, color)).faces, (latBands + 1) * (longBands + 1))
    ensures (latBands + 1) * (longBands + 1) <= 65536 ==>
      Typed(Ellipsoid(m, rx, ry, rz, latBands, longBands, color)).faces == GridFaces(RingFirst, latBands, longBands, 0)
  {
    TypedGridShape(RingFirst, latBands, longBands,
                   (lat: nat, long: nat) => EllipsoidVertex(m, rx, ry, rz, latBands, longBands, color, lat, long));
  }

  /** Vertex (lat, long) sits at index lat·(longBands+1) + long. */
  lemma EllipsoidVertexAt(m: Math, rx: real, ry: real, rz: real, latBands: Pos, longBands: Pos, color: Vec3,
                          lat: nat, long: nat)
    requires lat <= latBands && long <= longBands
    ensures lat * (longBands + 1) + long < |Ellipsoid(m, rx, ry, rz, latBands, longBands, color).vertices|
    ensures Ellipsoid(m, rx, ry, rz, latBands, longBands, color).vertices[lat * (longBands + 1) + long]
         == EllipsoidVertex(m, rx, ry, rz, latBands, longBands, color, lat, long)
  {
    GridAt(latBands + 1, longBands + 1,
           (lat: nat, long: nat) => EllipsoidVertex(m, rx, ry, rz, latBands, longBands, color, lat, long), lat, long);
  }

  /** Every vertex carries exactly the given colour. */
  lemma EllipsoidColored(m: Math, rx: real, ry: real, rz: real, latBands: Pos, longBands: Pos, color: Vec3)
    ensures AllColored(Ellipsoid(m, rx, ry, rz, latBands, longBands, color).vertices, color)
  {
    GridColored(latBands + 1, longBands + 1,
                (lat: nat, long: nat) => EllipsoidVertex(m, rx, ry, rz, latBands, longBands, color, lat, long), color);
  }

  /** Ring 0 is the north pole: every one of its vertices is (0, ry, 0). */
  lemma EllipsoidNorthPole(m: Math, rx: real, ry: real, rz: real, latBands: Pos, longBands: Pos, color: Vec3, long: nat)
    requires TrigLaws(m) && long <= longBands
    ensures Ellipsoid(m, rx, ry, rz, latBands, longBands, color).vertices[long].pos == Vec3(0.0, ry, 0.0)
  {
    EllipsoidVertexAt(m, rx, ry, rz, latBands, longBands, color, 0, long);
    assert (0 as real * PI) / latBands as real == 0.0;
  }

  /** Each axis is scaled by its own radius, so a zero radius flattens that axis to 0. */
  lemma EllipsoidFlattened(m: Math, rx: real, ry: real, rz: real, latBands: Pos, longBands: Pos, color: Vec3)
    ensures rx == 0.0 ==> forall k :: 0 <= k < |Ellipsoid(m, rx, ry, rz, latBands, longBands, color).vertices| ==>
      Ellipsoid(m, rx, ry, rz, latBands, longBands, color).vertices[k].pos.x == 0.0
    ensures ry == 0.0 ==> forall k :: 0 <= k < |Ellipsoid(m, rx, ry, rz, latBands, longBands, color).vertices| ==>
      Ellipsoid(m, rx, ry, rz, latBands, longBands, color).vertices[k].pos.y == 0.0
    ensures rz == 0.0 ==> forall k :: 0 <= k < |Ellipsoid(m, rx, ry, rz, latBands, longBands, color).vertices| ==>
      Ellipsoid(m, rx, ry, rz, latBands, longBands, color).vertices[k].pos.z == 0.0
  {
    var f := (lat: nat, long: nat) => EllipsoidVertex(m, rx, ry, rz, latBands, longBands, color, lat, long);
    if rx == 0.0 {
      GridAll(latBands + 1, longBands + 1, f, (v: Vertex) => v.pos.x == 0.0);
    }
    if ry == 0.0 {
      GridAll(latBands + 1, longBands + 1, f, (v: Vertex) => v.pos.y == 0.0);
    }
    if rz == 0.0 {
      GridAll(latBands + 1, longBands + 1, f, (v: Vertex) => v.pos.z == 0.0);
    }
  }
}
