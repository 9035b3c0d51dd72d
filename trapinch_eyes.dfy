/**
 * Trapinch/BodyParts/Head/TrapinchEyes.js: generateTrapinchEyes, the latitude/longitude
 * ellipsoid of TrapinchBody with all three radii equal (a sphere), and generateTrapinchPupil,
 * a four-pointed star of one centre vertex and four tips joined by a fan of four triangles.
 */
module TrapinchEyes {
  import opened JsMath
  import opened Vectors
  import opened Mesh
  import TrapinchBody

  /** generateTrapinchEyes(radius, latBands, longBands, outerColor). */
  method GenerateTrapinchEyes(m: Math, radius: real, latBands: Pos, longBands: Pos, outerColor: Vec3)
    returns (g: Geometry)
    ensures g == Typed(TrapinchBody.Ellipsoid(m, radius, radius, radius, latBands, longBands, outerColor))
  {
    g := TrapinchBody.GenerateTrapinchBody(m, radius, radius, radius, latBands, longBands, outerColor);
  }

  /** The four tips: top, right, bottom, left. */
  function PupilPoints(size: real): (ps: seq<Vec3>)
    ensures |ps| == 4
  {
    [Vec3(0.0, size * 1.2, 0.0), Vec3(size * 0.3, 0.0, 0.0), Vec3(0.0, -size * 1.2, 0.0), Vec3(-size * 0.3, 0.0, 0.0)]
  }

  /** The centre, slightly in front of the tips. */
  function PupilCenter(size: real): Vec3
  {
    Vec3(0.0, 0.0, size * 0.1)
  }

  /** generateTrapinchPupil(size, color): centre, the four tips, then faces (0, i+1, (i+1)%4 + 1). */
  method GenerateTrapinchPupil(size: real, color: Vec3) returns (g: Geometry)
    ensures |g.vertices| == 5 && g.vertices[0] == Vertex(PupilCenter(size), color)
    ensures forall i :: 0 <= i < 4 ==> g.vertices[i + 1] == Vertex(PupilPoints(size)[i], color)
    ensures g.faces == [0, 1, 2, 0, 2, 3, 0, 3, 4, 0, 4, 1]
    ensures InRange(g.faces, |g.vertices|) && AllColored(g.vertices, color)
  {
    var points := PupilPoints(size);
    var vertices := [Vertex(PupilCenter(size), color)];
    for i := 0 to |points|
      invariant |vertices| == i + 1 && vertices[0] == Vertex(PupilCenter(size), color)
      invariant forall k :: 0 <= k < i ==> vertices[k + 1] == Vertex(points[k], color)
      invariant AllColored(vertices, color)
    {
      vertices := vertices + [Vertex(points[i], color)];
    }
    var faces: seq<nat> := [];
    for i := 0 to |points|
      invariant |faces| == 3 * i
      invariant forall k :: 0 <= k < i ==> faces[3 * k] == 0 && faces[3 * k + 1] == k + 1 && faces[3 * k + 2] == (k + 1) % 4 + 1
    {
      faces := faces + [0, i + 1, (i + 1) % |points| + 1];
    }
    ghost var t0, t1, t2, t3 := 0, 1, 2, 3;
    assert faces[3 * t0] == 0 && faces[3 * t0 + 1] == 1 && faces[3 * t0 + 2] == 2;
    assert faces[3 * t1] == 0 && faces[3 * t1 + 1] == 2 && faces[3 * t1 + 2] == 3;
    assert faces[3 * t2] == 0 && faces[3 * t2 + 1] == 3 && faces[3 * t2 + 2] == 4;
    assert faces[3 * t3] == 0 && faces[3 * t3 + 1] == 4 && faces[3 * t3 + 2] == 1;
    g := Typed(Geometry(vertices, faces));
    Uint16Lossless(faces, 5);
  }
}
