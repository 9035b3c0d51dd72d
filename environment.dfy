/**
 * The desert scene's environment meshes, Environtment/environment.js: a dune terrain, a
 * sunset sky dome, a sun sphere and a cloud of six blobs. Each returns plain `vertices`
 * (x, y, z, r, g, b per vertex) and `faces` (three indices per triangle) arrays, modelled
 * as a Geometry. Math.random is a parameter: the number drawn for the vertex being pushed.
 */
module Environment {
  import opened JsMath
  import opened Vectors
  import opened Mesh

  // ---------------------------------------------------------------- desert terrain

  /** Height of the dunes at (x, z): three products of waves, lowered by 15. */
  function DuneHeight(m: Math, x: real, z: real): real
  {
    var wave1 := m.sin(x * 0.05) * m.cos(z * 0.03) * 3.0;
    var wave2 := m.sin(x * 0.02 + z * 0.02) * 2.0;
    var wave3 := m.cos(x * 0.08) * m.sin(z * 0.06) * 1.5;
    wave1 + wave2 + wave3 - 15.0
  }

  /** Sand colour at (x, z): an orange base shifted by a small wave. */
  function SandColor(m: Math, x: real, z: real): Vec3
  {
    var variation := (m.sin(x * 0.1) + m.cos(z * 0.1)) * 0.1;
    Vec3(0.85 + variation, 0.65 + variation * 0.5, 0.35 + variation * 0.3)
  }

  /** Grid coordinate k of `segments` cells spanning `size`, centred on 0. */
  function Coordinate(size: real, segments: Pos, k: nat): real
  {
    k as real * (size / segments as real) - size / 2.0
  }

  /** Vertex x of row z (rows run along z, vertices within a row along x). */
  function TerrainVertex(m: Math, width: real, depth: real, segments: Pos, z: nat, x: nat): Vertex
  {
    var posX, posZ := Coordinate(width, segments, x), Coordinate(depth, segments, z);
    Vertex(Vec3(posX, DuneHeight(m, posX, posZ), posZ), SandColor(m, posX, posZ))
  }

  /** The buffers generateDesertTerrain fills: split along the (a, d) diagonal of every cell. */
  function Terrain(m: Math, width: real, depth: real, segments: Pos): Geometry
  {
    GridMesh(Diagonal, segments, segments, (z: nat, x: nat) => TerrainVertex(m, width, depth, segments, z, x))
  }

  /** generateDesertTerrain(width = 200, depth = 200, segments = 50). */
  method GenerateDesertTerrain(m: Math, widthArg: Option<real>, depthArg: Option<real>, segmentsArg: Option<Pos>)
    returns (g: Geometry)
    ensures g == Terrain(m, Nullish(widthArg, 200.0), Nullish(depthArg, 200.0), Nullish(segmentsArg, 50))
  {
    var width, depth, segments := Nullish(widthArg, 200.0), Nullish(depthArg, 200.0), Nullish(segmentsArg, 50);
    g := BuildGridMesh(Diagonal, segments, segments,
                       (z: nat, x: nat) => TerrainVertex(m, width, depth, segments, z, x));
  }

  /** (segments+1)² vertices and 6·segments² indices, each naming one of those vertices. */
  lemma TerrainShape(m: Math, width: real, depth: real, segments: Pos)
    ensures |Terrain(m, width, depth, segments).vertices| == (segments + 1) * (segments + 1)
    ensures |Terrain(m, width, depth, segments).faces| == 6 * (segments * segments)
    ensures InRange(Terrain(m, width, depth, segments).faces, (segments + 1) * (segments + 1))
  {
    GridMeshShape(Diagonal, segments, segments, (z: nat, x: nat) => TerrainVertex(m, width, depth, segments, z, x));
  }

  /** With the defaults: 51 × 51 = 2601 vertices and 15000 indices. */
  lemma DefaultTerrainShape(m: Math)
    ensures |Terrain(m, 200.0, 200.0, 50).vertices| == 2601
    ensures |Terrain(m, 200.0, 200.0, 50).faces| == 15000
  {
    TerrainShape(m, 200.0, 200.0, 50);
  }

  /** k of `segments` equal steps of a non-negative size stays within [−size/2, size/2]. */
  lemma CoordinateWithin(size: real, segments: Pos, k: nat)
    requires size >= 0.0 && k <= segments
    ensures -size / 2.0 <= Coordinate(size, segments, k) <= size / 2.0
    ensures k == 0 ==> Coordinate(size, segments, k) == -size / 2.0
    ensures k == segments ==> Coordinate(size, segments, k) == size / 2.0
  {
    var step := size / segments as real;
    assert step * segments as real == size;
    assert 0.0 <= k as real * step <= segments as real * step;
  }

  /** Each wave term is a product of values in [−1, 1]. */
  lemma ProductBounded(a: real, b: real)
    requires -1.0 <= a <= 1.0 && -1.0 <= b <= 1.0
    ensures -1.0 <= a * b <= 1.0
  {
    if a >= 0.0 {
      assert a * b <= a * 1.0 && a * b >= a * -1.0;
    } else {
      assert a * b <= -a && a * b >= a;
    }
  }

  /** The dunes stay between 15 − 6.5 and 15 + 6.5 below the origin. */
  lemma DuneHeightRange(m: Math, x: real, z: real)
    requires TrigLaws(m)
    ensures -21.5 <= DuneHeight(m, x, z) <= -8.5
  {
    var a, b := m.sin(x * 0.05), m.cos(z * 0.03);
    var c := m.sin(x * 0.02 + z * 0.02);
    var d, e := m.cos(x * 0.08), m.sin(z * 0.06);
    TrigBounded(m, x * 0.05);
    TrigBounded(m, z * 0.03);
    TrigBounded(m, x * 0.02 + z * 0.02);
    TrigBounded(m, x * 0.08);
    TrigBounded(m, z * 0.06);
    ProductBounded(a, b);
    ProductBounded(d, e);
    assert -3.0 <= a * b * 3.0 <= 3.0;
    assert -2.0 <= c * 2.0 <= 2.0;
    assert -1.5 <= d * e * 1.5 <= 1.5;
    assert DuneHeight(m, x, z) == a * b * 3.0 + c * 2.0 + d * e * 1.5 - 15.0;
  }

  /** The variation is at most 0.2 either way, so red may pass 1 (up to 1.05) while green and blue do not. */
  lemma SandColorRange(m: Math, x: real, z: real)
    requires TrigLaws(m)
    ensures 0.65 <= SandColor(m, x, z).x <= 1.05
    ensures 0.55 <= SandColor(m, x, z).y <= 0.75
    ensures 0.29 <= SandColor(m, x, z).z <= 0.41
  {
    TrigBounded(m, x * 0.1);
    TrigBounded(m, z * 0.1);
  }

  predicate OnTerrain(v: Vertex, width: real, depth: real)
  {
    && -width / 2.0 <= v.pos.x <= width / 2.0
    && -depth / 2.0 <= v.pos.z <= depth / 2.0
    && -21.5 <= v.pos.y <= -8.5
  }

  /**
   * Every vertex lies over the width × depth rectangle centred on the origin, at a dune
   * height in [−21.5, −8.5].
   */
  lemma TerrainBounds(m: Math, width: real, depth: real, segments: Pos)
    requires TrigLaws(m) && width >= 0.0 && depth >= 0.0
    ensures forall k :: 0 <= k < |Terrain(m, width, depth, segments).vertices| ==>
      OnTerrain(Terrain(m, width, depth, segments).vertices[k], width, depth)
  {
    var f := (z: nat, x: nat) => TerrainVertex(m, width, depth, segments, z, x);
    forall z: nat, x: nat | z < segments + 1 && x < segments + 1
      ensures OnTerrain(f(z, x), width, depth)
    {
      CoordinateWithin(width, segments, x);
      CoordinateWithin(depth, segments, z);
      DuneHeightRange(m, Coordinate(width, segments, x), Coordinate(depth, segments, z));
    }
    GridAll(segments + 1, segments + 1, f, (v: Vertex) => OnTerrain(v, width, depth));
  }

  /** The first vertex is the (−width/2, −depth/2) corner and the last the (width/2, depth/2) corner. */
  lemma TerrainCorners(m: Math, width: real, depth: real, segments: Pos)
    requires width >= 0.0 && depth >= 0.0
    ensures var vs := Terrain(m, width, depth, segments).vertices;
            |vs| == (segments + 1) * (segments + 1)
            && vs[0].pos.x == -width / 2.0 && vs[0].pos.z == -depth / 2.0
            && vs[|vs| - 1].pos.x == width / 2.0 && vs[|vs| - 1].pos.z == depth / 2.0
  {
    var f := (z: nat, x: nat) => TerrainVertex(m, width, depth, segments, z, x);
    var vs := Grid(segments + 1, segments + 1, f);
    GridAt(segments + 1, segments + 1, f, 0, 0);
    GridAt(segments + 1, segments + 1, f, segments, segments);
    var last := segments * (segments + 1) + segments;
    assert last == |vs| - 1;
    CoordinateWithin(width, segments, 0);
    CoordinateWithin(depth, segments, 0);
    CoordinateWithin(width, segments, segments);
    CoordinateWithin(depth, segments, segments);
    assert vs[last] == TerrainVertex(m, width, depth, segments, segments, segments);
  }

  // ---------------------------------------------------------------- spheres

  /** Polar angle of ring lat: lat·PI/segments. */
  function Theta(segments: Pos, lat: nat): real
  {
    (lat as real * PI) / segments as real
  }

  /** Azimuth of vertex lon: lon·2PI/segments. */
  function Phi(segments: Pos, lon: nat): real
  {
    (lon as real * 2.0 * PI) / segments as real
  }

  /** The point (cos phi · sin theta, cos theta, sin phi · sin theta), scaled by radius. */
  function SpherePoint(m: Math, radius: real, segments: Pos, lat: nat, lon: nat): Vec3
  {
    var sinTheta, cosTheta := m.sin(Theta(segments, lat)), m.cos(Theta(segments, lat));
    var sinPhi, cosPhi := m.sin(Phi(segments, lon)), m.cos(Phi(segments, lon));
    Vec3(cosPhi * sinTheta * radius, cosTheta * radius, sinPhi * sinTheta * radius)
  }

  /** Every sphere point is at distance |radius| from the origin. */
  lemma SpherePointOnSphere(m: Math, radius: real, segments: Pos, lat: nat, lon: nat)
    requires TrigLaws(m)
    ensures Dot(SpherePoint(m, radius, segments, lat, lon), SpherePoint(m, radius, segments, lat, lon)) == radius * radius
  {
    var theta, phi := Theta(segments, lat), Phi(segments, lon);
    var st, ct, sp, cp := m.sin(theta), m.cos(theta), m.sin(phi), m.cos(phi);
    assert sp * sp + cp * cp == 1.0;
    assert st * st + ct * ct == 1.0;
    var q := Vec3(st * cp, ct, st * sp);
    UnitSphere(st, ct, sp, cp);
    assert SpherePoint(m, radius, segments, lat, lon) == Scale(radius, q);
    calc {
      Dot(Scale(radius, q), Scale(radius, q));
      radius * radius * Dot(q, q);
      radius * radius;
    }
  }

  /** Ring 0 is the top pole (0, radius, 0). */
  lemma SpherePointPole(m: Math, radius: real, segments: Pos, lon: nat)
    requires TrigLaws(m)
    ensures SpherePoint(m, radius, segments, 0, lon) == Vec3(0.0, radius, 0.0)
  {
    assert Theta(segments, 0) == 0.0;
  }

  predicate OnSphere(v: Vertex, radius: real)
  {
    Dot(v.pos, v.pos) == radius * radius
  }

  // ---------------------------------------------------------------- sky dome

  /** The sunset gradient by height y: blue-purple above 0.3, orange-yellow above −0.2, deep orange below. */
  function SkyColor(y: real): Vec3
  {
    if y > 0.3 then
      var t := (y - 0.3) / 0.7;
      Vec3(0.3 + t * 0.2, 0.2 + t * 0.5, 0.5 + t * 0.4)
    else if y > -0.2 then
      var t := (y + 0.2) / 0.5;
      Vec3(1.0 - t * 0.2, 0.5 + t * 0.2, 0.2 + t * 0.3)
    else
      Vec3(0.95, 0.6, 0.25)
  }

  predicate UnitColor(c: Vec3)
  {
    0.0 <= c.x <= 1.0 && 0.0 <= c.y <= 1.0 && 0.0 <= c.z <= 1.0
  }

  /** On heights in [−1, 1] every channel of the gradient is in [0, 1]; the zenith is (0.5, 0.7, 0.9). */
  lemma SkyColorRange(y: real)
    requires -1.0 <= y <= 1.0
    ensures UnitColor(SkyColor(y))
    ensures y == 1.0 ==> SkyColor(y) == Vec3(0.5, 0.7, 0.9)
  {
  }

  /** Vertex lon of ring lat, coloured by its unscaled height cos theta. */
  function SkyVertex(m: Math, radius: real, segments: Pos, lat: nat, lon: nat): Vertex
  {
    Vertex(SpherePoint(m, radius, segments, lat, lon), SkyColor(m.cos(Theta(segments, lat))))
  }

  /**
   * generateSkyDome as written: rings lat ≤ segments/2 (real division, so ⌊segments/2⌋ + 1
   * rings), but quads for every lat < segments/2, which is ⌈segments/2⌉ rows of quads.
   */
  function SkyDomeAsWritten(m: Math, radius: real, segments: Pos): Geometry
  {
    Geometry(Grid((segments as nat) / 2 + 1, segments + 1, (lat: nat, lon: nat) => SkyVertex(m, radius, segments, lat, lon)),
             GridFaces(Strip, (segments + 1) / 2, segments, 0))
  }

  /** The sky dome with one row of quads between each pair of neighbouring rings. */
  function SkyDome(m: Math, radius: real, segments: Pos): Geometry
  {
    GridMesh(Strip, (segments as nat) / 2, segments, (lat: nat, lon: nat) => SkyVertex(m, radius, segments, lat, lon))
  }

  /** For an even segment count the loops as written build exactly SkyDome. */
  lemma SkyDomeEvenAgrees(m: Math, radius: real, segments: Pos)
    requires segments % 2 == 0
    ensures SkyDomeAsWritten(m, radius, segments) == SkyDome(m, radius, segments)
  {
  }

  /**
   * For an odd segment count the last row of quads reaches one ring past the dome: the second
   * index of its first quad equals the vertex count.
   */
  lemma SkyDomeOddOutOfRange(m: Math, radius: real, segments: Pos)
    requires segments % 2 == 1
    ensures var g := SkyDomeAsWritten(m, radius, segments);
            6 * ((segments / 2) * segments) + 1 < |g.faces|
            && g.faces[6 * ((segments / 2) * segments) + 1] == |g.vertices|
            && !InRange(g.faces, |g.vertices|)
  {
    var k := segments / 2;
    assert (segments + 1) / 2 == k + 1;
    StripOverrun(k, segments);
  }

  /** In k+1 rows of Strip quads, the second index of the last row's first quad is (k+1)(cols+1). */
  lemma StripOverrun(k: nat, cols: nat)
    requires cols > 0
    ensures 6 * (k * cols) + 1 < |GridFaces(Strip, k + 1, cols, 0)|
    ensures GridFaces(Strip, k + 1, cols, 0)[6 * (k * cols) + 1] == (k + 1) * (cols + 1)
  {
    var start := k * (cols + 1);
    MulNonNegative(k, cols + 1);
    GridFacesRing(Strip, k + 1, cols, 0, k);
    var front := GridFaces(Strip, k, cols, 0);
    var row := RowFaces(Strip, start, cols, cols + 1);
    var rest := GridFaces(Strip, 0, cols, start + cols + 1);
    StripRowSecond(start, cols);
    ConcatRightAt(front, row + rest, 6 * (k * cols), 1);
    ConcatLeftAt(row, rest, 1);
    MulSucc(k, cols + 1);
  }

  /** The second index of a Strip row's first quad is one ring on from its start. */
  lemma StripRowSecond(start: nat, cols: nat)
    requires cols > 0
    ensures RowFaces(Strip, start, cols, cols + 1)[1] == start + cols + 1
  {
    RowFacesAt(Strip, start, cols, cols + 1, 0, 1);
  }

  /**
   * generateSkyDome(radius = 100, segments = 32) as written: ⌊segments/2⌋ + 1 rings, then
   * ⌈segments/2⌉ rows of quads; for an even count that is SkyDome.
   */
  method GenerateSkyDome(m: Math, radiusArg: Option<real>, segmentsArg: Option<Pos>) returns (g: Geometry)
    ensures g == SkyDomeAsWritten(m, Nullish(radiusArg, 100.0), Nullish(segmentsArg, 32))
    ensures (Nullish(segmentsArg, 32) as nat) % 2 == 0 ==> g == SkyDome(m, Nullish(radiusArg, 100.0), Nullish(segmentsArg, 32))
  {
    var radius, segments := Nullish(radiusArg, 100.0), Nullish(segmentsArg, 32);
    var f := (lat: nat, lon: nat) => SkyVertex(m, radius, segments, lat, lon);
    var vs := AppendGrid([], (segments as nat) / 2 + 1, segments + 1, f);
    var fs := AppendGridFaces([], Strip, (segments + 1) / 2, segments, 0);
    g := Geometry(vs, fs);
    assert g == SkyDomeAsWritten(m, radius, segments);
    if (segments as nat) % 2 == 0 {
      SkyDomeEvenAgrees(m, radius, segments);
    }
  }

  /** (⌊segments/2⌋+1)(segments+1) vertices, 6·⌊segments/2⌋·segments indices, all in range. */
  lemma SkyDomeShape(m: Math, radius: real, segments: Pos)
    ensures |SkyDome(m, radius, segments).vertices| == ((segments as nat) / 2 + 1) * (segments + 1)
    ensures |SkyDome(m, radius, segments).faces| == 6 * (((segments as nat) / 2) * segments)
    ensures InRange(SkyDome(m, radius, segments).faces, ((segments as nat) / 2 + 1) * (segments + 1))
  {
    GridMeshShape(Strip, (segments as nat) / 2, segments, (lat: nat, lon: nat) => SkyVertex(m, radius, segments, lat, lon));
  }

  /** Every vertex of the dome lies on the sphere of the given radius, in a colour with channels in [0, 1]. */
  lemma SkyDomeOnSphere(m: Math, radius: real, segments: Pos)
    requires TrigLaws(m)
    ensures forall k :: 0 <= k < |SkyDome(m, radius, segments).vertices| ==>
      OnSphere(SkyDome(m, radius, segments).vertices[k], radius)
      && UnitColor(SkyDome(m, radius, segments).vertices[k].color)
  {
    var f := (lat: nat, lon: nat) => SkyVertex(m, radius, segments, lat, lon);
    forall lat: nat, lon: nat | lat < (segments as nat) / 2 + 1 && lon < segments + 1
      ensures OnSphere(f(lat, lon), radius) && UnitColor(f(lat, lon).color)
    {
      SpherePointOnSphere(m, radius, segments, lat, lon);
      TrigBounded(m, Theta(segments, lat));
      SkyColorRange(m.cos(Theta(segments, lat)));
    }
    GridAll((segments as nat) / 2 + 1, segments + 1, f, (v: Vertex) => OnSphere(v, radius) && UnitColor(v.color));
  }

  /** The first ring is the zenith (0, radius, 0), coloured (0.5, 0.7, 0.9). */
  lemma SkyDomeZenith(m: Math, radius: real, segments: Pos, lon: nat)
    requires TrigLaws(m) && lon <= segments
    ensures lon < |SkyDome(m, radius, segments).vertices|
    ensures SkyDome(m, radius, segments).vertices[lon] == Vertex(Vec3(0.0, radius, 0.0), Vec3(0.5, 0.7, 0.9))
  {
    GridAt((segments as nat) / 2 + 1, segments + 1, (lat: nat, lon: nat) => SkyVertex(m, radius, segments, lat, lon), 0, lon);
    SpherePointPole(m, radius, segments, lon);
    assert Theta(segments, 0) == 0.0;
    SkyColorRange(1.0);
  }

  // ---------------------------------------------------------------- sun

  /** Sun colour at a brightness: full red, 0.85 of it in green, 0.4 of it in blue. */
  function SunColor(brightness: real): Vec3
  {
    Vec3(1.0 * brightness, 0.85 * brightness, 0.4 * brightness)
  }

  /** Vertex lon of ring lat; `random` gives the Math.random() value drawn for that vertex. */
  function SunVertex(m: Math, radius: real, segments: Pos, random: (nat, nat) -> real, lat: nat, lon: nat): Vertex
  {
    Vertex(SpherePoint(m, radius, segments, lat, lon), SunColor(0.8 + random(lat, lon) * 0.2))
  }

  /** The full sphere generateSun fills: segments+1 rings from pole to pole. */
  function Sun(m: Math, radius: real, segments: Pos, random: (nat, nat) -> real): Geometry
  {
    GridMesh(Strip, segments, segments, (lat: nat, lon: nat) => SunVertex(m, radius, segments, random, lat, lon))
  }

  /** generateSun(radius = 5, segments = 20). */
  method GenerateSun(m: Math, radiusArg: Option<real>, segmentsArg: Option<Pos>, random: (nat, nat) -> real)
    returns (g: Geometry)
    ensures g == Sun(m, Nullish(radiusArg, 5.0), Nullish(segmentsArg, 20), random)
  {
    var radius, segments := Nullish(radiusArg, 5.0), Nullish(segmentsArg, 20);
    g := BuildGridMesh(Strip, segments, segments,
                       (lat: nat, lon: nat) => SunVertex(m, radius, segments, random, lat, lon));
  }

  /** (segments+1)² vertices and 6·segments² indices, all in range. */
  lemma SunShape(m: Math, radius: real, segments: Pos, random: (nat, nat) -> real)
    ensures |Sun(m, radius, segments, random).vertices| == (segments + 1) * (segments + 1)
    ensures |Sun(m, radius, segments, random).faces| == 6 * (segments * segments)
    ensures InRange(Sun(m, radius, segments, random).faces, (segments + 1) * (segments + 1))
  {
    GridMeshShape(Strip, segments, segments, (lat: nat, lon: nat) => SunVertex(m, radius, segments, random, lat, lon));
  }

  predicate SunGlow(c: Vec3)
  {
    0.8 <= c.x < 1.0 && c.y == 0.85 * c.x && c.z == 0.4 * c.x
  }

  /**
   * With Math.random() in [0, 1), every vertex lies on the sphere and its colour has red in
   * [0.8, 1) with green and blue at 0.85 and 0.4 of it.
   */
  lemma SunVertices(m: Math, radius: real, segments: Pos, random: (nat, nat) -> real)
    requires TrigLaws(m)
    requires forall lat: nat, lon: nat :: 0.0 <= random(lat, lon) < 1.0
    ensures forall k :: 0 <= k < |Sun(m, radius, segments, random).vertices| ==>
      OnSphere(Sun(m, radius, segments, random).vertices[k], radius)
      && SunGlow(Sun(m, radius, segments, random).vertices[k].color)
  {
    var f := (lat: nat, lon: nat) => SunVertex(m, radius, segments, random, lat, lon);
    forall lat: nat, lon: nat | lat < segments + 1 && lon < segments + 1
      ensures OnSphere(f(lat, lon), radius) && SunGlow(f(lat, lon).color)
    {
      SpherePointOnSphere(m, radius, segments, lat, lon);
      assert 0.0 <= random(lat, lon) < 1.0;
    }
    GridAll(segments + 1, segments + 1, f, (v: Vertex) => OnSphere(v, radius) && SunGlow(v.color));
  }

  // ---------------------------------------------------------------- cloud

  /** One ellipsoidal blob of the cloud: its centre and its three radii. */
  datatype Blob = Blob(center: Vec3, radii: Vec3)

  /** The six blobs, placed and sized as fractions of width, height and depth. */
  function Blobs(width: real, height: real, depth: real): (bs: seq<Blob>)
    ensures |bs| == 6
    ensures bs[0].center == Vec3(0.0, 0.0, 0.0)
  {
    [ Blob(Vec3(0.0, 0.0, 0.0), Vec3(width * 0.6, height * 0.8, depth * 0.5)),
      Blob(Vec3(width * 0.4, height * 0.3, 0.0), Vec3(width * 0.5, height * 0.7, depth * 0.4)),
      Blob(Vec3(-width * 0.3, height * 0.2, 0.0), Vec3(width * 0.4, height * 0.6, depth * 0.35)),
      Blob(Vec3(width * 0.2, -height * 0.2, depth * 0.3), Vec3(width * 0.35, height * 0.5, depth * 0.3)),
      Blob(Vec3(-width * 0.25, -height * 0.15, -depth * 0.25), Vec3(width * 0.3, height * 0.45, depth * 0.25)),
      Blob(Vec3(0.0, height * 0.4, depth * 0.15), Vec3(width * 0.25, height * 0.4, depth * 0.2)) ]
  }

  /** The segment count generateCloud fixes for every blob: a 10 × 10 cell grid. */
  const CloudSegments: Pos := 10

  /** Vertices per blob: segments+1 rings of segments+1. */
  function BlobSize(segments: nat): nat
  {
    (segments + 1) * (segments + 1)
  }

  /** Indices per blob: two triangles per cell. */
  function FacesPerBlob(segments: nat): nat
  {
    6 * (segments * segments)
  }

  /** Off-white with the red and green channels raised by the same variation. */
  function CloudColor(variation: real): Vec3
  {
    Vec3(0.95 + variation, 0.95 + variation, 0.98)
  }

  /** Vertex lon of ring lat of a blob; `variation` is 0.1 times the number Math.random() drew for it. */
  function BlobVertex(m: Math, b: Blob, segments: Pos, variation: real, lat: nat, lon: nat): Vertex
  {
    var sinTheta, cosTheta := m.sin(Theta(segments, lat)), m.cos(Theta(segments, lat));
    var sinPhi, cosPhi := m.sin(Phi(segments, lon)), m.cos(Phi(segments, lon));
    Vertex(Vec3(b.center.x + cosPhi * sinTheta * b.radii.x,
                b.center.y + cosTheta * b.radii.y,
                b.center.z + sinPhi * sinTheta * b.radii.z),
           CloudColor(variation))
  }

  /** The vertices of blob number n; random(n, lat, lon) is the value drawn at that vertex. */
  function BlobGrid(m: Math, b: Blob, segments: Pos, n: nat, random: (nat, nat, nat) -> real): (vs: seq<Vertex>)
    ensures |vs| == BlobSize(segments)
  {
    Grid(segments + 1, segments + 1, (lat: nat, lon: nat) => BlobVertex(m, b, segments, random(n, lat, lon) * 0.1, lat, lon))
  }

  /** The vertices of the first n blobs, pushed blob after blob. */
  function CloudVertices(m: Math, bs: seq<Blob>, segments: Pos, random: (nat, nat, nat) -> real, n: nat): (vs: seq<Vertex>)
    requires n <= |bs|
    ensures |vs| == n * BlobSize(segments)
  {
    if n == 0 then []
    else
      MulSucc(n - 1, BlobSize(segments));
      CloudVertices(m, bs, segments, random, n - 1) + BlobGrid(m, bs[n - 1], segments, n - 1, random)
  }

  /** The quads of the blob whose first vertex is base: they use only that blob's vertices. */
  function BlobFaces(segments: nat, base: nat): (fs: seq<nat>)
    ensures |fs| == FacesPerBlob(segments)
    ensures Within(fs, base, base + BlobSize(segments))
  {
    GridFacesLength(Strip, segments, segments, base);
    GridFacesWithin(Strip, segments, segments, base);
    GridFaces(Strip, segments, segments, base)
  }

  /** The faces of the first n blobs: blob k's quads start at its baseIndex k·BlobSize. */
  function CloudFaces(segments: nat, n: nat): (fs: seq<nat>)
    ensures |fs| == n * FacesPerBlob(segments)
  {
    if n == 0 then []
    else
      MulSucc(n - 1, FacesPerBlob(segments));
      CloudFaces(segments, n - 1) + BlobFaces(segments, (n - 1) * BlobSize(segments))
  }

  /** The buffers generateCloud fills, for any list of blobs and segment count. */
  function Cloud(m: Math, bs: seq<Blob>, segments: Pos, random: (nat, nat, nat) -> real): Geometry
  {
    Geometry(CloudVertices(m, bs, segments, random, |bs|), CloudFaces(segments, |bs|))
  }

  /**
   * generateCloud(width = 10, height = 3, depth = 8): for each blob, baseIndex is the number
   * of vertices pushed so far (V.length / 6 of the flat array), then its grid and its quads.
   */
  method GenerateCloud(m: Math, widthArg: Option<real>, heightArg: Option<real>, depthArg: Option<real>,
                       random: (nat, nat, nat) -> real) returns (g: Geometry)
    ensures g == Cloud(m, Blobs(Nullish(widthArg, 10.0), Nullish(heightArg, 3.0), Nullish(depthArg, 8.0)),
                       CloudSegments, random)
  {
    var blobs := Blobs(Nullish(widthArg, 10.0), Nullish(heightArg, 3.0), Nullish(depthArg, 8.0));
    var segments := CloudSegments;
    var vs: seq<Vertex> := [];
    var fs: seq<nat> := [];
    for n := 0 to |blobs|
      invariant vs == CloudVertices(m, blobs, segments, random, n)
      invariant fs == CloudFaces(segments, n)
    {
      var baseIndex := |vs|;
      var blob := blobs[n];
      vs := AppendGrid(vs, segments + 1, segments + 1,
                       (lat: nat, lon: nat) => BlobVertex(m, blob, segments, random(n, lat, lon) * 0.1, lat, lon));
      fs := AppendGridFaces(fs, Strip, segments, segments, baseIndex);
    }
    g := Geometry(vs, fs);
  }

  /** The faces of the first n blobs name only the first n·BlobSize vertices. */
  lemma {:induction false} CloudFacesInRange(segments: nat, n: nat)
    ensures InRange(CloudFaces(segments, n), n * BlobSize(segments))
  {
    if n > 0 {
      var size := BlobSize(segments);
      CloudFacesInRange(segments, n - 1);
      MulSucc(n - 1, size);
      InRangeWiden(CloudFaces(segments, n - 1), (n - 1) * size, n * size);
      InRangeJoin(CloudFaces(segments, n - 1), BlobFaces(segments, (n - 1) * size), (n - 1) * size, n * size);
    }
  }

  /**
   * Blob k's faces are the FacesPerBlob indices from lo = k·FacesPerBlob on, whatever follows
   * them; its quads start at base = k·BlobSize.
   */
  lemma {:induction false} CloudFacesBlock(segments: nat, n: nat, k: nat, lo: nat, base: nat)
    requires k < n && lo == k * FacesPerBlob(segments) && base == k * BlobSize(segments)
    ensures lo + FacesPerBlob(segments) <= |CloudFaces(segments, n)|
    ensures CloudFaces(segments, n)[lo .. lo + FacesPerBlob(segments)] == BlobFaces(segments, base)
  {
    if k < n - 1 {
      CloudFacesBlock(segments, n - 1, k, lo, base);
      CloudFacesKeepBlock(segments, n, lo, BlobFaces(segments, base));
    } else {
      CloudFacesLastBlock(segments, n, lo, base);
    }
  }

  /** A block of the first n - 1 blobs' faces stays where it is when blob n - 1 is appended. */
  lemma CloudFacesKeepBlock(segments: nat, n: nat, lo: nat, block: seq<nat>)
    requires n > 0
    requires lo + FacesPerBlob(segments) <= |CloudFaces(segments, n - 1)|
    requires CloudFaces(segments, n - 1)[lo .. lo + FacesPerBlob(segments)] == block
    ensures lo + FacesPerBlob(segments) <= |CloudFaces(segments, n)|
    ensures CloudFaces(segments, n)[lo .. lo + FacesPerBlob(segments)] == block
  {
    var prev := CloudFaces(segments, n - 1);
    assert CloudFaces(segments, n) == prev + BlobFaces(segments, (n - 1) * BlobSize(segments));
    SliceLeft(prev, BlobFaces(segments, (n - 1) * BlobSize(segments)), lo, lo + FacesPerBlob(segments));
  }

  /** The last FacesPerBlob indices of the first n blobs' faces, from lo = (n - 1)·FacesPerBlob, are blob n - 1's. */
  lemma CloudFacesLastBlock(segments: nat, n: nat, lo: nat, base: nat)
    requires n > 0 && lo == (n - 1) * FacesPerBlob(segments) && base == (n - 1) * BlobSize(segments)
    ensures lo + FacesPerBlob(segments) <= |CloudFaces(segments, n)|
    ensures CloudFaces(segments, n)[lo .. lo + FacesPerBlob(segments)] == BlobFaces(segments, base)
  {
    var per := FacesPerBlob(segments);
    var prev, last := CloudFaces(segments, n - 1), BlobFaces(segments, base);
    assert CloudFaces(segments, n) == prev + last;
    assert |prev| == lo;
    SliceAfter(prev, last, lo, 0, per);
    assert last[0..per] == last;
  }

  /** Blob k's indices, from k·FacesPerBlob, name only blob k's vertices, from k·BlobSize. */
  predicate BlobBlockWithin(faces: seq<nat>, segments: nat, k: nat)
  {
    BlockWithin(faces, k * FacesPerBlob(segments), FacesPerBlob(segments), k * BlobSize(segments), BlobSize(segments))
  }

  /** The count indices from lo name only the size vertices from base. */
  predicate BlockWithin(faces: seq<nat>, lo: nat, count: nat, base: nat, size: nat)
  {
    lo + count <= |faces| && Within(faces[lo .. lo + count], base, base + size)
  }

  /**
   * |bs|·BlobSize vertices and |bs|·FacesPerBlob indices, every index in range, and the
   * indices of blob k name only blob k's own vertices: the blobs share no vertex.
   */
  lemma CloudShape(m: Math, bs: seq<Blob>, segments: Pos, random: (nat, nat, nat) -> real)
    ensures |Cloud(m, bs, segments, random).vertices| == |bs| * BlobSize(segments)
    ensures |Cloud(m, bs, segments, random).faces| == |bs| * FacesPerBlob(segments)
    ensures InRange(Cloud(m, bs, segments, random).faces, |bs| * BlobSize(segments))
    ensures forall k :: 0 <= k < |bs| ==> BlobBlockWithin(Cloud(m, bs, segments, random).faces, segments, k)
  {
    var faces := CloudFaces(segments, |bs|);
    assert Cloud(m, bs, segments, random) == Geometry(CloudVertices(m, bs, segments, random, |bs|), faces);
    CloudFacesInRange(segments, |bs|);
    forall k | 0 <= k < |bs|
      ensures BlobBlockWithin(faces, segments, k)
    {
      CloudBlockWithin(segments, |bs|, k);
    }
  }

  /** Blob k's block of the first n blobs' faces names only blob k's vertices. */
  lemma CloudBlockWithin(segments: nat, n: nat, k: nat)
    requires k < n
    ensures BlobBlockWithin(CloudFaces(segments, n), segments, k)
  {
    CloudFacesBlockWithin(segments, n, k, k * FacesPerBlob(segments), k * BlobSize(segments));
  }

  lemma CloudFacesBlockWithin(segments: nat, n: nat, k: nat, lo: nat, base: nat)
    requires k < n && lo == k * FacesPerBlob(segments) && base == k * BlobSize(segments)
    ensures BlockWithin(CloudFaces(segments, n), lo, FacesPerBlob(segments), base, BlobSize(segments))
  {
    CloudFacesBlock(segments, n, k, lo, base);
    BlockWithinOf(CloudFaces(segments, n), lo, FacesPerBlob(segments), base, BlobSize(segments), BlobFaces(segments, base));
  }

  lemma BlockWithinOf(faces: seq<nat>, lo: nat, count: nat, base: nat, size: nat, block: seq<nat>)
    requires lo + count <= |faces| && faces[lo .. lo + count] == block && Within(block, base, base + size)
    ensures BlockWithin(faces, lo, count, base, size)
  {
  }

  /** With generateCloud's six blobs and 10 segments: 6 · 121 = 726 vertices and 6 · 600 = 3600 indices. */
  lemma CloudCounts(width: real, height: real, depth: real)
    ensures |Blobs(width, height, depth)| * BlobSize(CloudSegments) == 726
    ensures |Blobs(width, height, depth)| * FacesPerBlob(CloudSegments) == 3600
  {
  }

  predicate CloudWhite(c: Vec3)
  {
    0.95 <= c.x < 1.05 && c.y == c.x && c.z == 0.98
  }

  /**
   * With Math.random() in [0, 1), every cloud vertex has equal red and green in [0.95, 1.05)
   * and blue 0.98.
   */
  lemma {:induction false} CloudVerticesWhite(m: Math, bs: seq<Blob>, segments: Pos, random: (nat, nat, nat) -> real, n: nat)
    requires n <= |bs|
    requires forall b: nat, lat: nat, lon: nat :: 0.0 <= random(b, lat, lon) < 1.0
    ensures forall k :: 0 <= k < |CloudVertices(m, bs, segments, random, n)| ==>
      CloudWhite(CloudVertices(m, bs, segments, random, n)[k].color)
  {
    if n > 0 {
      CloudVerticesWhite(m, bs, segments, random, n - 1);
      var b := bs[n - 1];
      var f := (lat: nat, lon: nat) => BlobVertex(m, b, segments, random(n - 1, lat, lon) * 0.1, lat, lon);
      forall lat: nat, lon: nat | lat < segments + 1 && lon < segments + 1
        ensures CloudWhite(f(lat, lon).color)
      {
        assert 0.0 <= random(n - 1, lat, lon) < 1.0;
      }
      GridAll(segments + 1, segments + 1, f, (v: Vertex) => CloudWhite(v.color));
      var prev: seq<Vertex>, grid: seq<Vertex> := CloudVertices(m, bs, segments, random, n - 1), BlobGrid(m, b, segments, n - 1, random);
      forall k | 0 <= k < |prev + grid|
        ensures CloudWhite((prev + grid)[k].color)
      {
        if k < |prev| {
          assert (prev + grid)[k] == prev[k];
        } else {
          assert (prev + grid)[k] == grid[k - |prev|];
        }
      }
    }
  }

  /** CloudVerticesWhite for the whole cloud. */
  lemma CloudColors(m: Math, bs: seq<Blob>, segments: Pos, random: (nat, nat, nat) -> real)
    requires forall b: nat, lat: nat, lon: nat :: 0.0 <= random(b, lat, lon) < 1.0
    ensures forall k :: 0 <= k < |Cloud(m, bs, segments, random).vertices| ==>
      CloudWhite(Cloud(m, bs, segments, random).vertices[k].color)
  {
    CloudVerticesWhite(m, bs, segments, random, |bs|);
  }
}
