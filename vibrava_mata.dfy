/**
 * generateMata of Vibrava/mata.js: the eye, an ellipsoid with semi-axes (radius, radius,
 * 0.8·radius). Ring i is at latitude theta = (i/stacks)·PI − PI/2 (from the −z pole to the
 * +z pole), vertex j at longitude phi = (j/slices)·2·PI, position
 * (sx·cos theta·cos phi, sy·cos theta·sin phi, sz·sin theta), with quads
 * (a, b, d), (a, d, c) over a = i(slices+1)+j, b = a+1, c = a+slices+1, d = c+1.
 */
module VibravaMata {
  import opened JsMath
  import opened Vectors
  import opened Mesh

  /** The default colour [0, 100/255, 0]. */
  const MataColor: Vec3 := Vec3(0.0, 100.0 / 255.0, 0.0)

  /** The semi-axes (sx, sy, sz). */
  function Axes(radius: real): (s: Vec3)
    ensures s.x == radius && s.y == radius && s.z == 0.8 * radius
  {
    Vec3(radius * 1.0, radius * 1.0, radius * 0.8)
  }

  function Theta(stacks: Pos, i: nat): real
  {
    (i as real / stacks as real) * PI - PI / 2.0
  }

  function Phi(slices: Pos, j: nat): real
  {
    (j as real / slices as real) * 2.0 * PI
  }

  function MataVertex(m: Math, s: Vec3, stacks: Pos, slices: Pos, color: Vec3, i: nat, j: nat): Vertex
  {
    var cosT, sinT := m.cos(Theta(stacks, i)), m.sin(Theta(stacks, i));
    var cosP, sinP := m.cos(Phi(slices, j)), m.sin(Phi(slices, j));
    Vertex(Vec3(s.x * cosT * cosP, s.y * cosT * sinP, s.z * sinT), color)
  }

  function Mata(m: Math, radius: real, stacks: Pos, slices: Pos, color: Vec3): Geometry
  {
    var s := Axes(radius);
    GridMesh(Diagonal, stacks, slices, (i: nat, j: nat) => MataVertex(m, s, stacks, slices, color, i, j))
  }

  /** generateMata(radius = 1, stacks = 20, slices = 20, color = [0, 100/255, 0]). */
  method GenerateMata(m: Math, radiusArg: Option<real>, stacksArg: Option<Pos>, slicesArg: Option<Pos>,
                      colorArg: Option<Vec3>) returns (g: Geometry)
    ensures g == Mata(m, Nullish(radiusArg, 1.0), Nullish(stacksArg, 20), Nullish(slicesArg, 20),
                      Nullish(colorArg, MataColor))
  {
    var radius, stacks, slices := Nullish(radiusArg, 1.0), Nullish(stacksArg, 20), Nullish(slicesArg, 20);
    var color := Nullish(colorArg, MataColor);
    var s := Axes(radius);
    g := BuildGridMesh(Diagonal, stacks, slices, (i: nat, j: nat) => MataVertex(m, s, stacks, slices, color, i, j));
  }

  /** (stacks+1)(slices+1) vertices of the colour argument, 6·stacks·slices indices in range. */
  lemma MataShape(m: Math, radius: real, stacks: Pos, slices: Pos, color: Vec3)
    ensures var g := Mata(m, radius, stacks, slices, color);
            && |g.vertices| == (stacks + 1) * (slices + 1) && |g.faces| == 6 * (stacks * slices)
            && InRange(g.faces, (stacks + 1) * (slices + 1)) && g.faces == GridFaces(Diagonal, stacks, slices, 0)
            && AllColored(g.vertices, color)
  {
    var s := Axes(radius);
    var f := (i: nat, j: nat) => MataVertex(m, s, stacks, slices, color, i, j);
    GridMeshShape(Diagonal, stacks, slices, f);
    GridColored(stacks + 1, slices + 1, f, color);
  }

  /** The source's (a, b, d, a, d, c) is the (first, first+1, second+1), (first, second+1, second) quad. */
  lemma MataQuad(a: nat, slices: nat)
    ensures var b, c := a + 1, a + (slices + 1);
            var d := c + 1;
            [a, b, d, a, d, c] == Quad(Diagonal, a, slices + 1)
  {
  }

  /** Vertex j of ring i sits at index i(slices+1)+j. */
  lemma MataVertexAt(m: Math, radius: real, stacks: Pos, slices: Pos, color: Vec3, i: nat, j: nat)
    requires i <= stacks && j <= slices
    ensures i * (slices + 1) + j < |Mata(m, radius, stacks, slices, color).vertices|
    ensures Mata(m, radius, stacks, slices, color).vertices[i * (slices + 1) + j]
         == MataVertex(m, Axes(radius), stacks, slices, color, i, j)
  {
    var s := Axes(radius);
    GridAt(stacks + 1, slices + 1, (i: nat, j: nat) => MataVertex(m, s, stacks, slices, color, i, j), i, j);
  }

  /** (x/sx)² + (y/sy)² + (z/sz)² = 1, for nonzero semi-axes s. */
  ghost predicate OnEllipsoid(p: Vec3, s: Vec3)
    requires s.x != 0.0 && s.y != 0.0 && s.z != 0.0
  {
    (p.x / s.x) * (p.x / s.x) + (p.y / s.y) * (p.y / s.y) + (p.z / s.z) * (p.z / s.z) == 1.0
  }

  /** For radius ≠ 0 every vertex lies on the ellipsoid with semi-axes (radius, radius, 0.8·radius). */
  lemma OnMataEllipsoid(m: Math, radius: real, stacks: Pos, slices: Pos, color: Vec3, i: nat, j: nat)
    requires TrigLaws(m) && radius != 0.0
    ensures OnEllipsoid(MataVertex(m, Axes(radius), stacks, slices, color, i, j).pos, Axes(radius))
  {
    var s := Axes(radius);
    var cosT, sinT := m.cos(Theta(stacks, i)), m.sin(Theta(stacks, i));
    var cosP, sinP := m.cos(Phi(slices, j)), m.sin(Phi(slices, j));
    UnitRatios(MataVertex(m, s, stacks, slices, color, i, j).pos, s, cosT, sinT, cosP, sinP);
  }

  lemma UnitRatios(p: Vec3, s: Vec3, cosT: real, sinT: real, cosP: real, sinP: real)
    requires s.x != 0.0 && s.y != 0.0 && s.z != 0.0
    requires p == Vec3(s.x * cosT * cosP, s.y * cosT * sinP, s.z * sinT)
    requires sinT * sinT + cosT * cosT == 1.0 && sinP * sinP + cosP * cosP == 1.0
    ensures OnEllipsoid(p, s)
  {
    Unscale(s.x, cosT, cosP);
    Unscale(s.y, cosT, sinP);
    assert (s.z * sinT) / s.z == sinT;
    calc {
      (cosT * cosP) * (cosT * cosP) + (cosT * sinP) * (cosT * sinP) + sinT * sinT;
      (cosT * cosT) * (sinP * sinP + cosP * cosP) + sinT * sinT;
      1.0;
    }
  }
}
