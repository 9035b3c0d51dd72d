/**
 * generateCurvedCone of Vibrava/horn.js: a straight tapered cone along +x (stacks+1 rings of
 * slices+1 vertices, ring i at x = t·length with t = i/stacks, radius and colour interpolated
 * from the base to the tip), quads between rings, an optional cap at the base and at the tip,
 * and then, when |bendAngle| > 1e-6, a cylindrical bend of every vertex with radius
 * R = length/bendAngle: x' = R·sin(x/R) and the bend coordinate (z, or y for bendAxis 'z')
 * raised by R·(1 − cos(x/R)).
 */
module VibravaHorn {
  import opened JsMath
  import opened Vectors
  import opened Mesh

  /** The destructured options object; an absent property is None and takes its default. */
  datatype HornOptions = HornOptions(
    length: Option<real>, baseRadius: Option<real>, tipRadius: Option<real>,
    stacks: Option<Pos>, slices: Option<Pos>, bendAngle: Option<real>, bendAxis: Option<string>,
    baseColor: Option<Vec3>, tipColor: Option<Vec3>, capBase: Option<bool>, capTip: Option<bool>)

  const BaseColor: Vec3 := Vec3(0.70, 0.62, 0.50)
  const TipColor: Vec3 := Vec3(0.95, 0.92, 0.85)

  /** The options after their defaults. */
  datatype Settings = Settings(
    length: real, baseRadius: real, tipRadius: real, stacks: Pos, slices: Pos, bendAngle: real,
    bendAxis: string, baseColor: Vec3, tipColor: Vec3, capBase: bool, capTip: bool)

  function Resolve(o: HornOptions): (st: Settings)
    ensures o.length == None ==> st.length == 2.0
    ensures o.baseRadius == None ==> st.baseRadius == 0.25
    ensures o.tipRadius == None ==> st.tipRadius == 0.03
    ensures o.stacks == None ==> st.stacks == 36
    ensures o.slices == None ==> st.slices == 24
    ensures o.bendAngle == None ==> st.bendAngle == PI / 3.0
    ensures o.bendAxis == None ==> st.bendAxis == "y"
    ensures o.baseColor == None ==> st.baseColor == BaseColor
    ensures o.tipColor == None ==> st.tipColor == TipColor
    ensures o.capBase == None ==> st.capBase
    ensures o.capTip == None ==> !st.capTip
    ensures o.capBase.Some? ==> st.capBase == o.capBase.value
    ensures o.capTip.Some? ==> st.capTip == o.capTip.value
  {
    Settings(Nullish(o.length, 2.0), Nullish(o.baseRadius, 0.25), Nullish(o.tipRadius, 0.03),
             Nullish(o.stacks, 36), Nullish(o.slices, 24), Nullish(o.bendAngle, PI / 3.0),
             Nullish(o.bendAxis, "y"), Nullish(o.baseColor, BaseColor), Nullish(o.tipColor, TipColor),
             Nullish(o.capBase, true), Nullish(o.capTip, false))
  }

  // ---------------------------------------------------------------- the straight cone

  /** t = i/stacks: 0 at the base ring, 1 at the tip ring. */
  function Fraction(stacks: Pos, i: nat): (t: real)
    ensures i == 0 ==> t == 0.0
    ensures i == stacks ==> t == 1.0
  {
    WholeFraction(stacks);
    i as real / stacks as real
  }

  /** (1 − t)·a + t·b: a at t = 0 and b at t = 1. */
  function Lerp(a: real, b: real, t: real): (r: real)
    ensures t == 0.0 ==> r == a
    ensures t == 1.0 ==> r == b
  {
    (1.0 - t) * a + t * b
  }

  function LerpColor(a: Vec3, b: Vec3, t: real): (c: Vec3)
    ensures t == 0.0 ==> c == a
    ensures t == 1.0 ==> c == b
  {
    Vec3(Lerp(a.x, b.x, t), Lerp(a.y, b.y, t), Lerp(a.z, b.z, t))
  }

  function Angle(slices: Pos, j: nat): real
  {
    (j as real / slices as real) * PI * 2.0
  }

  /** Vertex j of ring i before the bend. */
  function ConeVertex(m: Math, st: Settings, i: nat, j: nat): Vertex
  {
    var t := Fraction(st.stacks, i);
    var r := Lerp(st.baseRadius, st.tipRadius, t);
    var a := Angle(st.slices, j);
    Vertex(Vec3(t * st.length, r * m.cos(a), r * m.sin(a)), LerpColor(st.baseColor, st.tipColor, t))
  }

  function ConeRings(m: Math, st: Settings): seq<Vertex>
  {
    Grid(st.stacks + 1, st.slices + 1, (i: nat, j: nat) => ConeVertex(m, st, i, j))
  }

  /** The number of ring vertices, which is the index of the first cap centre. */
  function RingCount(st: Settings): nat
  {
    (st.stacks + 1) * (st.slices + 1)
  }

  function BaseCenter(st: Settings): Vertex
  {
    Vertex(Vec3(0.0, 0.0, 0.0), st.baseColor)
  }

  function TipCenter(st: Settings): Vertex
  {
    Vertex(Vec3(st.length, 0.0, 0.0), st.tipColor)
  }

  function BaseCap(st: Settings): seq<Vertex>
  {
    if st.capBase then [BaseCenter(st)] else []
  }

  function TipCap(st: Settings): seq<Vertex>
  {
    if st.capTip then [TipCenter(st)] else []
  }

  /** The tip centre follows the ring vertices and the base centre, if there is one. */
  function TipIndex(st: Settings): nat
  {
    RingCount(st) + |BaseCap(st)|
  }

  /** The first vertex of the last ring: stacks·(slices+1). */
  function TipRow(st: Settings): nat
  {
    st.stacks * (st.slices + 1)
  }

  /** The base fan (centre, j+1, j) over ring 0 and the tip fan (centre, j, j+1) over the last ring. */
  function BaseFaces(st: Settings): seq<nat>
  {
    if st.capBase then Fan(RingCount(st), 0, st.slices, true) else []
  }

  function TipFaces(st: Settings): seq<nat>
  {
    if st.capTip then Fan(TipIndex(st), TipRow(st), st.slices, false) else []
  }

  function ConeFaces(st: Settings): seq<nat>
  {
    GridFaces(Diagonal, st.stacks, st.slices, 0) + BaseFaces(st) + TipFaces(st)
  }

  /** The cone as steps 1 and 2 and the caps leave it, before the bend. */
  function Straight(m: Math, st: Settings): Geometry
  {
    Geometry(ConeRings(m, st) + BaseCap(st) + TipCap(st), ConeFaces(st))
  }

  // ---------------------------------------------------------------- the bend

  /**
   * Whether the bend runs: |bendAngle| > 1e-6. A zero length would make R zero and every
   * bent coordinate NaN; the model does not bend then.
   */
  predicate Bends(st: Settings)
  {
    Abs(st.bendAngle) > 0.000001 && st.length != 0.0
  }

  /** R = length / bendAngle. */
  function Radius(st: Settings): (r: real)
    requires Bends(st)
    ensures r != 0.0
  {
    st.length / st.bendAngle
  }

  /** One bent position: around z it raises y, otherwise it raises z. */
  function BendPoint(m: Math, p: Vec3, radius: real, aroundZ: bool): Vec3
    requires radius != 0.0
  {
    var s := p.x / radius;
    if aroundZ then Vec3(radius * m.sin(s), p.y + radius * (1.0 - m.cos(s)), p.z)
    else Vec3(radius * m.sin(s), p.y, p.z + radius * (1.0 - m.cos(s)))
  }

  /** The bend writes the position only: the three colour slots of the vertex stay. */
  function BendVertex(m: Math, v: Vertex, radius: real, aroundZ: bool): Vertex
    requires radius != 0.0
  {
    Vertex(BendPoint(m, v.pos, radius, aroundZ), v.color)
  }

  /**
   * The bend moves positions only: the vertex count and every colour stay, and so does the
   * coordinate off the bend plane (z when bending around z, y otherwise).
   */
  function Bent(m: Math, vs: seq<Vertex>, radius: real, aroundZ: bool): (r: seq<Vertex>)
    requires radius != 0.0
    ensures |r| == |vs|
    ensures forall k :: 0 <= k < |vs| ==> r[k].color == vs[k].color
    ensures aroundZ ==> forall k :: 0 <= k < |vs| ==> r[k].pos.z == vs[k].pos.z
    ensures !aroundZ ==> forall k :: 0 <= k < |vs| ==> r[k].pos.y == vs[k].pos.y
  {
    seq(|vs|, k requires 0 <= k < |vs| => BendVertex(m, vs[k], radius, aroundZ))
  }

  function CurvedCone(m: Math, st: Settings): Geometry
  {
    var g := Straight(m, st);
    if Bends(st) then Geometry(Bent(m, g.vertices, Radius(st), st.bendAxis == "z"), g.faces) else g
  }

  function Horn(m: Math, o: HornOptions): Geometry
  {
    CurvedCone(m, Resolve(o))
  }

  // ---------------------------------------------------------------- the generator

  /** generateCurvedCone(options). */
  method GenerateCurvedCone(m: Math, o: HornOptions) returns (g: Geometry)
    ensures g == Horn(m, o)
  {
    g := BuildCurvedCone(m, Resolve(o));
  }

  /** Rings, quads, caps, then the bend over the finished vertex array. */
  method BuildCurvedCone(m: Math, st: Settings) returns (g: Geometry)
    ensures g == CurvedCone(m, st)
  {
    var vs := AppendGrid([], st.stacks + 1, st.slices + 1, (i: nat, j: nat) => ConeVertex(m, st, i, j));
    var fs := AppendGridFaces([], Diagonal, st.stacks, st.slices, 0);
    assert vs == ConeRings(m, st) && fs == GridFaces(Diagonal, st.stacks, st.slices, 0);
    vs, fs := AddCaps(st, vs, fs);
    if Abs(st.bendAngle) > 0.000001 && st.length != 0.0 {
      var radius := st.length / st.bendAngle;
      vs := BendInPlace(m, vs, radius, st.bendAxis == "z");
    }
    g := Geometry(vs, fs);
  }

  /** The two optional caps: each pushes its centre and a fan around it. */
  method AddCaps(st: Settings, rings: seq<Vertex>, quads: seq<nat>) returns (vs: seq<Vertex>, fs: seq<nat>)
    requires |rings| == RingCount(st)
    ensures vs == rings + BaseCap(st) + TipCap(st)
    ensures fs == quads + BaseFaces(st) + TipFaces(st)
  {
    vs, fs := rings, quads;
    if st.capBase {
      var baseCenterIndex := |vs|;
      vs := vs + [BaseCenter(st)];
      fs := AppendFan(fs, baseCenterIndex, 0, st.slices, true);
    }
    assert vs == rings + BaseCap(st) && fs == quads + BaseFaces(st);
    if st.capTip {
      var tipCenterIndex := |vs|;
      vs := vs + [TipCenter(st)];
      MulNonNegative(st.stacks, st.slices + 1);
      var tipRow := st.stacks * (st.slices + 1);
      fs := AppendFan(fs, tipCenterIndex, tipRow, st.slices, false);
    }
  }

  /** The loop over the vertex array that overwrites each position with its bent one. */
  method BendInPlace(m: Math, vs: seq<Vertex>, radius: real, aroundZ: bool) returns (out: seq<Vertex>)
    requires radius != 0.0
    ensures out == Bent(m, vs, radius, aroundZ)
  {
    out := vs;
    for k := 0 to |vs|
      invariant |out| == |vs|
      invariant forall i :: 0 <= i < k ==> out[i] == BendVertex(m, vs[i], radius, aroundZ)
      invariant forall i :: k <= i < |vs| ==> out[i] == vs[i]
    {
      out := out[k := BendVertex(m, out[k], radius, aroundZ)];
    }
  }

  // ---------------------------------------------------------------- properties

  /** The number of cap centres pushed after the rings. */
  function CapCount(st: Settings): (n: nat)
    ensures n == (if st.capBase then 1 else 0) + (if st.capTip then 1 else 0)
  {
    |BaseCap(st)| + |TipCap(st)|
  }

  /**
   * 6·stacks·slices quad indices plus 3·slices per cap, every one naming one of the
   * RingCount + CapCount vertices.
   */
  lemma ConeFacesShape(st: Settings)
    ensures |ConeFaces(st)| == 6 * (st.stacks * st.slices) + (if st.capBase then 3 * st.slices else 0)
                                 + (if st.capTip then 3 * st.slices else 0)
    ensures InRange(ConeFaces(st), RingCount(st) + CapCount(st))
  {
    var grid, base, tip := GridFaces(Diagonal, st.stacks, st.slices, 0), BaseFaces(st), TipFaces(st);
    assert ConeFaces(st) == grid + base + tip;
    GridFacesLength(Diagonal, st.stacks, st.slices, 0);
    var total := RingCount(st) + CapCount(st);
    QuadsAndBaseWithin(st);
    if st.capTip {
      TipFanWithin(st);
    }
    WithinConcat(grid + base, tip, 0, total);
  }

  /** The quads and the base fan stay within the rings and the base centre. */
  lemma QuadsAndBaseWithin(st: Settings)
    ensures Within(GridFaces(Diagonal, st.stacks, st.slices, 0) + BaseFaces(st), 0, RingCount(st) + CapCount(st))
  {
    var n, total := RingCount(st), RingCount(st) + CapCount(st);
    var grid := GridFaces(Diagonal, st.stacks, st.slices, 0);
    GridFacesWithin(Diagonal, st.stacks, st.slices, 0);
    WithinWiden(grid, 0, n, 0, total);
    if st.capBase {
      FanWithin(n, 0, st.slices, true, 0, total);
    }
    WithinConcat(grid, BaseFaces(st), 0, total);
  }

  /** The tip fan stays within the last ring and the tip centre. */
  lemma TipFanWithin(st: Settings)
    requires st.capTip
    ensures Within(TipFaces(st), 0, RingCount(st) + CapCount(st))
  {
    MulNonNegative(st.stacks, st.slices + 1);
    MulSucc(st.stacks, st.slices + 1);
    FanWithin(TipIndex(st), TipRow(st), st.slices, false, 0, RingCount(st) + CapCount(st));
  }

  /**
   * RingCount + CapCount vertices, the faces of ConeFaces (so every index names a vertex):
   * the bend keeps both, and below the threshold it leaves the straight cone.
   */
  lemma HornShape(m: Math, st: Settings)
    ensures var g := CurvedCone(m, st);
            && |g.vertices| == RingCount(st) + CapCount(st)
            && g.faces == ConeFaces(st)
            && InRange(g.faces, |g.vertices|)
            && (!Bends(st) ==> g == Straight(m, st))
  {
    ConeFacesShape(st);
    assert |Straight(m, st).vertices| == RingCount(st) + CapCount(st);
  }

  /** Vertex j of ring i sits at index i·(slices+1) + j, bent when the bend runs. */
  lemma HornVertexAt(m: Math, st: Settings, i: nat, j: nat)
    requires i <= st.stacks && j <= st.slices
    ensures i * (st.slices + 1) + j < RingCount(st) <= |CurvedCone(m, st).vertices|
    ensures CurvedCone(m, st).vertices[i * (st.slices + 1) + j]
         == if Bends(st) then BendVertex(m, ConeVertex(m, st, i, j), Radius(st), st.bendAxis == "z")
            else ConeVertex(m, st, i, j)
  {
    GridAt(st.stacks + 1, st.slices + 1, (i: nat, j: nat) => ConeVertex(m, st, i, j), i, j);
    MulNonNegative(i, st.slices + 1);
    var k := i * (st.slices + 1) + j;
    var rings := ConeRings(m, st);
    ConcatLeftAt(rings, BaseCap(st), k);
    ConcatLeftAt(rings + BaseCap(st), TipCap(st), k);
  }

  /**
   * Before the bend ring i is the circle of its interpolated radius in the plane
   * x = t·length, coloured by the interpolated colour: the base radius and colour at ring
   * 0, the tip's at ring `stacks`.
   */
  lemma ConeRing(m: Math, st: Settings, i: nat, j: nat)
    requires TrigLaws(m)
    ensures var v, t := ConeVertex(m, st, i, j), Fraction(st.stacks, i);
            var r := Lerp(st.baseRadius, st.tipRadius, t);
            && v.pos.x == t * st.length
            && v.pos.y * v.pos.y + v.pos.z * v.pos.z == r * r
            && v.color == LerpColor(st.baseColor, st.tipColor, t)
            && (i == 0 ==> v.pos.x == 0.0 && r == st.baseRadius && v.color == st.baseColor)
            && (i == st.stacks ==> v.pos.x == st.length && r == st.tipRadius && v.color == st.tipColor)
  {
    var t := Fraction(st.stacks, i);
    OnCircle(m, Lerp(st.baseRadius, st.tipRadius, t), Angle(st.slices, j));
  }

  /** A point in the plane x = 0 does not move, given sin 0 = 0 and cos 0 = 1. */
  lemma BendFixesBasePlane(m: Math, p: Vec3, radius: real, aroundZ: bool)
    requires TrigLaws(m) && radius != 0.0 && p.x == 0.0
    ensures BendPoint(m, p, radius, aroundZ) == p
  {
    assert p.x / radius == 0.0;
  }

  /** So the bend leaves the base ring of the horn where the straight cone has it. */
  lemma BaseRingFixed(m: Math, st: Settings, j: nat)
    requires TrigLaws(m) && j <= st.slices
    ensures j < |CurvedCone(m, st).vertices|
    ensures CurvedCone(m, st).vertices[j] == ConeVertex(m, st, 0, j)
  {
    HornVertexAt(m, st, 0, j);
    ConeRing(m, st, 0, j);
    if Bends(st) {
      BendFixesBasePlane(m, ConeVertex(m, st, 0, j).pos, Radius(st), st.bendAxis == "z");
    }
  }

  /**
   * The bend is cylindrical: a point moved from (x, ·, w) in the bend plane lands at
   * (x', ·, w') with x'² + (w + R − w')² = R², on the circle of radius R around the axis
   * through w + R.
   */
  lemma BendOnCircle(m: Math, p: Vec3, radius: real, aroundZ: bool)
    requires TrigLaws(m) && radius != 0.0
    ensures var q := BendPoint(m, p, radius, aroundZ);
            var w, w' := if aroundZ then p.y else p.z, if aroundZ then q.y else q.z;
            q.x * q.x + (w + radius - w') * (w + radius - w') == radius * radius
  {
    var s := p.x / radius;
    var q := BendPoint(m, p, radius, aroundZ);
    var w, w' := if aroundZ then p.y else p.z, if aroundZ then q.y else q.z;
    assert w + radius - w' == radius * m.cos(s);
    OnCircle(m, radius, s);
  }

  /** The tip's axis point turns through exactly bendAngle: s = length / R = bendAngle there. */
  lemma TipTurnsByBendAngle(m: Math, st: Settings)
    requires Bends(st)
    ensures var r, a := Radius(st), st.bendAngle;
            (BendPoint(m, TipCenter(st).pos, r, st.bendAxis == "z")
             == if st.bendAxis == "z" then Vec3(r * m.sin(a), r * (1.0 - m.cos(a)), 0.0)
                else Vec3(r * m.sin(a), 0.0, r * (1.0 - m.cos(a))))
  {
    var r := Radius(st);
    assert st.bendAngle != 0.0;
    assert st.length / r == st.bendAngle;
  }
}
