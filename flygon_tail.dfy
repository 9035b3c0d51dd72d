/**
 * generateFlygonTailBezier of Flygon/BodyParts/Tail/FlygonTail.js: a tube swept along a
 * cubic Bezier curve like the body, but with a moving frame. The loop carries the previous
 * unit tangent and a (normal, binormal) pair from ring to ring and turns the pair by
 * Rodrigues' formula whenever the tangent has turned by more than a threshold. The radius
 * shrinks linearly to a tenth at the tip, and the rings alternate between two greens in
 * six stripes.
 */
module FlygonTail {
  import opened JsMath
  import opened Vectors
  import opened Mesh
  import Bezier
  import FlygonBody

  const LightGreen: Vec3 := Vec3(181.0 / 255.0, 235.0 / 255.0, 145.0 / 255.0)
  const DarkGreen: Vec3 := Vec3(85.0 / 255.0, 170.0 / 255.0, 85.0 / 255.0)

  /** The sine of the least turn that rotates the frame. */
  const TurnThreshold: real := 0.000001

  /** The frame the loop carries: prevTangent, normal and binormal. */
  datatype Frame = Frame(tangent: Vec3, normal: Vec3, binormal: Vec3)

  /** normalize(bezierTangent(t, ...)); the tail's tangent formula equals the body's (Bezier.TailTangentForm). */
  function UnitTangent(m: Math, p0: Vec3, p1: Vec3, p2: Vec3, p3: Vec3, t: real): Vec3
  {
    Normalize(m, Bezier.Tangent(t, p0, p1, p2, p3))
  }

  /** The first guess at a normal: world up, or world x when the tangent is nearly vertical. */
  function InitialNormal(tangent: Vec3): (n: Vec3)
    ensures Abs(tangent.y) > 0.9 ==> n == Vec3(1.0, 0.0, 0.0)
    ensures Abs(tangent.y) <= 0.9 ==> n == Vec3(0.0, 1.0, 0.0)
  {
    if Abs(tangent.y) > 0.9 then Vec3(1.0, 0.0, 0.0) else Vec3(0.0, 1.0, 0.0)
  }

  /** The starting frame, built before the ring loop from the tangent at t = 0. */
  function StartFrame(m: Math, p0: Vec3, p1: Vec3, p2: Vec3, p3: Vec3): Frame
  {
    var prev := UnitTangent(m, p0, p1, p2, p3, 0.0);
    var binormal := Normalize(m, Cross(prev, InitialNormal(prev)));
    Frame(prev, Normalize(m, Cross(binormal, prev)), binormal)
  }

  /** rotate(v): Rodrigues' rotation of v by `angle` about the unit axis `rot`. */
  function Rotate(m: Math, v: Vec3, rot: Vec3, angle: real): Vec3
  {
    var cosA, sinA := m.cos(angle), m.sin(angle);
    var d := v.x * rot.x + v.y * rot.y + v.z * rot.z;
    Vec3(v.x * cosA + (rot.y * v.z - rot.z * v.y) * sinA + rot.x * d * (1.0 - cosA),
         v.y * cosA + (rot.z * v.x - rot.x * v.z) * sinA + rot.y * d * (1.0 - cosA),
         v.z * cosA + (rot.x * v.y - rot.y * v.x) * sinA + rot.z * d * (1.0 - cosA))
  }

  /** The rotated branch of one loop step: new normal, then binormal = tangent × normal. */
  function Turned(m: Math, f: Frame, tangent: Vec3): Frame
  {
    var axis := Cross(f.tangent, tangent);
    var axisLen := Length(m, axis);
    var normal := Normalize(m, Rotate(m, f.normal, Normalize(m, axis), m.asin(axisLen)));
    Frame(tangent, normal, Normalize(m, Cross(tangent, normal)))
  }

  /** One step of the frame for a ring with unit tangent `tangent`. */
  function Advance(m: Math, f: Frame, tangent: Vec3): Frame
  {
    if Length(m, Cross(f.tangent, tangent)) > TurnThreshold then Turned(m, f, tangent)
    else Frame(tangent, f.normal, f.binormal)
  }

  /** The frame ring i is built with. */
  function FrameAt(m: Math, p0: Vec3, p1: Vec3, p2: Vec3, p3: Vec3, stacks: Pos, i: nat): Frame
    decreases i
  {
    var before := if i == 0 then StartFrame(m, p0, p1, p2, p3) else FrameAt(m, p0, p1, p2, p3, stacks, i - 1);
    Advance(m, before, UnitTangent(m, p0, p1, p2, p3, FlygonBody.Param(stacks, i)))
  }

  /** radiusProfile(t) = 1 − 0.9·t. */
  function RadiusScale(t: real): real
  {
    1.0 - 0.9 * t
  }

  /** Math.floor(i / (stacks / 6)). */
  function Stripe(stacks: Pos, i: nat): int
  {
    (i as real / (stacks as real / 6.0)).Floor
  }

  function StripeColor(stacks: Pos, i: nat): Vec3
  {
    if Stripe(stacks, i) % 2 == 0 then LightGreen else DarkGreen
  }

  /** The angle (j/slices)·2·PI of vertex j. */
  function Angle(slices: Pos, j: nat): real
  {
    (j as real / slices as real) * 2.0 * PI
  }

  /** Vertex j of a ring with the given centre, frame and colour, semi-axes a and b scaled by `scale`. */
  function RingVertex(m: Math, center: Vec3, f: Frame, a: real, b: real, scale: real, color: Vec3, slices: Pos,
                      j: nat): Vertex
  {
    Vertex(Bezier.SweepPoint(center, f.normal, f.binormal, a * scale, b * scale,
                             m.cos(Angle(slices, j)), m.sin(Angle(slices, j))),
           color)
  }

  function TailVertex(m: Math, p0: Vec3, p1: Vec3, p2: Vec3, p3: Vec3, a: real, b: real, stacks: Pos, slices: Pos,
                      i: nat, j: nat): Vertex
  {
    RingVertex(m, FlygonBody.Center(p0, p1, p2, p3, stacks, i), FrameAt(m, p0, p1, p2, p3, stacks, i),
               a, b, RadiusScale(FlygonBody.Param(stacks, i)), StripeColor(stacks, i), slices, j)
  }

  function Tail(m: Math, p0: Vec3, p1: Vec3, p2: Vec3, p3: Vec3, a: real, b: real, stacks: Pos, slices: Pos): Geometry
  {
    GridMesh(Diagonal, stacks, slices, (i: nat, j: nat) => TailVertex(m, p0, p1, p2, p3, a, b, stacks, slices, i, j))
  }

  /**
   * generateFlygonTailBezier(p0, p1, p2, p3, a, b, stacks, slices): the ring loop carries
   * prevTangent, normal and binormal, turning the frame before each ring is pushed.
   */
  method GenerateFlygonTailBezier(m: Math, p0: Vec3, p1: Vec3, p2: Vec3, p3: Vec3, a: real, b: real,
                                  stacks: Pos, slices: Pos) returns (g: Geometry)
    ensures g == Tail(m, p0, p1, p2, p3, a, b, stacks, slices)
  {
    var start := StartFrame(m, p0, p1, p2, p3);
    var prevTangent, normal, binormal := start.tangent, start.normal, start.binormal;
    ghost var spec := (i: nat, j: nat) => TailVertex(m, p0, p1, p2, p3, a, b, stacks, slices, i, j);
    var vs: seq<Vertex> := [];
    for i := 0 to stacks + 1
      invariant vs == Grid(i, slices + 1, spec)
      invariant i == 0 ==> Frame(prevTangent, normal, binormal) == start
      invariant i > 0 ==> Frame(prevTangent, normal, binormal) == FrameAt(m, p0, p1, p2, p3, stacks, i - 1)
    {
      var t := i as real / stacks as real;
      var center := Bezier.Point(t, p0, p1, p2, p3);
      prevTangent, normal, binormal := Step(m, p0, p1, p2, p3, t, prevTangent, normal, binormal);
      var scale := RadiusScale(t);
      var color := StripeColor(stacks, i);
      var ring := (_: nat, j: nat) => RingVertex(m, center, Frame(prevTangent, normal, binormal), a, b, scale,
                                                 color, slices, j);
      vs := AppendRing(vs, i, slices + 1, ring);
      RingsAgree(m, p0, p1, p2, p3, a, b, stacks, slices, i, ring, spec,
                 Frame(prevTangent, normal, binormal), center, scale, color);
    }
    var fs := AppendGridFaces([], Diagonal, stacks, slices, 0);
    g := Geometry(vs, fs);
  }

  /**
   * The frame update at the top of each ring: the new tangent at t, and the normal turned
   * by asin(|prev × tangent|) about that axis, with the binormal rebuilt, when the turn
   * passes the threshold.
   */
  method Step(m: Math, p0: Vec3, p1: Vec3, p2: Vec3, p3: Vec3, t: real, prevTangent: Vec3, normal: Vec3, binormal: Vec3)
    returns (tangent: Vec3, normal': Vec3, binormal': Vec3)
    ensures Frame(tangent, normal', binormal')
         == Advance(m, Frame(prevTangent, normal, binormal), UnitTangent(m, p0, p1, p2, p3, t))
  {
    tangent := Normalize(m, Bezier.Tangent(t, p0, p1, p2, p3));
    normal', binormal' := normal, binormal;
    var axis := Cross(prevTangent, tangent);
    var axisLen := Length(m, axis);
    if axisLen > TurnThreshold {
      var angle := m.asin(axisLen);
      var rot := Normalize(m, axis);
      normal' := Normalize(m, Rotate(m, normal, rot, angle));
      binormal' := Normalize(m, Cross(tangent, normal'));
    }
  }

  /** The ring the loop pushes with its carried frame is the specified ring i. */
  lemma RingsAgree(m: Math, p0: Vec3, p1: Vec3, p2: Vec3, p3: Vec3, a: real, b: real, stacks: Pos, slices: Pos, i: nat,
                   ring: (nat, nat) -> Vertex, spec: (nat, nat) -> Vertex, f: Frame, center: Vec3, scale: real, color: Vec3)
    requires f == FrameAt(m, p0, p1, p2, p3, stacks, i)
    requires center == FlygonBody.Center(p0, p1, p2, p3, stacks, i)
    requires scale == RadiusScale(FlygonBody.Param(stacks, i)) && color == StripeColor(stacks, i)
    requires forall j: nat :: ring(i, j) == RingVertex(m, center, f, a, b, scale, color, slices, j)
    requires forall i': nat, j: nat :: spec(i', j) == TailVertex(m, p0, p1, p2, p3, a, b, stacks, slices, i', j)
    ensures Ring(i, slices + 1, ring) == Ring(i, slices + 1, spec)
  {
    forall j: nat | j < slices + 1
      ensures ring(i, j) == spec(i, j)
    {
      assert ring(i, j) == RingVertex(m, center, f, a, b, scale, color, slices, j);
      assert spec(i, j) == TailVertex(m, p0, p1, p2, p3, a, b, stacks, slices, i, j);
    }
    assert forall j :: 0 <= j < slices + 1 ==> Ring(i, slices + 1, ring)[j] == ring(i, j);
    assert forall j :: 0 <= j < slices + 1 ==> Ring(i, slices + 1, spec)[j] == spec(i, j);
  }

  /** (stacks+1)(slices+1) vertices and 6·stacks·slices indices, all naming a vertex. */
  lemma TailShape(m: Math, p0: Vec3, p1: Vec3, p2: Vec3, p3: Vec3, a: real, b: real, stacks: Pos, slices: Pos)
    ensures |Tail(m, p0, p1, p2, p3, a, b, stacks, slices).vertices| == (stacks + 1) * (slices + 1)
    ensures |Tail(m, p0, p1, p2, p3, a, b, stacks, slices).faces| == 6 * (stacks * slices)
    ensures InRange(Tail(m, p0, p1, p2, p3, a, b, stacks, slices).faces, (stacks + 1) * (slices + 1))
    ensures Tail(m, p0, p1, p2, p3, a, b, stacks, slices).faces == GridFaces(Diagonal, stacks, slices, 0)
  {
    GridMeshShape(Diagonal, stacks, slices, (i: nat, j: nat) => TailVertex(m, p0, p1, p2, p3, a, b, stacks, slices, i, j));
  }

  /** Vertex j of ring i sits at index i·(slices+1) + j and has ring i's stripe colour. */
  lemma TailVertexAt(m: Math, p0: Vec3, p1: Vec3, p2: Vec3, p3: Vec3, a: real, b: real, stacks: Pos, slices: Pos,
                     i: nat, j: nat)
    requires i <= stacks && j <= slices
    ensures i * (slices + 1) + j < |Tail(m, p0, p1, p2, p3, a, b, stacks, slices).vertices|
    ensures Tail(m, p0, p1, p2, p3, a, b, stacks, slices).vertices[i * (slices + 1) + j]
         == TailVertex(m, p0, p1, p2, p3, a, b, stacks, slices, i, j)
    ensures Tail(m, p0, p1, p2, p3, a, b, stacks, slices).vertices[i * (slices + 1) + j].color
         == if ((6 * i) / stacks) % 2 == 0 then LightGreen else DarkGreen
  {
    GridAt(stacks + 1, slices + 1, (i: nat, j: nat) => TailVertex(m, p0, p1, p2, p3, a, b, stacks, slices, i, j), i, j);
    StripeIsQuotient(stacks, i);
  }

  /** The stripe index is the integer quotient 6·i div stacks, so the tail has stripes 0..6. */
  lemma StripeIsQuotient(stacks: Pos, i: nat)
    ensures Stripe(stacks, i) == (6 * i) / stacks
    ensures i <= stacks ==> 0 <= Stripe(stacks, i) <= 6
  {
    var n, d := 6 * i, stacks;
    var q, r := n / d, n % d;
    assert n == q * d + r && 0 <= r < d;
    assert i as real / (stacks as real / 6.0) == n as real / d as real;
    FloorOfQuotient(n, d);
    if i <= stacks {
      assert n <= 6 * d;
      DivMonotone(n, 6 * d, d);
    }
  }

  lemma FloorOfQuotient(n: nat, d: Pos)
    ensures (n as real / d as real).Floor == n / d
  {
    var q, r := n / d, n % d;
    assert (n as real) == (q as real) * (d as real) + r as real;
    assert q as real <= n as real / d as real by {
      assert (q as real) * (d as real) <= n as real;
    }
    assert n as real / d as real < (q + 1) as real by {
      assert n as real < ((q + 1) as real) * (d as real);
    }
  }

  lemma DivMonotone(n: nat, n': nat, d: Pos)
    requires n <= n'
    ensures n / d <= n' / d
  {
    var q, q' := n / d, n' / d;
    assert q * d <= n && n' < q' * d + d;
    assert (q' + 1) * d == q' * d + d;
    if q > q' {
      MulMonotone(q' + 1, q, d);
      assert false;
    }
  }

  /**
   * The semi-axes scale is 1 at the base and 0.1 at the tip, and strictly falls along the
   * tail: ring i is wider than every later ring whenever a and b are positive.
   */
  lemma RadiusTapers(stacks: Pos, i: nat, i': nat)
    requires i < i'
    ensures RadiusScale(FlygonBody.Param(stacks, 0)) == 1.0 && RadiusScale(FlygonBody.Param(stacks, stacks)) == 0.1
    ensures RadiusScale(FlygonBody.Param(stacks, i)) > RadiusScale(FlygonBody.Param(stacks, i'))
  {
    assert FlygonBody.Param(stacks, 0) == 0.0 && FlygonBody.Param(stacks, stacks) == 1.0;
    assert FlygonBody.Param(stacks, i) < FlygonBody.Param(stacks, i') by {
      assert (i as real) < (i' as real);
    }
  }

  /** Both frame axes of the start frame are orthogonal to the tangent and to each other. */
  lemma StartFrameOrthogonal(m: Math, p0: Vec3, p1: Vec3, p2: Vec3, p3: Vec3)
    ensures var f := StartFrame(m, p0, p1, p2, p3);
            Dot(f.binormal, f.tangent) == 0.0 && Dot(f.normal, f.tangent) == 0.0 && Dot(f.normal, f.binormal) == 0.0
  {
    var f := StartFrame(m, p0, p1, p2, p3);
    var prev := f.tangent;
    var c := Cross(prev, InitialNormal(prev));
    CrossOrthogonal(prev, InitialNormal(prev));
    NormalizeOrthogonal(m, c, prev);
    var c' := Cross(f.binormal, prev);
    CrossOrthogonal(f.binormal, prev);
    NormalizeOrthogonal(m, c', prev);
    NormalizeOrthogonal(m, c', f.binormal);
  }

  /**
   * One step keeps the frame unless the tangent turned by more than the threshold; a turned
   * frame has its binormal orthogonal to the new tangent and to the new normal.
   */
  lemma AdvanceCases(m: Math, f: Frame, tangent: Vec3)
    ensures Advance(m, f, tangent).tangent == tangent
    ensures Length(m, Cross(f.tangent, tangent)) <= TurnThreshold ==>
      Advance(m, f, tangent).normal == f.normal && Advance(m, f, tangent).binormal == f.binormal
    ensures Length(m, Cross(f.tangent, tangent)) > TurnThreshold ==>
      Dot(Advance(m, f, tangent).binormal, tangent) == 0.0 &&
      Dot(Advance(m, f, tangent).binormal, Advance(m, f, tangent).normal) == 0.0
  {
    var g := Turned(m, f, tangent);
    var c := Cross(tangent, g.normal);
    CrossOrthogonal(tangent, g.normal);
    NormalizeOrthogonal(m, c, tangent);
    NormalizeOrthogonal(m, c, g.normal);
  }

  /** Every frame the loop uses has its normal orthogonal to its binormal. */
  lemma {:induction false} FrameAxesOrthogonal(m: Math, p0: Vec3, p1: Vec3, p2: Vec3, p3: Vec3, stacks: Pos, i: nat)
    ensures Dot(FrameAt(m, p0, p1, p2, p3, stacks, i).normal, FrameAt(m, p0, p1, p2, p3, stacks, i).binormal) == 0.0
    decreases i
  {
    var before := if i == 0 then StartFrame(m, p0, p1, p2, p3) else FrameAt(m, p0, p1, p2, p3, stacks, i - 1);
    if i == 0 {
      StartFrameOrthogonal(m, p0, p1, p2, p3);
    } else {
      FrameAxesOrthogonal(m, p0, p1, p2, p3, stacks, i - 1);
    }
    var tangent := UnitTangent(m, p0, p1, p2, p3, FlygonBody.Param(stacks, i));
    AdvanceCases(m, before, tangent);
    var g := Advance(m, before, tangent);
    assert Dot(g.binormal, g.normal) == 0.0 ==> Dot(g.normal, g.binormal) == 0.0;
  }

  /** With a true square root, the first ring keeps the start frame: its tangent has not turned. */
  lemma FirstRingKeepsStart(m: Math, p0: Vec3, p1: Vec3, p2: Vec3, p3: Vec3, stacks: Pos)
    requires SqrtLaws(m)
    ensures FrameAt(m, p0, p1, p2, p3, stacks, 0) == StartFrame(m, p0, p1, p2, p3)
  {
    var s := StartFrame(m, p0, p1, p2, p3);
    assert FlygonBody.Param(stacks, 0) == 0.0;
    var v := s.tangent;
    assert Cross(v, v) == Zero;
    assert Length(m, Cross(v, v)) == 0.0;
  }

  /**
   * Each vertex is its ring centre plus a·k·cos(u) along the ring's normal and b·k·sin(u)
   * along its binormal, with k the taper at t = i/stacks.
   */
  lemma TailVertexOffset(m: Math, p0: Vec3, p1: Vec3, p2: Vec3, p3: Vec3, a: real, b: real, stacks: Pos, slices: Pos,
                         i: nat, j: nat)
    ensures Sub(TailVertex(m, p0, p1, p2, p3, a, b, stacks, slices, i, j).pos, FlygonBody.Center(p0, p1, p2, p3, stacks, i))
         == Offset(m, FrameAt(m, p0, p1, p2, p3, stacks, i), a, b, RadiusScale(FlygonBody.Param(stacks, i)), slices, j)
  {
    RingOffset(m, FlygonBody.Center(p0, p1, p2, p3, stacks, i), FrameAt(m, p0, p1, p2, p3, stacks, i),
               a, b, RadiusScale(FlygonBody.Param(stacks, i)), StripeColor(stacks, i), slices, j);
  }

  /** Ring 0 is centred on p0 with the full semi-axes a, b; ring `stacks` on p3 with a tenth of them. */
  lemma TailEnds(m: Math, p0: Vec3, p1: Vec3, p2: Vec3, p3: Vec3, a: real, b: real, stacks: Pos, slices: Pos, j: nat)
    ensures Sub(TailVertex(m, p0, p1, p2, p3, a, b, stacks, slices, 0, j).pos, p0)
         == Offset(m, FrameAt(m, p0, p1, p2, p3, stacks, 0), a, b, 1.0, slices, j)
    ensures Sub(TailVertex(m, p0, p1, p2, p3, a, b, stacks, slices, stacks, j).pos, p3)
         == Offset(m, FrameAt(m, p0, p1, p2, p3, stacks, stacks), a, b, 0.1, slices, j)
  {
    TailVertexOffset(m, p0, p1, p2, p3, a, b, stacks, slices, 0, j);
    TailVertexOffset(m, p0, p1, p2, p3, a, b, stacks, slices, stacks, j);
    FlygonBody.BodyEnds(p0, p1, p2, p3, stacks);
    RadiusTapers(stacks, 0, stacks);
  }

  /** a·k·cos(u)·normal + b·k·sin(u)·binormal for vertex j. */
  function Offset(m: Math, f: Frame, a: real, b: real, k: real, slices: Pos, j: nat): Vec3
  {
    Add(Scale(a * k * m.cos(Angle(slices, j)), f.normal), Scale(b * k * m.sin(Angle(slices, j)), f.binormal))
  }

  /** A ring vertex is its centre moved by the offset of its frame. */
  lemma RingOffset(m: Math, center: Vec3, f: Frame, a: real, b: real, k: real, color: Vec3, slices: Pos, j: nat)
    ensures Sub(RingVertex(m, center, f, a, b, k, color, slices, j).pos, center) == Offset(m, f, a, b, k, slices, j)
  {
    Bezier.SweepOffset(center, f.normal, f.binormal, a * k, b * k, m.cos(Angle(slices, j)), m.sin(Angle(slices, j)));
  }
}
