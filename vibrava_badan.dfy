/**
 * generateBadanVibrava of Vibrava/badan.js: Vibrava's closed, tapered body along the x axis,
 * head at +len/2 and tail at −len/2. From index 0: the head centre, 12 head-cap rings, the
 * stacks+1 body rings, 12 tail-cap rings and the tail centre, every ring of radial+1
 * vertices. From t = 0.4 on, the body rings (and the whole tail cap) are rotated about
 * (pivotX, 0) in the xy plane by up to −25 degrees. The colour of a ring is a light body
 * colour with seven green stripes blended in.
 */
module VibravaBadan {
  import opened JsMath
  import opened Vectors
  import opened Mesh
  import VibravaMata

  /** The total tail bend, −25 degrees in radians, and the fraction where it starts. */
  const Arc: real := -25.0 * (PI / 180.0)
  const BendStartT: real := 0.4

  const BodyBase: Vec3 := Vec3(0.93, 0.97, 0.72)
  const StripeColor: Vec3 := Vec3(0.42, 0.78, 0.27)
  const ShadowTint: real := 0.10

  /** Where along the body (0 = head, 1 = tail) the stripes sit, and their width. */
  const BandCenters: seq<real> := [0.10, 0.24, 0.38, 0.53, 0.69, 0.83, 0.92]
  const BandWidth: real := 0.045

  /** The number of rings of each hemispherical cap. */
  const CapStacks: Pos := 12

  /** The positional arguments after their defaults. */
  datatype Params = Params(len: real, rFront: real, rBack: real, stacks: Pos, radial: Pos)

  function Resolve(lenArg: Option<real>, rFrontArg: Option<real>, rBackArg: Option<real>, stacksArg: Option<Pos>,
                   radialArg: Option<Pos>): (p: Params)
    ensures lenArg == None ==> p.len == 1.2
    ensures rFrontArg == None ==> p.rFront == 0.22
    ensures rBackArg == None ==> p.rBack == 0.05
    ensures stacksArg == None ==> p.stacks == 120
    ensures radialArg == None ==> p.radial == 48
  {
    Params(Nullish(lenArg, 1.2), Nullish(rFrontArg, 0.22), Nullish(rBackArg, 0.05), Nullish(stacksArg, 120),
           Nullish(radialArg, 48))
  }

  // ---------------------------------------------------------------- the helpers

  function Clamp01(v: real): (r: real)
    ensures 0.0 <= r <= 1.0
    ensures 0.0 <= v <= 1.0 ==> r == v
    ensures v < 0.0 ==> r == 0.0
    ensures v > 1.0 ==> r == 1.0
  {
    Max(0.0, Min(1.0, v))
  }

  /** smoothstep of the clamped input: within [0, 1], 0 up to x = 0 and 1 from x = 1 on. */
  function Smooth(x: real): (r: real)
    ensures 0.0 <= r <= 1.0
    ensures x <= 0.0 ==> r == 0.0
    ensures x >= 1.0 ==> r == 1.0
  {
    var s := Clamp01(x);
    SmoothStepBounds(s);
    s * s * (3.0 - 2.0 * s)
  }

  /** s²(3 − 2s) stays in [0, 1] on [0, 1], since 1 − s²(3 − 2s) = (1 − s)²(1 + 2s). */
  lemma SmoothStepBounds(s: real)
    requires 0.0 <= s <= 1.0
    ensures 0.0 <= s * s * (3.0 - 2.0 * s) <= 1.0
  {
    var sq := s * s;
    assert sq >= 0.0;
    assert sq * (3.0 - 2.0 * s) >= 0.0;
    var b := (1.0 - s) * (1.0 - s);
    assert b >= 0.0;
    assert b * (1.0 + 2.0 * s) >= 0.0;
    assert 1.0 - sq * (3.0 - 2.0 * s) == b * (1.0 + 2.0 * s);
  }

  /** Half-height of ring t: the taper from rFront to rBack plus a bulge near t = 0.2. */
  function RadiusY(m: Math, p: Params, t: real): real
  {
    var base := p.rFront + (p.rBack - p.rFront) * Smooth(t);
    var bulge := 0.6 * p.rFront * m.exp(-((t - 0.2) * (t - 0.2)) / 0.07);
    1.08 * (base + bulge)
  }

  function RadiusZ(m: Math, p: Params, t: real): real
  {
    0.78 * RadiusY(m, p, t)
  }

  function Skew(m: Math, t: real): real
  {
    1.0 + 0.06 * m.sin(t * 5.0)
  }

  /** The x of the ring where the bend begins. */
  function PivotX(p: Params): real
  {
    p.len / 2.0 - p.len * BendStartT
  }

  // ---------------------------------------------------------------- getColorAt

  /** The distance from t to the nearest of the first n band centres, starting from 1. */
  function Nearest(t: real, n: nat): (d: real)
    requires n <= |BandCenters|
    ensures 0.0 <= d <= 1.0
    decreases n
  {
    if n == 0 then 1.0 else Min(Nearest(t, n - 1), Abs(t - BandCenters[n - 1]))
  }

  /**
   * The loop's result is a minimum: within [0, 1], no more than the distance to any of the
   * first n centres, and equal to 1 or to one of those distances.
   */
  lemma {:induction false} NearestIsMin(t: real, n: nat)
    requires n <= |BandCenters|
    ensures forall k :: 0 <= k < n ==> Nearest(t, n) <= Abs(t - BandCenters[k])
    ensures Nearest(t, n) == 1.0 || exists k :: 0 <= k < n && Nearest(t, n) == Abs(t - BandCenters[k])
    decreases n
  {
    if n > 0 {
      NearestIsMin(t, n - 1);
      var d := Nearest(t, n - 1);
      if Abs(t - BandCenters[n - 1]) < d {
        assert Nearest(t, n) == Abs(t - BandCenters[n - 1]);
      } else {
        assert Nearest(t, n) == d;
      }
    }
  }

  /** 0 on a band centre, 1 from half a band width away from every centre. */
  function StripeMask(t: real): real
  {
    MaskOf(Nearest(t, |BandCenters|))
  }

  /** smooth(min(1, d / (bandWidth·0.5))) for the distance d to the nearest band centre. */
  function MaskOf(d: real): real
  {
    Smooth(Min(1.0, d / (BandWidth * 0.5)))
  }

  /** mask·a + (1 − mask)·b: b where the mask is 0 and a where it is 1. */
  function Mix(mask: real, a: real, b: real): (r: real)
    ensures mask == 0.0 ==> r == b
    ensures mask == 1.0 ==> r == a
  {
    mask * a + (1.0 - mask) * b
  }

  /** The highlight 0.06·(0.7 − t) added to every channel. */
  function Highlight(t: real): real
  {
    0.06 * (0.7 - t)
  }

  /** The colour of ring t, every channel cut off at 1. */
  function ColorAt(t: real): (c: Vec3)
    ensures c.x <= 1.0 && c.y <= 1.0 && c.z <= 1.0
  {
    Tinted(StripeMask(t), Highlight(t))
  }

  /** The body colour blended with the stripe colour by `mask`, lifted by `ht` and cut off at 1. */
  function Tinted(mask: real, ht: real): (c: Vec3)
    ensures c.x <= 1.0 && c.y <= 1.0 && c.z <= 1.0
  {
    Vec3(Min(1.0, Mix(mask, BodyBase.x, StripeColor.x) + ht),
         Min(1.0, Mix(mask, BodyBase.y, StripeColor.y) + ht),
         Min(1.0, Mix(mask, BodyBase.z, StripeColor.z) + ht))
  }

  /** getColorAt(t): the loop over the band centres, then the blend. */
  method GetColorAt(t: real) returns (c: Vec3)
    ensures c == ColorAt(t)
  {
    var d := NearestBand(t);
    c := BandColor(t, d);
  }

  /** The blend of getColorAt, once d is the distance to the nearest band centre. */
  method BandColor(t: real, d: real) returns (c: Vec3)
    ensures c == Tinted(MaskOf(d), Highlight(t))
  {
    var stripeMask := Smooth(Min(1.0, d / (BandWidth * 0.5)));
    var rCol := stripeMask * BodyBase.x + (1.0 - stripeMask) * StripeColor.x;
    var gCol := stripeMask * BodyBase.y + (1.0 - stripeMask) * StripeColor.y;
    var bCol := stripeMask * BodyBase.z + (1.0 - stripeMask) * StripeColor.z;
    var ht := 0.06 * (0.7 - t);
    c := Vec3(Min(1.0, rCol + ht), Min(1.0, gCol + ht), Min(1.0, bCol + ht));
  }

  /** `let d = 1; for (k ...) d = Math.min(d, Math.abs(t - bandCenters[k]))`. */
  method NearestBand(t: real) returns (d: real)
    ensures d == Nearest(t, |BandCenters|)
  {
    d := 1.0;
    for k := 0 to |BandCenters|
      invariant d == Nearest(t, k)
    {
      d := Min(d, Abs(t - BandCenters[k]));
    }
  }

  /** On a band centre the ring has the stripe colour (plus the highlight). */
  lemma ColorOnBand(t: real, k: nat)
    requires k < |BandCenters| && t == BandCenters[k]
    ensures var ht := Highlight(t);
            ColorAt(t) == Vec3(Min(1.0, StripeColor.x + ht), Min(1.0, StripeColor.y + ht), Min(1.0, StripeColor.z + ht))
  {
    NearestAtCenter(t, k);
    StripeColored(t);
  }

  lemma NearestAtCenter(t: real, k: nat)
    requires k < |BandCenters| && t == BandCenters[k]
    ensures Nearest(t, |BandCenters|) == 0.0
  {
    NearestIsMin(t, |BandCenters|);
    assert Abs(t - BandCenters[k]) == 0.0;
  }

  lemma StripeColored(t: real)
    requires Nearest(t, |BandCenters|) == 0.0
    ensures var ht := Highlight(t);
            ColorAt(t) == Vec3(Min(1.0, StripeColor.x + ht), Min(1.0, StripeColor.y + ht), Min(1.0, StripeColor.z + ht))
  {
    MaskOnBand(t);
  }

  lemma MaskOnBand(t: real)
    requires Nearest(t, |BandCenters|) == 0.0
    ensures StripeMask(t) == 0.0
  {
    var q := Nearest(t, |BandCenters|) / (BandWidth * 0.5);
    assert Min(1.0, q) == 0.0;
  }

  /** Half a band width or more from every centre the ring has the body colour (plus the highlight). */
  lemma ColorOffBands(t: real)
    requires forall k :: 0 <= k < |BandCenters| ==> Abs(t - BandCenters[k]) >= BandWidth * 0.5
    ensures var ht := Highlight(t);
            ColorAt(t) == Vec3(Min(1.0, BodyBase.x + ht), Min(1.0, BodyBase.y + ht), Min(1.0, BodyBase.z + ht))
  {
    MaskOffBands(t);
  }

  lemma MaskOffBands(t: real)
    requires forall k :: 0 <= k < |BandCenters| ==> Abs(t - BandCenters[k]) >= BandWidth * 0.5
    ensures StripeMask(t) == 1.0
  {
    var d := Nearest(t, |BandCenters|);
    NearestIsMin(t, |BandCenters|);
    assert d >= BandWidth * 0.5;
    assert Min(1.0, d / (BandWidth * 0.5)) == 1.0;
  }

  // ---------------------------------------------------------------- the vertices

  /** 1 − 0.1·(0.5 − 0.5·sin ang): a slight shadow on one side of every ring. */
  function Shade(m: Math, ang: real): real
  {
    1.0 - ShadowTint * (0.5 - 0.5 * m.sin(ang))
  }

  function Angle(radial: Pos, j: nat): real
  {
    (j as real / radial as real) * PI * 2.0
  }

  /** phi of cap ring i: (i/12)·90 degrees. */
  function CapAngle(i: nat): real
  {
    (i as real / CapStacks as real) * (PI / 2.0)
  }

  function HeadCenterX(p: Params): real
  {
    p.len / 2.0
  }

  function HeadRadius(m: Math, p: Params): real
  {
    RadiusY(m, p, 0.0)
  }

  function HeadCenter(p: Params): Vertex
  {
    Vertex(Vec3(HeadCenterX(p), 0.0, 0.0), ColorAt(0.0))
  }

  /** Vertex j of head ring i (1 ≤ i ≤ 12). */
  function HeadVertex(m: Math, p: Params, i: nat, j: nat): Vertex
  {
    var ang := Angle(p.radial, j);
    Vertex(CapPoint(m, HeadCenterX(p), HeadRadius(m, p), CapAngle(i), ang),
           Scale(Shade(m, ang), ColorAt(0.0)))
  }

  /** Position on the head cap of radius hr centred at x = cx, at ring angle phi and radial angle ang. */
  function CapPoint(m: Math, cx: real, hr: real, phi: real, ang: real): Vec3
  {
    var y0Mult, xOffset := m.sin(phi), -hr * m.cos(phi);
    var y := hr * y0Mult * m.sin(ang);
    var z := hr * 0.78 * y0Mult * m.cos(ang);
    Vec3(cx + xOffset, y, z)
  }

  function Fraction(stacks: Pos, i: nat): (t: real)
    ensures i == 0 ==> t == 0.0
    ensures i == stacks ==> t == 1.0
  {
    WholeFraction(stacks);
    i as real / stacks as real
  }

  /** u: 0 up to bendStartT, then rising linearly to 1 at the tail. */
  function BendProgress(t: real): (u: real)
    ensures t <= BendStartT ==> u == 0.0
    ensures t == 1.0 ==> u == 1.0
  {
    if t <= BendStartT then 0.0 else (t - BendStartT) / (1.0 - BendStartT)
  }

  /** theta = arc·smooth(u): no bend in front of bendStartT, the whole arc at the tail. */
  function Theta(t: real): (theta: real)
    ensures t <= BendStartT ==> theta == 0.0
    ensures t == 1.0 ==> theta == Arc
  {
    Arc * Smooth(BendProgress(t))
  }

  /** The rotation of (x, y) about (pivot, 0) by the angle whose cosine is c and sine is s. */
  function BendAbout(pivot: real, x: real, y: real, z: real, c: real, s: real): Vec3
  {
    var dx := x - pivot;
    Vec3(pivot + dx * c - y * s, dx * s + y * c, z)
  }

  /** The body ring's point before the bend: x = len/2 − len·t on the skewed ellipse. */
  function BodyPoint(m: Math, p: Params, i: nat, j: nat): Vec3
  {
    var t := Fraction(p.stacks, i);
    var ry, rz := RadiusY(m, p, t), RadiusZ(m, p, t) * Skew(m, t);
    var ang := Angle(p.radial, j);
    Vec3(p.len / 2.0 - p.len * t, ry * m.sin(ang), rz * m.cos(ang))
  }

  /** Vertex j of body ring i (0 ≤ i ≤ stacks). */
  function BodyVertex(m: Math, p: Params, i: nat, j: nat): Vertex
  {
    var t := Fraction(p.stacks, i);
    var q, theta := BodyPoint(m, p, i, j), Theta(t);
    Vertex(BendAbout(PivotX(p), q.x, q.y, q.z, m.cos(theta), m.sin(theta)),
           Scale(Shade(m, Angle(p.radial, j)), ColorAt(t)))
  }

  function TailRadius(m: Math, p: Params): real
  {
    RadiusY(m, p, 1.0)
  }

  function TailX(p: Params): real
  {
    p.len / 2.0 - p.len * 1.0
  }

  /** The tail cap's angle, arc·smooth((1 − bendStartT)/(1 − bendStartT)). */
  function TailTheta(): real
  {
    Arc * Smooth((1.0 - BendStartT) / (1.0 - BendStartT))
  }

  /** The tail-cap point of ring i before the bend. */
  function TailPoint(m: Math, p: Params, i: nat, j: nat): Vec3
  {
    var tr, phi, ang := TailRadius(m, p), CapAngle(i), Angle(p.radial, j);
    var y0Mult, xOffset := m.sin(phi), tr * m.cos(phi);
    Vec3(TailX(p) - xOffset, tr * y0Mult * m.sin(ang), tr * 0.78 * y0Mult * m.cos(ang))
  }

  /** Vertex j of tail ring i (1 ≤ i ≤ 12), bent by the tail's angle. */
  function TailVertex(m: Math, p: Params, i: nat, j: nat): Vertex
  {
    var q, th := TailPoint(m, p, i, j), TailTheta();
    Vertex(BendAbout(PivotX(p), q.x, q.y, q.z, m.cos(th), m.sin(th)),
           Scale(Shade(m, Angle(p.radial, j)), ColorAt(1.0)))
  }

  /** The tail centre: the bent tip (tailX − tailRadius, 0, 0), unshaded. */
  function TailCenter(m: Math, p: Params): Vertex
  {
    var th := TailTheta();
    var dxTip := TailX(p) - TailRadius(m, p) - PivotX(p);
    Vertex(Vec3(PivotX(p) + dxTip * m.cos(th), dxTip * m.sin(th), 0.0), ColorAt(1.0))
  }

  function HeadRings(m: Math, p: Params): seq<Vertex>
  {
    Grid(CapStacks, p.radial + 1, (i: nat, j: nat) => HeadVertex(m, p, i + 1, j))
  }

  function BodyRings(m: Math, p: Params): seq<Vertex>
  {
    Grid(p.stacks + 1, p.radial + 1, (i: nat, j: nat) => BodyVertex(m, p, i, j))
  }

  function TailRings(m: Math, p: Params): seq<Vertex>
  {
    Grid(CapStacks, p.radial + 1, (i: nat, j: nat) => TailVertex(m, p, i + 1, j))
  }

  function BadanVertices(m: Math, p: Params): seq<Vertex>
  {
    [HeadCenter(p)] + HeadRings(m, p) + BodyRings(m, p) + TailRings(m, p) + [TailCenter(m, p)]
  }

  // ---------------------------------------------------------------- the faces

  function RingSize(p: Params): nat
  {
    p.radial + 1
  }

  function BodyStart(p: Params): nat
  {
    1 + CapStacks * RingSize(p)
  }

  function TailCapStart(p: Params): nat
  {
    BodyStart(p) + (p.stacks + 1) * RingSize(p)
  }

  function TailCenterIndex(p: Params): nat
  {
    TailCapStart(p) + CapStacks * RingSize(p)
  }

  function LastHeadRing(p: Params): nat
  {
    1 + (CapStacks - 1) * RingSize(p)
  }

  function LastBodyRing(p: Params): nat
  {
    BodyStart(p) + p.stacks * RingSize(p)
  }

  function LastTailRing(p: Params): nat
  {
    TailCapStart(p) + (CapStacks - 1) * RingSize(p)
  }

  /**
   * The seven face loops: the head fan (0, 1+j, 2+j), the head-cap quads, the quads joining
   * head and body, the body quads, those joining body and tail, the tail-cap quads, and the
   * tail fan (tailCenter, lastTailRing+j+1, lastTailRing+j).
   */
  function BadanFaces(p: Params): seq<nat>
  {
    Fan(0, 1, p.radial, false)
      + GridFaces(Diagonal, CapStacks - 1, p.radial, 1)
      + RowFaces(Diagonal, LastHeadRing(p), p.radial, RingSize(p))
      + GridFaces(Diagonal, p.stacks, p.radial, BodyStart(p))
      + RowFaces(Diagonal, LastBodyRing(p), p.radial, RingSize(p))
      + GridFaces(Diagonal, CapStacks - 1, p.radial, TailCapStart(p))
      + Fan(TailCenterIndex(p), LastTailRing(p), p.radial, true)
  }

  function Badan(m: Math, p: Params): Geometry
  {
    Geometry(BadanVertices(m, p), BadanFaces(p))
  }

  // ---------------------------------------------------------------- the generator

  /** generateBadanVibrava(len, rFront, rBack, stacks, radial). */
  method GenerateBadanVibrava(m: Math, lenArg: Option<real>, rFrontArg: Option<real>, rBackArg: Option<real>,
                              stacksArg: Option<Pos>, radialArg: Option<Pos>) returns (g: Geometry)
    ensures g == Badan(m, Resolve(lenArg, rFrontArg, rBackArg, stacksArg, radialArg))
  {
    var p := Resolve(lenArg, rFrontArg, rBackArg, stacksArg, radialArg);
    var vs, bodyStart, tailCapStart, tailCenterIdx := BuildBadanVertices(m, p);
    var fs := BuildBadanFaces(p, bodyStart, tailCapStart, tailCenterIdx);
    g := Geometry(vs, fs);
  }

  /** The vertex loops: head centre, head cap, body, tail cap, tail centre. */
  method BuildBadanVertices(m: Math, p: Params)
    returns (vs: seq<Vertex>, bodyStart: nat, tailCapStart: nat, tailCenterIdx: nat)
    ensures vs == BadanVertices(m, p)
    ensures bodyStart == BodyStart(p) && tailCapStart == TailCapStart(p) && tailCenterIdx == TailCenterIndex(p)
  {
    vs := [HeadCenter(p)];
    vs := PushHeadCap(m, p, vs);
    bodyStart := |vs|;
    vs := PushBody(m, p, vs);
    tailCapStart := |vs|;
    vs := PushTailCap(m, p, vs);
    vs := vs + [TailCenter(m, p)];
    tailCenterIdx := |vs| - 1;
  }

  /** for i in 1..12, for j in 0..radial: the head-cap rings. */
  method PushHeadCap(m: Math, p: Params, vs: seq<Vertex>) returns (out: seq<Vertex>)
    ensures out == vs + HeadRings(m, p)
  {
    out := AppendGrid(vs, CapStacks, p.radial + 1, (i: nat, j: nat) => HeadVertex(m, p, i + 1, j));
  }

  /** for i in 0..stacks, for j in 0..radial: the body rings. */
  method PushBody(m: Math, p: Params, vs: seq<Vertex>) returns (out: seq<Vertex>)
    ensures out == vs + BodyRings(m, p)
  {
    out := AppendGrid(vs, p.stacks + 1, p.radial + 1, (i: nat, j: nat) => BodyVertex(m, p, i, j));
  }

  /** for i in 1..12, for j in 0..radial: the tail-cap rings. */
  method PushTailCap(m: Math, p: Params, vs: seq<Vertex>) returns (out: seq<Vertex>)
    ensures out == vs + TailRings(m, p)
  {
    out := AppendGrid(vs, CapStacks, p.radial + 1, (i: nat, j: nat) => TailVertex(m, p, i + 1, j));
  }

  /** The face loops, over the indices the vertex loops left behind. */
  method BuildBadanFaces(p: Params, bodyStart: nat, tailCapStart: nat, tailCenterIdx: nat) returns (fs: seq<nat>)
    requires bodyStart == BodyStart(p) && tailCapStart == TailCapStart(p) && tailCenterIdx == TailCenterIndex(p)
    ensures fs == BadanFaces(p)
  {
    var ring := RingSize(p);
    fs := AppendFan([], 0, 1, p.radial, false);
    assert fs == Fan(0, 1, p.radial, false);
    fs := AppendGridFaces(fs, Diagonal, CapStacks - 1, p.radial, 1);
    var lastHeadRing := LastHeadRing(p);
    fs := AppendRowFaces(fs, Diagonal, lastHeadRing, p.radial, ring);
    fs := AppendGridFaces(fs, Diagonal, p.stacks, p.radial, bodyStart);
    var lastBodyRing := LastBodyRing(p);
    fs := AppendRowFaces(fs, Diagonal, lastBodyRing, p.radial, ring);
    fs := AppendGridFaces(fs, Diagonal, CapStacks - 1, p.radial, tailCapStart);
    var lastTailRing := LastTailRing(p);
    fs := AppendFan(fs, tailCenterIdx, lastTailRing, p.radial, true);
  }

  // ---------------------------------------------------------------- layout and faces

  /**
   * The five quad loops join into one unbroken strip of stacks + 24 rows from the first
   * head ring to the last tail ring, between the two fans.
   */
  lemma BadanFacesStrip(p: Params)
    ensures BadanFaces(p)
         == Fan(0, 1, p.radial, false) + GridFaces(Diagonal, p.stacks + 2 * CapStacks, p.radial, 1)
          + Fan(TailCenterIndex(p), LastTailRing(p), p.radial, true)
  {
    var r, ring := p.radial, RingSize(p);
    var headQuads, headJoin := GridFaces(Diagonal, CapStacks - 1, r, 1), RowFaces(Diagonal, LastHeadRing(p), r, ring);
    var body, tailJoin := GridFaces(Diagonal, p.stacks, r, BodyStart(p)), RowFaces(Diagonal, LastBodyRing(p), r, ring);
    var tailQuads := GridFaces(Diagonal, CapStacks - 1, r, TailCapStart(p));
    MulSucc(p.stacks, ring);
    assert TailCapStart(p) == LastBodyRing(p) + ring;
    StripSplit(r, CapStacks - 1, p.stacks, LastHeadRing(p), BodyStart(p), LastBodyRing(p), TailCapStart(p));
    var strip := GridFaces(Diagonal, p.stacks + 2 * CapStacks, r, 1);
    assert strip == headQuads + (headJoin + (body + (tailJoin + tailQuads)));
    var head, tail := Fan(0, 1, r, false), Fan(TailCenterIndex(p), LastTailRing(p), r, true);
    Assoc5(head, headQuads, headJoin, body, tailJoin, tailQuads, tail);
  }

  /** Regrouping a concatenation of seven pieces. */
  lemma Assoc5(head: seq<nat>, a: seq<nat>, b: seq<nat>, c: seq<nat>, d: seq<nat>, e: seq<nat>, tail: seq<nat>)
    ensures head + a + b + c + d + e + tail == head + (a + (b + (c + (d + e)))) + tail
  {
  }

  /**
   * A strip of caps + 1 + stacks + 1 + caps rows from vertex 1 is the caps rows, the joining
   * row, the stacks rows, the second joining row and the last caps rows.
   */
  lemma StripSplit(r: nat, caps: nat, stacks: nat, lastHead: nat, bodyStart: nat, lastBody: nat, tailStart: nat)
    requires lastHead == 1 + caps * (r + 1) && bodyStart == lastHead + (r + 1)
    requires lastBody == bodyStart + stacks * (r + 1) && tailStart == lastBody + (r + 1)
    ensures GridFaces(Diagonal, caps + 1 + stacks + 1 + caps, r, 1)
         == GridFaces(Diagonal, caps, r, 1)
          + (RowFaces(Diagonal, lastHead, r, r + 1)
             + (GridFaces(Diagonal, stacks, r, bodyStart)
                + (RowFaces(Diagonal, lastBody, r, r + 1) + GridFaces(Diagonal, caps, r, tailStart))))
  {
    var n := caps + 1 + stacks + 1 + caps;
    GridFacesSplit(Diagonal, caps, n, r, 1, n - caps, lastHead);
    OneRow(r, lastHead);
    GridFacesSplit(Diagonal, 1, n - caps, r, lastHead, n - caps - 1, bodyStart);
    GridFacesSplit(Diagonal, stacks, n - caps - 1, r, bodyStart, caps + 1, lastBody);
    OneRow(r, lastBody);
    GridFacesSplit(Diagonal, 1, caps + 1, r, lastBody, caps, tailStart);
  }

  /** A grid of one row is that row's quads. */
  lemma OneRow(r: nat, start: nat)
    ensures GridFaces(Diagonal, 1, r, start) == RowFaces(Diagonal, start, r, r + 1)
  {
    assert GridFaces(Diagonal, 1, r, start) == RowFaces(Diagonal, start, r, r + 1) + [];
  }

  /**
   * 2 + (stacks+25)(radial+1) vertices, the tail centre last; 6·radial·(stacks+25) indices,
   * every one naming a vertex.
   */
  lemma BadanShape(m: Math, p: Params)
    ensures var g := Badan(m, p);
            && |g.vertices| == 2 + (p.stacks + 25) * (p.radial + 1)
            && TailCenterIndex(p) == |g.vertices| - 1
            && |g.faces| == 6 * (p.radial * (p.stacks + 25))
            && InRange(g.faces, |g.vertices|)
  {
    BadanVertexCount(m, p);
    BadanFaceCount(p);
    BadanFacesInRange(p);
  }

  /** The head centre, 12 + stacks + 1 + 12 rings and the tail centre. */
  lemma BadanVertexCount(m: Math, p: Params)
    ensures |BadanVertices(m, p)| == TailCenterIndex(p) + 1
    ensures |BadanVertices(m, p)| == 2 + (p.stacks + 25) * (p.radial + 1)
  {
    var ring := RingSize(p);
    assert |BadanVertices(m, p)| == 1 + CapStacks * ring + (p.stacks + 1) * ring + CapStacks * ring + 1;
    MulSucc(p.stacks, ring);
    assert (p.stacks + 25) * ring == p.stacks * ring + 25 * ring;
  }

  lemma BadanFaceCount(p: Params)
    ensures |BadanFaces(p)| == 6 * (p.radial * (p.stacks + 25))
  {
    var r, n := p.radial, p.stacks + 2 * CapStacks;
    BadanFacesStrip(p);
    GridFacesLength(Diagonal, n, r, 1);
    assert |BadanFaces(p)| == 3 * r + 6 * (n * r) + 3 * r;
    assert n * r + r == (p.stacks + 25) * r;
  }

  /** The strip's rings run from vertex 1 up to the tail centre. */
  lemma StripEnd(p: Params)
    ensures 1 + (p.stacks + 2 * CapStacks + 1) * RingSize(p) == TailCenterIndex(p)
  {
    var ring := RingSize(p);
    calc {
      (p.stacks + 2 * CapStacks + 1) * ring;
      (p.stacks + 1) * ring + 24 * ring;
      (p.stacks + 1) * ring + CapStacks * ring + CapStacks * ring;
    }
  }

  /** The two fans and the strip between them reach only the vertices up to the tail centre. */
  lemma BadanFacesInRange(p: Params)
    ensures InRange(BadanFaces(p), TailCenterIndex(p) + 1)
  {
    var r, ring, n := p.radial, RingSize(p), p.stacks + 2 * CapStacks;
    BadanFacesStrip(p);
    var head, grid, tail := Fan(0, 1, r, false), GridFaces(Diagonal, n, r, 1), Fan(TailCenterIndex(p), LastTailRing(p), r, true);
    var total := TailCenterIndex(p) + 1;
    StripEnd(p);
    GridFacesWithin(Diagonal, n, r, 1);
    WithinWiden(grid, 1, 1 + (n + 1) * ring, 0, total);
    FanWithin(0, 1, r, false, 0, total);
    FanWithin(TailCenterIndex(p), LastTailRing(p), r, true, 0, total);
    WithinConcat(head, grid, 0, total);
    WithinConcat(head + grid, tail, 0, total);
  }

  /** Index 0 is the head centre and the tail centre comes last. */
  lemma BadanEnds(m: Math, p: Params)
    ensures var vs := Badan(m, p).vertices;
            && |vs| == TailCenterIndex(p) + 1
            && vs[0] == HeadCenter(p) && vs[TailCenterIndex(p)] == TailCenter(m, p)
  {
    BadanVertexCount(m, p);
    var vs := BadanVertices(m, p);
    var front := [HeadCenter(p)] + HeadRings(m, p) + BodyRings(m, p) + TailRings(m, p);
    assert vs == front + [TailCenter(m, p)];
    ConcatRightAt(front, [TailCenter(m, p)], TailCenterIndex(p), 0);
  }

  /** Vertex j of body ring i sits at k = bodyStart + i·(radial+1) + j, before the tail cap. */
  lemma BadanLayout(m: Math, p: Params, i: nat, j: nat, k: nat)
    requires i <= p.stacks && j <= p.radial && k == BodyStart(p) + i * RingSize(p) + j
    ensures k < TailCapStart(p)
    ensures k < |Badan(m, p).vertices| && Badan(m, p).vertices[k] == BodyVertex(m, p, i, j)
  {
    var w := RingSize(p);
    GridAt(p.stacks + 1, w, (i: nat, j: nat) => BodyVertex(m, p, i, j), i, j);
    BodyRingsAt(m, p, i * w + j);
  }

  /** Element q of the body rings is element bodyStart + q of the whole vertex buffer. */
  lemma BodyRingsAt(m: Math, p: Params, q: nat)
    requires q < (p.stacks + 1) * RingSize(p)
    ensures BodyStart(p) + q < TailCapStart(p)
    ensures BodyStart(p) + q < |Badan(m, p).vertices| && Badan(m, p).vertices[BodyStart(p) + q] == BodyRings(m, p)[q]
  {
    var head, body, tail := HeadRings(m, p), BodyRings(m, p), TailRings(m, p);
    MiddleAt([HeadCenter(p)], head, body, tail, [TailCenter(m, p)], q, BodyStart(p) + q);
  }

  /** An element of the third of five concatenated pieces. */
  lemma MiddleAt<T>(a: seq<T>, b: seq<T>, c: seq<T>, d: seq<T>, e: seq<T>, q: nat, k: nat)
    requires q < |c| && k == |a| + |b| + q
    ensures k < |a + b + c| && |a + b + c + d + e| == |a + b + c| + |d| + |e|
    ensures (a + b + c + d + e)[k] == c[q]
  {
    assert (a + b + c)[k] == c[q];
    assert (a + b + c + d + e) == (a + b + c) + (d + e);
  }

  // ---------------------------------------------------------------- the bend

  /** Given cos² + sin² = 1, the bend keeps the xy distance from (pivot, 0), and z. */
  lemma BendKeepsPivotDistance(m: Math, pivot: real, x: real, y: real, z: real, theta: real)
    requires TrigLaws(m)
    ensures var q := BendAbout(pivot, x, y, z, m.cos(theta), m.sin(theta));
            && (q.x - pivot) * (q.x - pivot) + q.y * q.y == (x - pivot) * (x - pivot) + y * y
            && q.z == z
  {
    var c, s := m.cos(theta), m.sin(theta);
    assert s * s + c * c == 1.0;
    RotationIsometry(x - pivot, y, c, s);
  }

  lemma RotationIsometry(dx: real, y: real, c: real, s: real)
    requires s * s + c * c == 1.0
    ensures (dx * c - y * s) * (dx * c - y * s) + (dx * s + y * c) * (dx * s + y * c) == dx * dx + y * y
  {
    calc {
      (dx * c - y * s) * (dx * c - y * s) + (dx * s + y * c) * (dx * s + y * c);
      (dx * dx + y * y) * (s * s + c * c);
    }
  }

  /** The front of the body, t ≤ bendStartT, is not bent: a body vertex there is its unbent point. */
  lemma FrontUnbent(m: Math, p: Params, i: nat, j: nat)
    requires TrigLaws(m) && Fraction(p.stacks, i) <= BendStartT
    ensures BodyVertex(m, p, i, j).pos == BodyPoint(m, p, i, j)
  {
    assert Theta(Fraction(p.stacks, i)) == 0.0;
  }

  /** Every body vertex is its unbent point rotated about (pivotX, 0) by theta(t). */
  lemma BodyBendIsRotation(m: Math, p: Params, i: nat, j: nat)
    requires TrigLaws(m)
    ensures var q, v := BodyPoint(m, p, i, j), BodyVertex(m, p, i, j).pos;
            var pivot := PivotX(p);
            && (v.x - pivot) * (v.x - pivot) + v.y * v.y == (q.x - pivot) * (q.x - pivot) + q.y * q.y
            && v.z == q.z
  {
    var q := BodyPoint(m, p, i, j);
    BendKeepsPivotDistance(m, PivotX(p), q.x, q.y, q.z, Theta(Fraction(p.stacks, i)));
  }

  /** The tail cap is bent by the whole arc, as the last body ring is. */
  lemma TailThetaIsArc()
    ensures TailTheta() == Arc && Theta(1.0) == Arc
  {
    assert (1.0 - BendStartT) / (1.0 - BendStartT) == 1.0;
  }

  // ---------------------------------------------------------------- caps and colours

  /**
   * Head ring vertices lie on the ellipsoid around the head centre with semi-axes
   * (headRadius, headRadius, 0.78·headRadius), when the radius is nonzero.
   */
  lemma HeadCapOnEllipsoid(m: Math, p: Params, i: nat, j: nat)
    requires TrigLaws(m) && HeadRadius(m, p) != 0.0
    ensures var hr := HeadRadius(m, p);
            VibravaMata.OnEllipsoid(Sub(HeadVertex(m, p, i, j).pos, Vec3(HeadCenterX(p), 0.0, 0.0)),
                                    Vec3(hr, hr, hr * 0.78))
  {
    CapPointOnEllipsoid(m, HeadCenterX(p), HeadRadius(m, p), CapAngle(i), Angle(p.radial, j));
  }

  lemma CapPointOnEllipsoid(m: Math, cx: real, hr: real, phi: real, ang: real)
    requires TrigLaws(m) && hr != 0.0
    ensures VibravaMata.OnEllipsoid(Sub(CapPoint(m, cx, hr, phi, ang), Vec3(cx, 0.0, 0.0)),
                                    Vec3(hr, hr, hr * 0.78))
  {
    var cosP, sinP, cosA, sinA := m.cos(phi), m.sin(phi), m.cos(ang), m.sin(ang);
    assert sinP * sinP + cosP * cosP == 1.0 && sinA * sinA + cosA * cosA == 1.0;
    CapRatios(Sub(CapPoint(m, cx, hr, phi, ang), Vec3(cx, 0.0, 0.0)), hr, cosP, sinP, cosA, sinA);
  }

  lemma CapRatios(d: Vec3, r: real, cosP: real, sinP: real, cosA: real, sinA: real)
    requires r != 0.0
    requires d == Vec3(-r * cosP, r * sinP * sinA, r * 0.78 * sinP * cosA)
    requires sinP * sinP + cosP * cosP == 1.0 && sinA * sinA + cosA * cosA == 1.0
    ensures VibravaMata.OnEllipsoid(d, Vec3(r, r, r * 0.78))
  {
    assert d.x / r == -cosP;
    Unscale(r, sinP, sinA);
    assert (r * 0.78 * sinP * cosA) == (r * 0.78) * sinP * cosA;
    Unscale(r * 0.78, sinP, cosA);
    calc {
      (-cosP) * (-cosP) + (sinP * sinA) * (sinP * sinA) + (sinP * cosA) * (sinP * cosA);
      cosP * cosP + (sinP * sinP) * (sinA * sinA + cosA * cosA);
      1.0;
    }
  }

  /** The shade lies in [0.9, 1]. */
  lemma ShadeRange(m: Math, ang: real)
    requires TrigLaws(m)
    ensures 0.9 <= Shade(m, ang) <= 1.0
  {
    TrigBounded(m, ang);
  }

  /** A channel at most 1, scaled by a shade in (0, 1], stays at most 1. */
  lemma ShadedAtMostOne(c: Vec3, shade: real)
    requires c.x <= 1.0 && c.y <= 1.0 && c.z <= 1.0 && 0.0 < shade <= 1.0
    ensures var s := Scale(shade, c); s.x <= 1.0 && s.y <= 1.0 && s.z <= 1.0
  {
    ChannelAtMostOne(c.x, shade);
    ChannelAtMostOne(c.y, shade);
    ChannelAtMostOne(c.z, shade);
  }

  lemma ChannelAtMostOne(x: real, shade: real)
    requires x <= 1.0 && 0.0 < shade <= 1.0
    ensures shade * x <= 1.0
  {
    if x >= 0.0 {
      assert shade * x <= 1.0 * x;
    } else {
      assert shade * x < 0.0;
    }
  }

  /** No channel of the vertex colour exceeds 1. */
  predicate ColorAtMostOne(v: Vertex)
  {
    v.color.x <= 1.0 && v.color.y <= 1.0 && v.color.z <= 1.0
  }

  /** Every vertex colour channel is at most 1. */
  lemma BadanColorsAtMostOne(m: Math, p: Params)
    requires TrigLaws(m)
    ensures forall v :: v in Badan(m, p).vertices ==> ColorAtMostOne(v)
  {
    HeadRingsAtMostOne(m, p);
    BodyRingsAtMostOne(m, p);
    TailRingsAtMostOne(m, p);
    AllHold(HeadRings(m, p), BodyRings(m, p), TailRings(m, p), HeadCenter(p), TailCenter(m, p), ColorAtMostOne);
  }

  /** A colour at most 1 per channel, shaded by the ring's shade, stays at most 1. */
  lemma ShadedColorAtMostOne(m: Math, pos: Vec3, c: Vec3, ang: real)
    requires TrigLaws(m) && c.x <= 1.0 && c.y <= 1.0 && c.z <= 1.0
    ensures ColorAtMostOne(Vertex(pos, Scale(Shade(m, ang), c)))
  {
    ShadeRange(m, ang);
    ShadedAtMostOne(c, Shade(m, ang));
  }

  lemma HeadRingsAtMostOne(m: Math, p: Params)
    requires TrigLaws(m)
    ensures forall k :: 0 <= k < |HeadRings(m, p)| ==> ColorAtMostOne(HeadRings(m, p)[k])
  {
    var f := (i: nat, j: nat) => HeadVertex(m, p, i + 1, j);
    forall i: nat, j: nat | i < CapStacks && j < p.radial + 1
      ensures ColorAtMostOne(f(i, j))
    {
      ShadedColorAtMostOne(m, f(i, j).pos, ColorAt(0.0), Angle(p.radial, j));
    }
    GridAll(CapStacks, p.radial + 1, f, ColorAtMostOne);
  }

  lemma BodyRingsAtMostOne(m: Math, p: Params)
    requires TrigLaws(m)
    ensures forall k :: 0 <= k < |BodyRings(m, p)| ==> ColorAtMostOne(BodyRings(m, p)[k])
  {
    var f := (i: nat, j: nat) => BodyVertex(m, p, i, j);
    forall i: nat, j: nat | i < p.stacks + 1 && j < p.radial + 1
      ensures ColorAtMostOne(f(i, j))
    {
      ShadedColorAtMostOne(m, f(i, j).pos, ColorAt(Fraction(p.stacks, i)), Angle(p.radial, j));
    }
    GridAll(p.stacks + 1, p.radial + 1, f, ColorAtMostOne);
  }

  lemma TailRingsAtMostOne(m: Math, p: Params)
    requires TrigLaws(m)
    ensures forall k :: 0 <= k < |TailRings(m, p)| ==> ColorAtMostOne(TailRings(m, p)[k])
  {
    var f := (i: nat, j: nat) => TailVertex(m, p, i + 1, j);
    forall i: nat, j: nat | i < CapStacks && j < p.radial + 1
      ensures ColorAtMostOne(f(i, j))
    {
      ShadedColorAtMostOne(m, f(i, j).pos, ColorAt(1.0), Angle(p.radial, j));
    }
    GridAll(CapStacks, p.radial + 1, f, ColorAtMostOne);
  }

  lemma AllHold(head: seq<Vertex>, body: seq<Vertex>, tail: seq<Vertex>, first: Vertex, last: Vertex,
                P: Vertex -> bool)
    requires P(first) && P(last)
    requires forall k :: 0 <= k < |head| ==> P(head[k])
    requires forall k :: 0 <= k < |body| ==> P(body[k])
    requires forall k :: 0 <= k < |tail| ==> P(tail[k])
    ensures forall v :: v in [first] + head + body + tail + [last] ==> P(v)
  {
  }
}
