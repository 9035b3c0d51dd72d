/**
 * generateFlygonTailFins of Flygon/BodyParts/Tail/FlygonTailFins.js: three diamond fins,
 * each a green inner diamond (centre and four tips) with a red border strip out to a larger
 * diamond, turned by an angle and shifted in the xy plane. addSingleFin appends every fin
 * to the shared buffers; the optional two-sided copy mirrors z to −z − 0.0015.
 */
module FlygonTailFins {
  import opened JsMath
  import opened Vectors
  import opened Mesh

  /** The `options` object; an absent property is None. */
  datatype FinOptions = FinOptions(
    centerColor: Option<Vec3>, midColor: Option<Vec3>, edgeColor: Option<Vec3>, twoSided: Option<bool>,
    borderWidth: Option<real>, spreadDeg: Option<real>, sideSeparation: Option<real>)

  /** The colours of one fin: col.center, col.inner and col.edge. */
  datatype FinColors = FinColors(center: Vec3, inner: Vec3, edge: Vec3)

  /** The option values after the defaults of the first lines are applied. */
  datatype Settings = Settings(colors: FinColors, twoSided: bool, borderWidth: real, spreadDeg: real, sideSeparation: real)

  const ZEps: real := 0.02
  const BackGap: real := 0.0015

  /**
   * Colours fall back with `||` (an array is always truthy, so a given colour is kept);
   * the three numbers fall back with `??`, so a given value, 0 included, is kept. twoSided is `!!`.
   */
  function Resolve(size: real, o: FinOptions): (s: Settings)
    ensures s.twoSided <==> o.twoSided == Some(true)
    ensures o.centerColor == None ==> s.colors.center == Vec3(0.6, 1.0, 0.6)
    ensures o.midColor == None ==> s.colors.inner == Vec3(0.4, 0.9, 0.4)
    ensures o.edgeColor == None ==> s.colors.edge == Vec3(0.8, 0.2, 0.2)
    ensures o.centerColor.Some? ==> s.colors.center == o.centerColor.value
    ensures o.midColor.Some? ==> s.colors.inner == o.midColor.value
    ensures o.edgeColor.Some? ==> s.colors.edge == o.edgeColor.value
    ensures o.borderWidth == None ==> s.borderWidth == 0.3
    ensures o.spreadDeg == None ==> s.spreadDeg == 25.0
    ensures o.sideSeparation == None ==> s.sideSeparation == size * 0.3
    ensures o.borderWidth.Some? ==> s.borderWidth == o.borderWidth.value
    ensures o.spreadDeg.Some? ==> s.spreadDeg == o.spreadDeg.value
    ensures o.sideSeparation.Some? ==> s.sideSeparation == o.sideSeparation.value
  {
    Settings(FinColors(Nullish(o.centerColor, Vec3(0.6, 1.0, 0.6)), Nullish(o.midColor, Vec3(0.4, 0.9, 0.4)),
                       Nullish(o.edgeColor, Vec3(0.8, 0.2, 0.2))),
             Truthy(o.twoSided), Nullish(o.borderWidth, 0.3), Nullish(o.spreadDeg, 25.0),
             Nullish(o.sideSeparation, size * 0.3))
  }

  function ToRad(d: real): real
  {
    (d * PI) / 180.0
  }

  /** rot2(x, y, a): (x, y) turned by a about the origin. */
  function Rot2(m: Math, x: real, y: real, a: real): (real, real)
  {
    var c, s := m.cos(a), m.sin(a);
    (x * c - y * s, x * s + y * c)
  }

  function HalfW(size: real, scale: real): real { size * 0.4 * scale }
  function HalfH(size: real, scale: real): real { size * 0.8 * scale }

  /** The inner diamond before turning: centre, top, right, bottom, left, all at zEps + zStack. */
  function InnerRing(size: real, borderWidth: real, zStack: real, scale: real): (r: seq<Vec3>)
    ensures |r| == 5
  {
    var innerW := HalfW(size, scale) * (1.0 - borderWidth);
    var innerH := HalfH(size, scale) * (1.0 - borderWidth);
    var z := ZEps + zStack;
    [Vec3(0.0, 0.0, z), Vec3(0.0, innerH, z), Vec3(innerW, 0.0, z), Vec3(0.0, -innerH, z), Vec3(-innerW, 0.0, z)]
  }

  /** The outer diamond before turning: top, right, bottom, left, all at −zEps + zStack. */
  function OuterRing(size: real, zStack: real, scale: real): (r: seq<Vec3>)
    ensures |r| == 4
  {
    var halfW, halfH := HalfW(size, scale), HalfH(size, scale);
    var z := -ZEps + zStack;
    [Vec3(0.0, halfH, z), Vec3(halfW, 0.0, z), Vec3(0.0, -halfH, z), Vec3(-halfW, 0.0, z)]
  }

  /** One ring point turned by the fin's angle and moved by the turned shift; z is left alone. */
  function Place(m: Math, p: Vec3, angle: real, shiftX: real, shiftY: real): Vec3
  {
    var (sx, sy) := Rot2(m, shiftX, shiftY, angle);
    var (xr, yr) := Rot2(m, p.x, p.y, angle);
    Vec3(xr + sx, yr + sy, p.z)
  }

  /** The arguments of one addSingleFin call. */
  datatype Fin = Fin(angle: real, shiftX: real, shiftY: real, zStack: real, scale: real)

  /** The 14 vertices one fin appends: green inner ring, red copy of it, red outer ring. */
  function FinVertices(m: Math, size: real, st: Settings, f: Fin): (vs: seq<Vertex>)
    ensures |vs| == 14
  {
    var inner := InnerRing(size, st.borderWidth, f.zStack, f.scale);
    var outer := OuterRing(size, f.zStack, f.scale);
    var green := seq(5, k requires 0 <= k < 5 =>
      Vertex(Place(m, inner[k], f.angle, f.shiftX, f.shiftY), if k == 0 then st.colors.center else st.colors.inner));
    var red := seq(5, k requires 0 <= k < 5 => Vertex(Place(m, inner[k], f.angle, f.shiftX, f.shiftY), st.colors.edge));
    var rim := seq(4, k requires 0 <= k < 4 => Vertex(Place(m, outer[k], f.angle, f.shiftX, f.shiftY), st.colors.edge));
    green + red + rim
  }

  /** The 36 indices of a fin whose first vertex is `g`: four green triangles and four red quads. */
  function FinFaces(g: nat): (fs: seq<nat>)
    ensures |fs| == 36
  {
    var r, o := g + 5, g + 10;
    [g, g + 1, g + 2, g, g + 2, g + 3, g, g + 3, g + 4, g, g + 4, g + 1,
     r + 1, o, o + 1, r + 1, o + 1, r + 2,
     r + 2, o + 1, o + 2, r + 2, o + 2, r + 3,
     r + 3, o + 2, o + 3, r + 3, o + 3, r + 4,
     r + 4, o + 3, o, r + 4, o, r + 1]
  }

  /** A fin's faces use only its own 14 vertices. */
  lemma FinFacesWithin(g: nat)
    ensures Within(FinFaces(g), g, g + 14)
  {
  }

  /** addSingleFin: appends the fin's vertices by its three forEach loops, then its faces. */
  method AddSingleFin(m: Math, vs: seq<Vertex>, fs: seq<nat>, size: real, st: Settings, f: Fin)
    returns (vs': seq<Vertex>, fs': seq<nat>)
    ensures vs' == vs + FinVertices(m, size, st, f)
    ensures fs' == fs + FinFaces(|vs|)
  {
    var inner := InnerRing(size, st.borderWidth, f.zStack, f.scale);
    var outer := OuterRing(size, f.zStack, f.scale);
    ghost var all := FinVertices(m, size, st, f);
    var baseInnerGreen := |vs|;
    vs' := vs;
    for i := 0 to 5
      invariant vs' == vs + all[..i]
    {
      var color := if i == 0 then st.colors.center else st.colors.inner;
      vs' := vs' + [Vertex(Place(m, inner[i], f.angle, f.shiftX, f.shiftY), color)];
      assert all[..i + 1] == all[..i] + [all[i]];
    }
    for i := 0 to 5
      invariant vs' == vs + all[..5 + i]
    {
      vs' := vs' + [Vertex(Place(m, inner[i], f.angle, f.shiftX, f.shiftY), st.colors.edge)];
      assert all[..5 + i + 1] == all[..5 + i] + [all[5 + i]];
    }
    for i := 0 to 4
      invariant vs' == vs + all[..10 + i]
    {
      vs' := vs' + [Vertex(Place(m, outer[i], f.angle, f.shiftX, f.shiftY), st.colors.edge)];
      assert all[..10 + i + 1] == all[..10 + i] + [all[10 + i]];
    }
    assert all[..14] == all;
    fs' := fs + FinFaces(baseInnerGreen);
  }

  /** The three addSingleFin calls: centre fin, then the right and left fins spread apart. */
  function Fins(st: Settings): seq<Fin>
  {
    [Fin(0.0, 0.0, 0.0, 0.0, 1.0),
     Fin(ToRad(st.spreadDeg), st.sideSeparation, 0.0, 0.0 + 0.01, 0.85),
     Fin(-ToRad(st.spreadDeg), -st.sideSeparation, 0.0, 0.0 + 0.02, 0.85)]
  }

  /** The one-sided buffers after fins 0..k-1. */
  function FinsUpTo(m: Math, size: real, st: Settings, k: nat): (g: Geometry)
    requires k <= 3
    ensures |g.vertices| == 14 * k && |g.faces| == 36 * k
    ensures InRange(g.faces, 14 * k)
  {
    if k == 0 then Geometry([], [])
    else
      var prev := FinsUpTo(m, size, st, k - 1);
      FinFacesWithin(14 * (k - 1));
      InRangeWiden(prev.faces, 14 * (k - 1), 14 * k);
      InRangeJoin(prev.faces, FinFaces(14 * (k - 1)), 14 * (k - 1), 14 * k);
      Geometry(prev.vertices + FinVertices(m, size, st, Fins(st)[k - 1]), prev.faces + FinFaces(14 * (k - 1)))
  }

  function BackZ(z: real): real
  {
    -z - BackGap
  }

  /** The whole result of generateFlygonTailFins(size, options). */
  function TailFins(m: Math, size: real, o: FinOptions): Geometry
  {
    var st := Resolve(size, o);
    var front := FinsUpTo(m, size, st, 3);
    if st.twoSided then TwoSided(front, BackZ) else front
  }

  /** One more fin appends its 14 vertices and its 36 indices, based at 14k. */
  lemma FinsUpToNext(m: Math, size: real, st: Settings, k: nat)
    requires k < 3
    ensures FinsUpTo(m, size, st, k + 1)
         == Geometry(FinsUpTo(m, size, st, k).vertices + FinVertices(m, size, st, Fins(st)[k]),
                     FinsUpTo(m, size, st, k).faces + FinFaces(14 * k))
  {
  }

  /** generateFlygonTailFins(size = 1, options = {}); an omitted size is None. */
  method GenerateFlygonTailFins(m: Math, sizeArg: Option<real>, o: FinOptions) returns (g: Geometry)
    ensures g == TailFins(m, Nullish(sizeArg, 1.0), o)
  {
    var size := Nullish(sizeArg, 1.0);
    var st := Resolve(size, o);
    var fins := Fins(st);
    var vs: seq<Vertex>, fs: seq<nat> := [], [];
    for k := 0 to 3
      invariant Geometry(vs, fs) == FinsUpTo(m, size, st, k)
    {
      FinsUpToNext(m, size, st, k);
      vs, fs := AddSingleFin(m, vs, fs, size, st, fins[k]);
    }
    g := Geometry(vs, fs);
    if st.twoSided {
      g := MakeTwoSided(g, BackZ);
    }
  }

  /**
   * Without two-siding: 42 vertices and 108 indices, fin k's faces within its own block of
   * 14 vertices. With it: 84 and 216, the back half mirrored in z to −z − 0.0015.
   */
  lemma TailFinsShape(m: Math, size: real, o: FinOptions)
    ensures var g := TailFins(m, size, o);
            var front := FinsUpTo(m, size, Resolve(size, o), 3);
            && (!Resolve(size, o).twoSided ==> |g.vertices| == 42 && |g.faces| == 108 && InRange(g.faces, 42))
            && (Resolve(size, o).twoSided ==> |g.vertices| == 84 && |g.faces| == 216 && InRange(g.faces, 84))
            && (Resolve(size, o).twoSided ==> forall k :: 0 <= k < 42 ==>
                  g.vertices[42 + k].pos == Vec3(front.vertices[k].pos.x, front.vertices[k].pos.y, -front.vertices[k].pos.z - 0.0015)
                  && g.vertices[42 + k].color == front.vertices[k].color)
  {
    var st := Resolve(size, o);
    var front := FinsUpTo(m, size, st, 3);
    if st.twoSided {
      TwoSidedShape(front, BackZ);
    }
  }

  /** The faces of fin k are FinFaces(14k), indexing only that fin's vertices. */
  lemma FinBlocks(m: Math, size: real, st: Settings, k: nat)
    requires k < 3
    ensures FinsUpTo(m, size, st, 3).faces[36 * k..36 * k + 36] == FinFaces(14 * k)
    ensures FinsUpTo(m, size, st, 3).vertices[14 * k..14 * k + 14] == FinVertices(m, size, st, Fins(st)[k])
    ensures Within(FinsUpTo(m, size, st, 3).faces[36 * k..36 * k + 36], 14 * k, 14 * k + 14)
  {
    FinsUpToThree(m, size, st);
    ThirdAt((i: nat) => FinFaces(14 * i), 36, k);
    ThirdAt((i: nat) requires i < 3 => FinVertices(m, size, st, Fins(st)[i]), 14, k);
    FinFacesWithin(14 * k);
  }

  /** The three fins' buffers, one after another. */
  lemma FinsUpToThree(m: Math, size: real, st: Settings)
    ensures var v0, v1, v2 := FinVertices(m, size, st, Fins(st)[0]), FinVertices(m, size, st, Fins(st)[1]),
                              FinVertices(m, size, st, Fins(st)[2]);
            FinsUpTo(m, size, st, 3) == Geometry(v0 + v1 + v2, FinFaces(0) + FinFaces(14) + FinFaces(28))
  {
    var g1, g2 := FinsUpTo(m, size, st, 1), FinsUpTo(m, size, st, 2);
    assert g1.faces == FinFaces(0) && g1.vertices == FinVertices(m, size, st, Fins(st)[0]) by {
      assert [] + FinVertices(m, size, st, Fins(st)[0]) == FinVertices(m, size, st, Fins(st)[0]);
      assert [] + FinFaces(0) == FinFaces(0);
    }
  }

  /** Block k of three blocks x(0), x(1), x(2) of length n laid end to end. */
  lemma ThirdAt<T>(x: nat --> seq<T>, n: nat, k: nat)
    requires forall i: nat :: i < 3 ==> x.requires(i) && |x(i)| == n
    requires k < 3
    ensures (x(0) + x(1) + x(2))[n * k..n * k + n] == x(k)
  {
    if k == 0 {
      assert (x(0) + x(1) + x(2))[..n] == x(0);
    } else if k == 1 {
      SliceMiddle(x(0), x(1), x(2));
    } else {
      assert (x(0) + x(1) + x(2))[2 * n..] == x(2);
    }
  }

  /**
   * In every fin the inner vertices (green and their red copies) lie at zStack + 0.02 and
   * the outer ring at zStack − 0.02: turning never changes z.
   */
  lemma FinDepths(m: Math, size: real, st: Settings, f: Fin)
    ensures forall k :: 0 <= k < 10 ==> FinVertices(m, size, st, f)[k].pos.z == ZEps + f.zStack
    ensures forall k :: 10 <= k < 14 ==> FinVertices(m, size, st, f)[k].pos.z == -ZEps + f.zStack
  {
  }

  /** Vertex 0 has the centre colour, 1..4 the mid colour, and the red copy and rim the edge colour. */
  lemma FinColorsAt(m: Math, size: real, st: Settings, f: Fin)
    ensures FinVertices(m, size, st, f)[0].color == st.colors.center
    ensures forall k :: 1 <= k < 5 ==> FinVertices(m, size, st, f)[k].color == st.colors.inner
    ensures forall k :: 5 <= k < 14 ==> FinVertices(m, size, st, f)[k].color == st.colors.edge
  {
  }

  /**
   * Unturned (angle 0, given cos 0 = 1 and sin 0 = 0) and unshifted, the fin's outer diamond
   * is twice as tall as it is wide and the inner diamond is the outer one scaled by
   * (1 − borderWidth) on both axes.
   */
  lemma CentreFinDiamond(m: Math, size: real, st: Settings)
    requires TrigLaws(m)
    ensures var vs := FinVertices(m, size, st, Fins(st)[0]);
            && vs[10].pos.y == 2.0 * vs[11].pos.x
            && vs[1].pos.y == (1.0 - st.borderWidth) * vs[10].pos.y
            && vs[2].pos.x == (1.0 - st.borderWidth) * vs[11].pos.x
  {
    var f := Fins(st)[0];
    var vs := FinVertices(m, size, st, f);
    assert Rot2(m, 0.0, 0.0, 0.0) == (0.0, 0.0);
    var inner, outer := InnerRing(size, st.borderWidth, 0.0, 1.0), OuterRing(size, 0.0, 1.0);
    assert vs[1].pos == Place(m, inner[1], 0.0, 0.0, 0.0) && vs[2].pos == Place(m, inner[2], 0.0, 0.0, 0.0);
    assert vs[10].pos == Place(m, outer[0], 0.0, 0.0, 0.0) && vs[11].pos == Place(m, outer[1], 0.0, 0.0, 0.0);
    UnturnedPlace(m, inner[1]);
    UnturnedPlace(m, inner[2]);
    UnturnedPlace(m, outer[0]);
    UnturnedPlace(m, outer[1]);
  }

  lemma UnturnedPlace(m: Math, p: Vec3)
    requires TrigLaws(m)
    ensures Place(m, p, 0.0, 0.0, 0.0) == p
  {
  }
}
