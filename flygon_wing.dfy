/**
 * generateFlygonWing of Flygon/BodyParts/Body/FlygonWing.js: a flat diamond in the plane
 * z = 0. Vertex 0 is the centre, 1..4 the tips of a green inner diamond and 5..8 the tips
 * of a red outer diamond; four triangles fill the inner diamond and four quads the border.
 * The two-sided branch copies every vertex to z = −0.001 and adds one reversed back face per
 * front face. As written, that face loop re-reads the growing faces.length and never stops;
 * AsWrittenPasses models it, and Wing is the evidently intended snapshotted loop.
 */
module FlygonWing {
  import opened JsMath
  import opened Vectors
  import opened Mesh

  /** The `options` object; an absent property is None. */
  datatype WingOptions = WingOptions(
    centerColor: Option<Vec3>, midColor: Option<Vec3>, edgeColor: Option<Vec3>, twoSided: Option<bool>,
    borderWidth: Option<real>)

  /** The option values after the defaults of the first lines. */
  datatype Settings = Settings(center: Vec3, mid: Vec3, edge: Vec3, twoSided: bool, borderWidth: real)

  /** The fixed z of every back-side copy. */
  const BackDepth: real := -0.001

  /**
   * Colours and borderWidth fall back with `||`: an array is always truthy, so a given
   * colour is kept, but an explicit borderWidth of 0 is replaced by 0.2. twoSided is `!!`.
   */
  function Resolve(o: WingOptions): (s: Settings)
    ensures s.twoSided <==> o.twoSided == Some(true)
    ensures o.borderWidth == None || o.borderWidth == Some(0.0) ==> s.borderWidth == 0.2
    ensures o.borderWidth != None && o.borderWidth != Some(0.0) ==> s.borderWidth == o.borderWidth.value
    ensures o.centerColor == None ==> s.center == Vec3(0.6, 1.0, 0.6)
    ensures o.midColor == None ==> s.mid == Vec3(0.4, 0.9, 0.4)
    ensures o.edgeColor == None ==> s.edge == Vec3(0.8, 0.2, 0.2)
    ensures o.centerColor != None ==> s.center == o.centerColor.value
    ensures o.midColor != None ==> s.mid == o.midColor.value
    ensures o.edgeColor != None ==> s.edge == o.edgeColor.value
  {
    Settings(Nullish(o.centerColor, Vec3(0.6, 1.0, 0.6)), Nullish(o.midColor, Vec3(0.4, 0.9, 0.4)),
             Nullish(o.edgeColor, Vec3(0.8, 0.2, 0.2)), Truthy(o.twoSided), OrNumber(o.borderWidth, 0.2))
  }

  /** innerVerts: centre, top, right, bottom and left of the green diamond. */
  function InnerVerts(size: real, bw: real): (r: seq<Vec3>)
    ensures |r| == 5
  {
    [Vec3(0.0, 0.0, 0.0), Vec3(0.0, size * (0.5 - bw), 0.0), Vec3(size * (0.5 - bw), 0.0, 0.0),
     Vec3(0.0, -size * (2.0 - bw * 2.0), 0.0), Vec3(-size * (0.5 - bw), 0.0, 0.0)]
  }

  /** outerVerts: top, right, bottom and left of the red diamond. */
  function OuterVerts(size: real): (r: seq<Vec3>)
    ensures |r| == 4
  {
    [Vec3(0.0, size / 2.0, 0.0), Vec3(size * 0.5, 0.0, 0.0), Vec3(0.0, -size * 2.0, 0.0), Vec3(-size * 0.5, 0.0, 0.0)]
  }

  /** innerColors: the centre colour first, then the mid colour four times. */
  function InnerColor(st: Settings, i: nat): Vec3
  {
    if i == 0 then st.center else st.mid
  }

  function FrontVertices(size: real, st: Settings): (vs: seq<Vertex>)
    ensures |vs| == 9
  {
    var inner, outer := InnerVerts(size, st.borderWidth), OuterVerts(size);
    seq(5, k requires 0 <= k < 5 => Vertex(inner[k], InnerColor(st, k)))
      + seq(4, k requires 0 <= k < 4 => Vertex(outer[k], st.edge))
  }

  /** The four inner triangles, then two triangles for each of the four border quads. */
  const FrontFaces: seq<nat> :=
    [0, 1, 2, 0, 2, 3, 0, 3, 4, 0, 4, 1,
     1, 5, 6, 1, 6, 2,
     2, 6, 7, 2, 7, 3,
     3, 7, 8, 3, 8, 4,
     4, 8, 5, 4, 5, 1]

  function Front(size: real, st: Settings): Geometry
  {
    Geometry(FrontVertices(size, st), FrontFaces)
  }

  function BackZ(z: real): real
  {
    BackDepth
  }

  /** The result with the two-sided face loop bounded by the front face count. */
  function Wing(size: real, o: WingOptions): Geometry
  {
    var st := Resolve(o);
    if st.twoSided then TwoSided(Front(size, st), BackZ) else Front(size, st)
  }

  /**
   * generateFlygonWing(size = 1, options = {}), an omitted size being None, with the back
   * face loop running over the 36 front indices only.
   */
  method GenerateFlygonWing(sizeArg: Option<real>, o: WingOptions) returns (g: Geometry)
    ensures g == Wing(Nullish(sizeArg, 1.0), o)
  {
    var size := Nullish(sizeArg, 1.0);
    var st := Resolve(o);
    var vs := PushVertices(size, st);
    var fs := PushFaces();
    g := Geometry(vs, fs);
    if st.twoSided {
      g := MakeTwoSided(g, BackZ);
    }
  }

  /** The two vertex loops: the five inner vertices with innerColors, the four outer with edgeColor. */
  method PushVertices(size: real, st: Settings) returns (vs: seq<Vertex>)
    ensures vs == FrontVertices(size, st)
  {
    var inner, outer := InnerVerts(size, st.borderWidth), OuterVerts(size);
    ghost var all := FrontVertices(size, st);
    vs := [];
    for i := 0 to 5
      invariant vs == all[..i]
    {
      vs := vs + [Vertex(inner[i], InnerColor(st, i))];
      assert all[..i + 1] == all[..i] + [all[i]];
    }
    for i := 0 to 4
      invariant vs == all[..5 + i]
    {
      vs := vs + [Vertex(outer[i], st.edge)];
      assert all[..5 + i + 1] == all[..5 + i] + [all[5 + i]];
    }
    assert all[..9] == all;
  }

  /** The five faces.push calls. */
  method PushFaces() returns (fs: seq<nat>)
    ensures fs == FrontFaces
  {
    fs := [];
    fs := fs + [0, 1, 2, 0, 2, 3, 0, 3, 4, 0, 4, 1];
    fs := fs + [1, 5, 6, 1, 6, 2];
    fs := fs + [2, 6, 7, 2, 7, 3];
    fs := fs + [3, 7, 8, 3, 8, 4];
    fs := fs + [4, 8, 5, 4, 5, 1];
  }

  // ---------------------------------------------------------------- the loop as written

  /**
   * The state (faces, i) of `for (let i = 0; i < faces.length; i += 3) faces.push(...)`
   * after n passes. Each pass appends three indices and advances i by three, so the distance
   * from i to faces.length never shrinks: the guard still holds after every number of passes.
   */
  function AsWrittenPasses(faces: seq<nat>, baseCount: nat, n: nat): (s: (seq<nat>, nat))
    requires |faces| >= 3
    ensures |s.0| == |faces| + 3 * n && s.1 == 3 * n
    ensures s.1 < |s.0| && |s.0| - s.1 == |faces|
    ensures s.0[..|faces|] == faces
  {
    if n == 0 then (faces, 0)
    else
      var p := AsWrittenPasses(faces, baseCount, n - 1);
      var fs, i := p.0, p.1;
      (fs + [fs[i] + baseCount, fs[i + 2] + baseCount, fs[i + 1] + baseCount], i + 3)
  }

  /**
   * For the first |faces|/3 passes the loop appends exactly the intended back faces: after
   * pass n the buffer is the front faces plus the first n back faces.
   */
  lemma {:induction false} AsWrittenPrefix(faces: seq<nat>, baseCount: nat, n: nat)
    requires |faces| >= 3 && |faces| % 3 == 0 && 3 * n <= |faces|
    ensures AsWrittenPasses(faces, baseCount, n).0 == faces + BackFaces(faces, baseCount)[..3 * n]
  {
    if n > 0 {
      AsWrittenPrefix(faces, baseCount, n - 1);
      var p := AsWrittenPasses(faces, baseCount, n - 1);
      var i := 3 * (n - 1);
      PrefixAt(p.0, faces, i);
      PrefixAt(p.0, faces, i + 1);
      PrefixAt(p.0, faces, i + 2);
      BackFacesTake(faces, baseCount, n);
    }
  }

  lemma PrefixAt(s: seq<nat>, faces: seq<nat>, k: nat)
    requires |faces| <= |s| && s[..|faces|] == faces && k < |faces|
    ensures s[k] == faces[k]
  {
    assert s[..|faces|][k] == s[k];
  }

  /** The first 3n back faces are the first 3(n − 1) followed by front triangle n − 1 reversed. */
  lemma BackFacesTake(faces: seq<nat>, shift: nat, n: nat)
    requires |faces| % 3 == 0 && 0 < n && 3 * n <= |faces|
    ensures BackFaces(faces, shift)[..3 * n]
         == BackFaces(faces, shift)[..3 * (n - 1)]
            + [faces[3 * (n - 1)] + shift, faces[3 * (n - 1) + 2] + shift, faces[3 * (n - 1) + 1] + shift]
  {
    BackFacesAt(faces, shift, n - 1);
  }

  /**
   * On the wing's 36 front indices the loop has produced the intended two-sided faces after
   * 12 passes, yet i = 36 is still below faces.length = 72, so it goes on, and it does so after
   * any number of passes.
   */
  lemma AsWrittenNeverStops(size: real, st: Settings, n: nat)
    ensures AsWrittenPasses(FrontFaces, 9, 12).0 == TwoSided(Front(size, st), BackZ).faces
    ensures AsWrittenPasses(FrontFaces, 9, 12).1 < |AsWrittenPasses(FrontFaces, 9, 12).0|
    ensures AsWrittenPasses(FrontFaces, 9, n).1 < |AsWrittenPasses(FrontFaces, 9, n).0|
  {
    AsWrittenPrefix(FrontFaces, 9, 12);
    assert BackFaces(FrontFaces, 9)[..36] == BackFaces(FrontFaces, 9);
  }

  // ---------------------------------------------------------------- properties

  /**
   * One-sided: 9 vertices and 36 indices below 9. Two-sided: 18 vertices and 72 indices below
   * 18; vertex 9+k is vertex k at z = −0.001 with its colour, and back face t is front face t
   * shifted by 9 with its last two corners swapped.
   */
  lemma WingShape(size: real, o: WingOptions)
    ensures var g := Wing(size, o);
            && (!Resolve(o).twoSided ==> |g.vertices| == 9 && |g.faces| == 36 && InRange(g.faces, 9))
            && (Resolve(o).twoSided ==> |g.vertices| == 18 && |g.faces| == 72 && InRange(g.faces, 18))
    ensures var g := Wing(size, o);
            var front := FrontVertices(size, Resolve(o));
            Resolve(o).twoSided ==> forall k :: 0 <= k < 9 ==>
              g.vertices[9 + k].pos == Vec3(front[k].pos.x, front[k].pos.y, -0.001)
              && g.vertices[9 + k].color == front[k].color
    ensures var g := Wing(size, o);
            Resolve(o).twoSided ==> forall t :: 0 <= t < 12 ==>
              && g.faces[36 + 3 * t] == FrontFaces[3 * t] + 9
              && g.faces[36 + 3 * t + 1] == FrontFaces[3 * t + 2] + 9
              && g.faces[36 + 3 * t + 2] == FrontFaces[3 * t + 1] + 9
  {
    var st := Resolve(o);
    assert InRange(FrontFaces, 9);
    if st.twoSided {
      TwoSidedShape(Front(size, st), BackZ);
    }
  }

  /** Vertex 0 has the centre colour, 1..4 the mid colour, 5..8 the edge colour; all lie at z = 0. */
  lemma FrontColorsAndDepth(size: real, st: Settings)
    ensures FrontVertices(size, st)[0].color == st.center
    ensures forall k :: 1 <= k < 5 ==> FrontVertices(size, st)[k].color == st.mid
    ensures forall k :: 5 <= k < 9 ==> FrontVertices(size, st)[k].color == st.edge
    ensures forall k :: 0 <= k < 9 ==> FrontVertices(size, st)[k].pos.z == 0.0
  {
  }

  /**
   * The outer diamond is (0, size/2), (size/2, 0), (0, −2·size), (−size/2, 0). The inner top
   * and right tips sit size·borderWidth inside the outer ones, while the inner bottom tip is
   * the outer one scaled by (1 − borderWidth).
   */
  lemma DiamondTips(size: real, st: Settings)
    ensures var vs := FrontVertices(size, st);
            && vs[5].pos.y == size / 2.0 && vs[6].pos.x == size / 2.0
            && vs[7].pos.y == -2.0 * size && vs[8].pos.x == -size / 2.0
            && vs[1].pos.y == vs[5].pos.y - size * st.borderWidth
            && vs[2].pos.x == vs[6].pos.x - size * st.borderWidth
            && vs[4].pos.x == vs[8].pos.x + size * st.borderWidth
            && vs[3].pos.y == (1.0 - st.borderWidth) * vs[7].pos.y
  {
  }

  /** Triangle t of `faces` over `vs` turns clockwise. */
  predicate Clockwise(vs: seq<Vertex>, faces: seq<nat>, t: nat)
  {
    HasTriangle(vs, faces, t) && TriangleTurn(vs, faces, t) < 0.0
  }

  /** Triangle t of `faces` over `vs` turns counter-clockwise. */
  predicate CounterClockwise(vs: seq<Vertex>, faces: seq<nat>, t: nat)
  {
    HasTriangle(vs, faces, t) && TriangleTurn(vs, faces, t) > 0.0
  }

  /**
   * With inner half-width h, outer half-width w, inner depth d and outer depth e, the twelve
   * turns are the negatives of products that are positive exactly when 0 < h < w and 0 < d < e.
   */
  lemma DiamondTurns(h: real, w: real, d: real, e: real)
    requires 0.0 < h && h < w
    requires 0.0 < d && d < e
    ensures h * h > 0.0 && h * d > 0.0 && (w - h) * w > 0.0 && h * (w - h) > 0.0
    ensures (w - h) * e > 0.0 && h * (e - d) > 0.0 && (e - d) * w > 0.0 && d * (w - h) > 0.0
  {
    Positive(h, h);
    Positive(h, d);
    Positive(w - h, w);
    Positive(h, w - h);
    Positive(w - h, e);
    Positive(h, e - d);
    Positive(e - d, w);
    Positive(d, w - h);
  }

  lemma WingBounds(size: real, bw: real)
    requires size > 0.0 && 0.0 < bw < 0.5
    ensures 0.0 < size * (0.5 - bw) < size / 2.0
    ensures 0.0 < size * (2.0 - bw * 2.0) < size * 2.0
  {
    Positive(size, 0.5 - bw);
    Positive(size, bw);
    Positive(size, 2.0 - bw * 2.0);
    assert size / 2.0 - size * (0.5 - bw) == size * bw;
    assert size * 2.0 - size * (2.0 - bw * 2.0) == 2.0 * (size * bw);
  }

  lemma Positive(a: real, b: real)
    requires a > 0.0 && b > 0.0
    ensures a * b > 0.0
  {
  }

  /**
   * For a positive size and a border width in (0, 1/2) every front triangle turns clockwise
   * seen from +z, so the front mesh is consistently wound.
   */
  lemma FrontClockwise(size: real, st: Settings)
    requires size > 0.0 && 0.0 < st.borderWidth < 0.5
    ensures forall t :: 0 <= t < 12 ==> Clockwise(FrontVertices(size, st), FrontFaces, t)
  {
    var vs := FrontVertices(size, st);
    var h, w, d, e := FrontCorners(size, st);
    forall t | 0 <= t < 12
      ensures Clockwise(vs, FrontFaces, t)
    {
      FrontTurn(vs, h, w, d, e, t);
    }
  }

  /**
   * The front vertices in terms of the inner half-width h, outer half-width w, inner depth d
   * and outer depth e, with 0 < h < w and 0 < d < e for a positive size and a border width
   * in (0, 1/2).
   */
  lemma FrontCorners(size: real, st: Settings) returns (h: real, w: real, d: real, e: real)
    requires size > 0.0 && 0.0 < st.borderWidth < 0.5
    ensures 0.0 < h && h < w && 0.0 < d && d < e
    ensures var vs := FrontVertices(size, st);
            && vs[0].pos == Vec3(0.0, 0.0, 0.0)
            && vs[1].pos == Vec3(0.0, h, 0.0) && vs[2].pos == Vec3(h, 0.0, 0.0)
            && vs[3].pos == Vec3(0.0, -d, 0.0) && vs[4].pos == Vec3(-h, 0.0, 0.0)
            && vs[5].pos == Vec3(0.0, w, 0.0) && vs[6].pos == Vec3(w, 0.0, 0.0)
            && vs[7].pos == Vec3(0.0, -e, 0.0) && vs[8].pos == Vec3(-w, 0.0, 0.0)
  {
    var bw := st.borderWidth;
    h, w, d, e := size * (0.5 - bw), size / 2.0, size * (2.0 - bw * 2.0), size * 2.0;
    WingBounds(size, bw);
  }

  lemma FrontTurn(vs: seq<Vertex>, h: real, w: real, d: real, e: real, t: nat)
    requires |vs| == 9 && t < 12
    requires vs[0].pos == Vec3(0.0, 0.0, 0.0)
    requires vs[1].pos == Vec3(0.0, h, 0.0) && vs[2].pos == Vec3(h, 0.0, 0.0)
    requires vs[3].pos == Vec3(0.0, -d, 0.0) && vs[4].pos == Vec3(-h, 0.0, 0.0)
    requires vs[5].pos == Vec3(0.0, w, 0.0) && vs[6].pos == Vec3(w, 0.0, 0.0)
    requires vs[7].pos == Vec3(0.0, -e, 0.0) && vs[8].pos == Vec3(-w, 0.0, 0.0)
    requires 0.0 < h && h < w && 0.0 < d && d < e
    ensures Clockwise(vs, FrontFaces, t)
  {
    DiamondTurnsNegative(h, w, d, e);
    if t == 0 {
      ClockwiseAt(vs, t, 0, 1, 2, Vec3(0.0, 0.0, 0.0), Vec3(0.0, h, 0.0), Vec3(h, 0.0, 0.0));
    } else if t == 1 {
      ClockwiseAt(vs, t, 0, 2, 3, Vec3(0.0, 0.0, 0.0), Vec3(h, 0.0, 0.0), Vec3(0.0, -d, 0.0));
    } else if t == 2 {
      ClockwiseAt(vs, t, 0, 3, 4, Vec3(0.0, 0.0, 0.0), Vec3(0.0, -d, 0.0), Vec3(-h, 0.0, 0.0));
    } else if t == 3 {
      ClockwiseAt(vs, t, 0, 4, 1, Vec3(0.0, 0.0, 0.0), Vec3(-h, 0.0, 0.0), Vec3(0.0, h, 0.0));
    } else if t == 4 {
      ClockwiseAt(vs, t, 1, 5, 6, Vec3(0.0, h, 0.0), Vec3(0.0, w, 0.0), Vec3(w, 0.0, 0.0));
    } else if t == 5 {
      ClockwiseAt(vs, t, 1, 6, 2, Vec3(0.0, h, 0.0), Vec3(w, 0.0, 0.0), Vec3(h, 0.0, 0.0));
    } else if t == 6 {
      ClockwiseAt(vs, t, 2, 6, 7, Vec3(h, 0.0, 0.0), Vec3(w, 0.0, 0.0), Vec3(0.0, -e, 0.0));
    } else if t == 7 {
      ClockwiseAt(vs, t, 2, 7, 3, Vec3(h, 0.0, 0.0), Vec3(0.0, -e, 0.0), Vec3(0.0, -d, 0.0));
    } else if t == 8 {
      ClockwiseAt(vs, t, 3, 7, 8, Vec3(0.0, -d, 0.0), Vec3(0.0, -e, 0.0), Vec3(-w, 0.0, 0.0));
    } else if t == 9 {
      ClockwiseAt(vs, t, 3, 8, 4, Vec3(0.0, -d, 0.0), Vec3(-w, 0.0, 0.0), Vec3(-h, 0.0, 0.0));
    } else if t == 10 {
      ClockwiseAt(vs, t, 4, 8, 5, Vec3(-h, 0.0, 0.0), Vec3(-w, 0.0, 0.0), Vec3(0.0, w, 0.0));
    } else {
      assert t == 11;
      ClockwiseAt(vs, t, 4, 5, 1, Vec3(-h, 0.0, 0.0), Vec3(0.0, w, 0.0), Vec3(0.0, h, 0.0));
    }
  }

  lemma ClockwiseAt(vs: seq<Vertex>, t: nat, a: nat, b: nat, c: nat, A: Vec3, B: Vec3, C: Vec3)
    requires t < 12 && a < |vs| && b < |vs| && c < |vs|
    requires FrontFaces[3 * t] == a && FrontFaces[3 * t + 1] == b && FrontFaces[3 * t + 2] == c
    requires vs[a].pos == A && vs[b].pos == B && vs[c].pos == C && Turn(A, B, C) < 0.0
    ensures Clockwise(vs, FrontFaces, t)
  {
  }

  /** For 0 < h < w and 0 < d < e all twelve front turns are negative. */
  lemma DiamondTurnsNegative(h: real, w: real, d: real, e: real)
    requires 0.0 < h && h < w && 0.0 < d && d < e
    ensures Turn(Vec3(0.0, 0.0, 0.0), Vec3(0.0, h, 0.0), Vec3(h, 0.0, 0.0)) < 0.0
    ensures Turn(Vec3(0.0, 0.0, 0.0), Vec3(h, 0.0, 0.0), Vec3(0.0, -d, 0.0)) < 0.0
    ensures Turn(Vec3(0.0, 0.0, 0.0), Vec3(0.0, -d, 0.0), Vec3(-h, 0.0, 0.0)) < 0.0
    ensures Turn(Vec3(0.0, 0.0, 0.0), Vec3(-h, 0.0, 0.0), Vec3(0.0, h, 0.0)) < 0.0
    ensures Turn(Vec3(0.0, h, 0.0), Vec3(0.0, w, 0.0), Vec3(w, 0.0, 0.0)) < 0.0
    ensures Turn(Vec3(0.0, h, 0.0), Vec3(w, 0.0, 0.0), Vec3(h, 0.0, 0.0)) < 0.0
    ensures Turn(Vec3(h, 0.0, 0.0), Vec3(w, 0.0, 0.0), Vec3(0.0, -e, 0.0)) < 0.0
    ensures Turn(Vec3(h, 0.0, 0.0), Vec3(0.0, -e, 0.0), Vec3(0.0, -d, 0.0)) < 0.0
    ensures Turn(Vec3(0.0, -d, 0.0), Vec3(0.0, -e, 0.0), Vec3(-w, 0.0, 0.0)) < 0.0
    ensures Turn(Vec3(0.0, -d, 0.0), Vec3(-w, 0.0, 0.0), Vec3(-h, 0.0, 0.0)) < 0.0
    ensures Turn(Vec3(-h, 0.0, 0.0), Vec3(-w, 0.0, 0.0), Vec3(0.0, w, 0.0)) < 0.0
    ensures Turn(Vec3(-h, 0.0, 0.0), Vec3(0.0, w, 0.0), Vec3(0.0, h, 0.0)) < 0.0
  {
    DiamondTurnValues(h, w, d, e);
    DiamondTurns(h, w, d, e);
  }

  /** The twelve front turns over the corners (0,0), (0,h), (h,0), (0,−d), (−h,0), (0,w), (w,0), (0,−e), (−w,0). */
  lemma DiamondTurnValues(h: real, w: real, d: real, e: real)
    ensures Turn(Vec3(0.0, 0.0, 0.0), Vec3(0.0, h, 0.0), Vec3(h, 0.0, 0.0)) == -(h * h)
    ensures Turn(Vec3(0.0, 0.0, 0.0), Vec3(h, 0.0, 0.0), Vec3(0.0, -d, 0.0)) == -(h * d)
    ensures Turn(Vec3(0.0, 0.0, 0.0), Vec3(0.0, -d, 0.0), Vec3(-h, 0.0, 0.0)) == -(h * d)
    ensures Turn(Vec3(0.0, 0.0, 0.0), Vec3(-h, 0.0, 0.0), Vec3(0.0, h, 0.0)) == -(h * h)
    ensures Turn(Vec3(0.0, h, 0.0), Vec3(0.0, w, 0.0), Vec3(w, 0.0, 0.0)) == -((w - h) * w)
    ensures Turn(Vec3(0.0, h, 0.0), Vec3(w, 0.0, 0.0), Vec3(h, 0.0, 0.0)) == -(h * (w - h))
    ensures Turn(Vec3(h, 0.0, 0.0), Vec3(w, 0.0, 0.0), Vec3(0.0, -e, 0.0)) == -((w - h) * e)
    ensures Turn(Vec3(h, 0.0, 0.0), Vec3(0.0, -e, 0.0), Vec3(0.0, -d, 0.0)) == -(h * (e - d))
    ensures Turn(Vec3(0.0, -d, 0.0), Vec3(0.0, -e, 0.0), Vec3(-w, 0.0, 0.0)) == -((e - d) * w)
    ensures Turn(Vec3(0.0, -d, 0.0), Vec3(-w, 0.0, 0.0), Vec3(-h, 0.0, 0.0)) == -(d * (w - h))
    ensures Turn(Vec3(-h, 0.0, 0.0), Vec3(-w, 0.0, 0.0), Vec3(0.0, w, 0.0)) == -((w - h) * w)
    ensures Turn(Vec3(-h, 0.0, 0.0), Vec3(0.0, w, 0.0), Vec3(0.0, h, 0.0)) == -(h * (w - h))
  {
  }

  /**
   * In the two-sided wing every back triangle turns counter-clockwise seen from +z, that is
   * clockwise seen from behind: the copy keeps x and y and swaps two corners.
   */
  lemma BackTriangle(front: Geometry, t: nat)
    requires |front.faces| == 36 && InRange(front.faces, |front.vertices|) && 12 <= t < 24
    requires Clockwise(front.vertices, front.faces, t - 12)
    ensures CounterClockwise(TwoSided(front, BackZ).vertices, TwoSided(front, BackZ).faces, t)
  {
    TwoSidedTurn(front, BackZ, 12, t - 12);
  }

  lemma BackCounterClockwise(size: real, o: WingOptions)
    requires Resolve(o).twoSided && size > 0.0 && 0.0 < Resolve(o).borderWidth < 0.5
    ensures forall t :: 12 <= t < 24 ==> CounterClockwise(Wing(size, o).vertices, Wing(size, o).faces, t)
  {
    var st := Resolve(o);
    var front := Front(size, st);
    assert InRange(FrontFaces, 9);
    FrontClockwise(size, st);
    var g := TwoSided(front, BackZ);
    assert Wing(size, o) == g;
    forall t | 12 <= t < 24
      ensures CounterClockwise(g.vertices, g.faces, t)
    {
      BackTriangle(front, t);
    }
  }
}
