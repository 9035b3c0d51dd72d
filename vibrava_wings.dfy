/**
 * generateWing of Vibrava/wings.js: a flat diamond with corners (+w, 0, z), (0, +h, z),
 * (−w, 0, z), (0, −h, z), two triangles (0, 1, 2), (0, 2, 3), and by default a back side:
 * an exact copy of the four vertices and one reversed face per front face over the copies.
 */
module VibravaWings {
  import opened JsMath
  import opened Vectors
  import opened Mesh

  /** The destructured options object; an absent property is None and takes its default. */
  datatype WingOptions = WingOptions(w: Option<real>, h: Option<real>, z: Option<real>, color: Option<Vec3>,
                                     twoSided: Option<bool>)

  const DefaultColor: Vec3 := Vec3(0.26, 0.86, 0.24)

  /** The options after their defaults: w = 1, h = 1.2, z = 0, the leaf green, twoSided = true. */
  datatype Settings = Settings(w: real, h: real, z: real, color: Vec3, twoSided: bool)

  function Resolve(o: WingOptions): (s: Settings)
    ensures o.twoSided == None ==> s.twoSided
    ensures o.twoSided.Some? ==> s.twoSided == o.twoSided.value
    ensures o.color == None ==> s.color == DefaultColor
    ensures o.w == None ==> s.w == 1.0
    ensures o.h == None ==> s.h == 1.2
    ensures o.z == None ==> s.z == 0.0
  {
    Settings(Nullish(o.w, 1.0), Nullish(o.h, 1.2), Nullish(o.z, 0.0), Nullish(o.color, DefaultColor),
             Nullish(o.twoSided, true))
  }

  /** P: the right, top, left and bottom corners. */
  function Corners(st: Settings): (p: seq<Vec3>)
    ensures |p| == 4
  {
    [Vec3(st.w, 0.0, st.z), Vec3(0.0, st.h, st.z), Vec3(-st.w, 0.0, st.z), Vec3(0.0, -st.h, st.z)]
  }

  function FrontVertices(st: Settings): (vs: seq<Vertex>)
    ensures |vs| == 4
  {
    seq(4, k requires 0 <= k < 4 => Vertex(Corners(st)[k], st.color))
  }

  const FrontFaces: seq<nat> := [0, 1, 2, 0, 2, 3]

  function Front(st: Settings): Geometry
  {
    Geometry(FrontVertices(st), FrontFaces)
  }

  /** The back copy keeps z: every copied vertex is pushed with the same six values. */
  function SameZ(z: real): real
  {
    z
  }

  function Wing(o: WingOptions): Geometry
  {
    var st := Resolve(o);
    if st.twoSided then TwoSided(Front(st), SameZ) else Front(st)
  }

  /** generateWing(options). */
  method GenerateWing(o: WingOptions) returns (g: Geometry)
    ensures g == Wing(o)
  {
    var st := Resolve(o);
    var p := Corners(st);
    var vs: seq<Vertex> := [];
    for i := 0 to 4
      invariant vs == FrontVertices(st)[..i]
    {
      vs := vs + [Vertex(p[i], st.color)];
    }
    assert FrontVertices(st)[..4] == FrontVertices(st);
    g := Geometry(vs, [0, 1, 2, 0, 2, 3]);
    if st.twoSided {
      g := MakeTwoSided(g, SameZ);
    }
  }

  /**
   * One-sided: 4 vertices and the 6 front indices. Two-sided: 8 vertices, vertex 4+k an
   * exact copy of vertex k, and 12 indices, the back faces being (4, 6, 5), (4, 7, 6).
   * Every index names a vertex and every vertex has the wing colour.
   */
  lemma WingShape(o: WingOptions)
    ensures var g, st := Wing(o), Resolve(o);
            && (!st.twoSided ==> |g.vertices| == 4 && g.faces == [0, 1, 2, 0, 2, 3])
            && (st.twoSided ==> |g.vertices| == 8 && g.faces == [0, 1, 2, 0, 2, 3, 4, 6, 5, 4, 7, 6])
            && (st.twoSided ==> forall k :: 0 <= k < 4 ==> g.vertices[4 + k] == g.vertices[k])
            && InRange(g.faces, |g.vertices|)
            && AllColored(g.vertices, st.color)
  {
    var st := Resolve(o);
    var front := Front(st);
    assert InRange(FrontFaces, 4);
    if st.twoSided {
      TwoSidedShape(front, SameZ);
      var g := TwoSided(front, SameZ);
      BackFacesAt(FrontFaces, 4, 0);
      BackFacesAt(FrontFaces, 4, 1);
      assert BackFaces(FrontFaces, 4) == [4, 6, 5, 4, 7, 6];
      forall k | 0 <= k < 4
        ensures g.vertices[4 + k] == g.vertices[k]
      {
        assert g.vertices[4 + k] == Back(front.vertices[k], SameZ);
      }
      forall k | 0 <= k < 8
        ensures g.vertices[k].color == st.color
      {
        if k >= 4 {
          assert g.vertices[k] == Back(front.vertices[k - 4], SameZ);
        }
      }
    }
  }

  /** With no options at all the wing is two-sided: 8 vertices and 12 indices. */
  lemma DefaultIsTwoSided()
    ensures |Wing(WingOptions(None, None, None, None, None)).vertices| == 8
    ensures |Wing(WingOptions(None, None, None, None, None)).faces| == 12
  {
    WingShape(WingOptions(None, None, None, None, None));
  }

  /** The corners are the diamond's tips on the x and y axes, all in the plane z. */
  lemma DiamondCorners(o: WingOptions)
    ensures var st, vs := Resolve(o), Wing(o).vertices;
            && vs[0].pos == Vec3(st.w, 0.0, st.z) && vs[1].pos == Vec3(0.0, st.h, st.z)
            && vs[2].pos == Vec3(-st.w, 0.0, st.z) && vs[3].pos == Vec3(0.0, -st.h, st.z)
  {
    var st := Resolve(o);
    var fv := FrontVertices(st);
    var p := Corners(st);
    assert fv[0] == Vertex(p[0], st.color) && fv[1] == Vertex(p[1], st.color);
    assert fv[2] == Vertex(p[2], st.color) && fv[3] == Vertex(p[3], st.color);
    if st.twoSided {
      var vs := fv + Mirror(fv, SameZ);
      assert Wing(o).vertices == vs;
      assert vs[0] == fv[0] && vs[1] == fv[1] && vs[2] == fv[2] && vs[3] == fv[3];
    }
  }

  /** Each back triangle turns the other way from its front triangle. */
  lemma BackFacesReversed(o: WingOptions, t: nat)
    requires Resolve(o).twoSided && t < 2
    ensures HasTriangle(Front(Resolve(o)).vertices, FrontFaces, t)
    ensures HasTriangle(Wing(o).vertices, Wing(o).faces, 2 + t)
    ensures TriangleTurn(Wing(o).vertices, Wing(o).faces, 2 + t)
         == -TriangleTurn(Front(Resolve(o)).vertices, FrontFaces, t)
  {
    assert InRange(FrontFaces, 4);
    TwoSidedTurn(Front(Resolve(o)), SameZ, 2, t);
  }
}
