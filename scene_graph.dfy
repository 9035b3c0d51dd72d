/**
 * The value a `MyObject` scene-graph node stands for, and the GL traffic its `setup`
 * and `render` produce, as pure functions over that value. Both node classes (the
 * Trapinch and the Vibrava copy) are proved against these functions; they differ only
 * in how the `alpha` field becomes the uAlpha uniform (AlphaRule).
 */
module SceneGraph {
  import opened JsMath
  import opened Mat4
  import opened WebGl
  import Mesh

  /** How `render` turns `alpha` into the value passed to uniform1f. */
  datatype AlphaRule =
    | DefaultToOne  // `alpha == null ? 1.0 : alpha`
    | PassRaw       // `alpha` as it is, null included

  /** What a node draws with: shader handles, geometry, GPU buffer handles, opacity. */
  datatype Drawable = Drawable(
    program: nat, positionAttr: nat, colorAttr: nat, modelUniform: nat, alphaUniform: Option<nat>,
    vertex: seq<real>, faces: seq<nat>,
    vertexBuffer: Option<nat>, faceBuffer: Option<nat>,
    alpha: Option<real>)

  /** One node: what it draws, its MOVE and POSITION matrices, its children in `childs` order. */
  datatype Node = Node(part: Drawable, move: Mat, position: Mat, children: seq<Node>)

  /** MODEL_MATRIX = multiply(multiply(MOVE_MATRIX, POSITION_MATRIX), PARENT_MATRIX). */
  function World(n: Node, parent: seq<real>): (w: seq<real>)
    requires IsMat(parent)
    ensures IsMat(w)
  {
    Mul(Mul(n.move, n.position), parent)
  }

  function AlphaValue(d: Drawable, rule: AlphaRule): Option<real>
  {
    match rule
    case DefaultToOne => if d.alpha.None? then Some(1.0) else d.alpha
    case PassRaw => d.alpha
  }

  /** What one node sends before its children: program, model matrix, alpha if located, attributes, one draw. */
  function DrawEvents(d: Drawable, world: seq<real>, rule: AlphaRule): seq<Event>
  {
    [UseProgram(d.program), UniformMatrix4(d.modelUniform, world)]
    + (if d.alphaUniform.Some? then [Uniform1f(d.alphaUniform.value, AlphaValue(d, rule))] else [])
    + [BindBuffer(ArrayBuffer, d.vertexBuffer),
       VertexAttribPointer(d.positionAttr, 3, 24, 0),
       VertexAttribPointer(d.colorAttr, 3, 24, 12),
       BindBuffer(ElementArrayBuffer, d.faceBuffer),
       DrawTriangles(|d.faces|)]
  }

  /** render(parent): the node's own events, then each child rendered with this node's world matrix. */
  function RenderLog(n: Node, parent: seq<real>, rule: AlphaRule): seq<Event>
    requires IsMat(parent)
    decreases n, 1
  {
    DrawEvents(n.part, World(n, parent), rule) + RenderChildren(n, |n.children|, World(n, parent), rule)
  }

  /** The first k children of n rendered in order under `world`. */
  function RenderChildren(n: Node, k: nat, world: seq<real>, rule: AlphaRule): seq<Event>
    requires k <= |n.children| && IsMat(world)
    decreases n, 0, k
  {
    if k == 0 then [] else RenderChildren(n, k - 1, world, rule) + RenderLog(n.children[k - 1], world, rule)
  }

  /** The number of nodes in the tree. */
  function Size(n: Node): nat
    decreases n, 1
  {
    1 + SizeChildren(n, |n.children|)
  }

  function SizeChildren(n: Node, k: nat): nat
    requires k <= |n.children|
    decreases n, 0, k
  {
    if k == 0 then 0 else SizeChildren(n, k - 1) + Size(n.children[k - 1])
  }

  /** The pre-order traversal: the node, then the traversals of its children in order. */
  function PreOrder(n: Node): seq<Node>
    decreases n, 1
  {
    [n] + PreOrderChildren(n, |n.children|)
  }

  function PreOrderChildren(n: Node, k: nat): seq<Node>
    requires k <= |n.children|
    decreases n, 0, k
  {
    if k == 0 then [] else PreOrderChildren(n, k - 1) + PreOrder(n.children[k - 1])
  }

  /** setup(): a vertex buffer filled with the floats, then an index buffer filled with the Uint16 indices. */
  function SetupEvents(d: Drawable, h: nat): seq<Event>
  {
    [Event.CreateBuffer(h), Event.BindBuffer(ArrayBuffer, Some(h)), Event.BufferData(ArrayBuffer, Float32(d.vertex)),
     Event.CreateBuffer(h + 1), Event.BindBuffer(ElementArrayBuffer, Some(h + 1)),
     Event.BufferData(ElementArrayBuffer, Uint16(Mesh.Uint16Array(d.faces)))]
  }

  /** setup() with the next fresh handle h: the node's events, then each child's setup in order. */
  function SetupLog(n: Node, h: nat): seq<Event>
    decreases n, 1
  {
    SetupEvents(n.part, h) + SetupChildren(n, |n.children|, h + 2)
  }

  function SetupChildren(n: Node, k: nat, h: nat): seq<Event>
    requires k <= |n.children|
    decreases n, 0, k
  {
    if k == 0 then [] else SetupChildren(n, k - 1, h) + SetupLog(n.children[k - 1], h + 2 * SizeChildren(n, k - 1))
  }

  /** The tree after setup(): node by node in pre-order, handles h, h+1, h+2, ...; nothing else differs. */
  function Assigned(n: Node, h: nat): (r: Node)
    decreases n, 1
  {
    n.(part := n.part.(vertexBuffer := Some(h), faceBuffer := Some(h + 1)),
       children := AssignedChildren(n, |n.children|, h + 2))
  }

  /** The first k children of n after their setups in order, the first one starting at handle h. */
  function AssignedChildren(n: Node, k: nat, h: nat): (r: seq<Node>)
    requires k <= |n.children|
    ensures |r| == k
    decreases n, 0, k
  {
    if k == 0 then [] else AssignedChildren(n, k - 1, h) + [Assigned(n.children[k - 1], h + 2 * SizeChildren(n, k - 1))]
  }

  /** The children of n while setup runs: the first i set up from handle h on, the rest as they were. */
  function PartlyAssigned(n: Node, i: nat, h: nat): (r: seq<Node>)
    requires i <= |n.children|
    ensures |r| == |n.children|
  {
    if i == 0 then n.children
    else PartlyAssigned(n, i - 1, h)[i - 1 := Assigned(n.children[i - 1], h + 2 * SizeChildren(n, i - 1))]
  }

  lemma {:induction false} PartlyAssignedAt(n: Node, i: nat, h: nat, k: nat)
    requires i <= |n.children| && k < |n.children|
    ensures k < i ==> PartlyAssigned(n, i, h)[k] == Assigned(n.children[k], h + 2 * SizeChildren(n, k))
    ensures i <= k ==> PartlyAssigned(n, i, h)[k] == n.children[k]
  {
    if i > 0 {
      PartlyAssignedAt(n, i - 1, h, k);
    }
  }

  lemma {:induction false} AssignedChildrenAt(n: Node, i: nat, h: nat, k: nat)
    requires k < i <= |n.children|
    ensures AssignedChildren(n, i, h)[k] == Assigned(n.children[k], h + 2 * SizeChildren(n, k))
  {
    if k < i - 1 {
      AssignedChildrenAt(n, i - 1, h, k);
    }
  }

  /** Before the loop nothing is set up; after it, the node's children are as Assigned says. */
  lemma PartlyAssignedEnds(n: Node, h: nat)
    ensures PartlyAssigned(n, 0, h + 2) == n.children
    ensures PartlyAssigned(n, |n.children|, h + 2) == Assigned(n, h).children
  {
    AllAssigned(n, |n.children|, h + 2);
  }

  lemma AllAssigned(n: Node, i: nat, h: nat)
    requires i == |n.children|
    ensures PartlyAssigned(n, i, h) == AssignedChildren(n, i, h)
  {
    forall k | 0 <= k < i
      ensures PartlyAssigned(n, i, h)[k] == AssignedChildren(n, i, h)[k]
    {
      PartlyAssignedAt(n, i, h, k);
      AssignedChildrenAt(n, i, h, k);
    }
  }

  /** One more setup changes exactly the next child, into its Assigned value. */
  lemma PartlyAssignedStep(n: Node, i: nat, h: nat)
    requires i < |n.children|
    ensures PartlyAssigned(n, i, h)[i] == n.children[i]
    ensures PartlyAssigned(n, i + 1, h) == PartlyAssigned(n, i, h)[i := Assigned(n.children[i], h + 2 * SizeChildren(n, i))]
  {
    PartlyAssignedAt(n, i, h, i);
  }

  // ---------------------------------------------------------------- projections of a log

  /** The values `pick` extracts from the events of a log, in log order. */
  function Picked<T>(log: seq<Event>, pick: Event -> Option<T>): seq<T>
  {
    if log == [] then []
    else Picked(log[..|log| - 1], pick) + (if pick(log[|log| - 1]).Some? then [pick(log[|log| - 1]).value] else [])
  }

  lemma {:induction false} PickedAppend<T>(a: seq<Event>, b: seq<Event>, pick: Event -> Option<T>)
    ensures Picked(a + b, pick) == Picked(a, pick) + Picked(b, pick)
    decreases |b|
  {
    if b == [] {
      assert a + b == a;
    } else {
      assert (a + b)[..|a + b| - 1] == a + b[..|b| - 1];
      PickedAppend(a, b[..|b| - 1], pick);
    }
  }

  lemma {:induction false} PickedNone<T>(log: seq<Event>, pick: Event -> Option<T>)
    requires forall k | 0 <= k < |log| :: pick(log[k]).None?
    ensures Picked(log, pick) == []
    decreases |log|
  {
    if log != [] {
      PickedNone(log[..|log| - 1], pick);
    }
  }

  /** A log ending in one picked event, after events none of which is picked. */
  lemma PickedLast<T>(log: seq<Event>, pick: Event -> Option<T>, v: T)
    requires log != [] && pick(log[|log| - 1]) == Some(v)
    requires forall k | 0 <= k < |log| - 1 :: pick(log[k]).None?
    ensures Picked(log, pick) == [v]
  {
    PickedNone(log[..|log| - 1], pick);
  }

  function DrawCount(e: Event): Option<nat>
  {
    if e.DrawTriangles? then Some(e.count) else None
  }

  function Created(e: Event): Option<nat>
  {
    if e.CreateBuffer? then Some(e.handle) else None
  }

  function Uploaded(e: Event): Option<Source>
  {
    if e.BufferData? then Some(e.data) else None
  }

  // ---------------------------------------------------------------- render: draws in pre-order

  /** The index counts of a list of nodes. */
  function FaceCounts(ns: seq<Node>): (r: seq<nat>)
    ensures |r| == |ns|
  {
    seq(|ns|, i requires 0 <= i < |ns| => |ns[i].part.faces|)
  }

  lemma FaceCountsAppend(a: seq<Node>, b: seq<Node>)
    ensures FaceCounts(a + b) == FaceCounts(a) + FaceCounts(b)
  {
    assert forall i | 0 <= i < |a + b| :: FaceCounts(a + b)[i] == (FaceCounts(a) + FaceCounts(b))[i];
  }

  /** A node's own events hold exactly one draw, of all its indices, and it comes last. */
  lemma DrawEventsDraw(d: Drawable, world: seq<real>, rule: AlphaRule)
    ensures Picked(DrawEvents(d, world, rule), DrawCount) == [|d.faces|]
  {
    PickedLast(DrawEvents(d, world, rule), DrawCount, |d.faces|);
  }

  /**
   * render draws once per node with faces.length indices, and the draws come in pre-order:
   * the node before its children, children in `childs` order.
   */
  lemma {:induction false} RenderDraws(n: Node, parent: seq<real>, rule: AlphaRule)
    requires IsMat(parent)
    ensures Picked(RenderLog(n, parent, rule), DrawCount) == FaceCounts(PreOrder(n))
    decreases n, 1
  {
    var w := World(n, parent);
    PickedAppend(DrawEvents(n.part, w, rule), RenderChildren(n, |n.children|, w, rule), DrawCount);
    DrawEventsDraw(n.part, w, rule);
    RenderChildrenDraws(n, |n.children|, w, rule);
    FaceCountsAppend([n], PreOrderChildren(n, |n.children|));
  }

  lemma {:induction false} RenderChildrenDraws(n: Node, k: nat, world: seq<real>, rule: AlphaRule)
    requires k <= |n.children| && IsMat(world)
    ensures Picked(RenderChildren(n, k, world, rule), DrawCount) == FaceCounts(PreOrderChildren(n, k))
    decreases n, 0, k
  {
    if k > 0 {
      PickedAppend(RenderChildren(n, k - 1, world, rule), RenderLog(n.children[k - 1], world, rule), DrawCount);
      RenderChildrenDraws(n, k - 1, world, rule);
      RenderDraws(n.children[k - 1], world, rule);
      FaceCountsAppend(PreOrderChildren(n, k - 1), PreOrder(n.children[k - 1]));
    }
  }

  /** The pre-order visits every node once: as many draws as nodes. */
  lemma {:induction false} PreOrderSize(n: Node)
    ensures |PreOrder(n)| == Size(n)
    decreases n, 1
  {
    PreOrderChildrenSize(n, |n.children|);
  }

  lemma {:induction false} PreOrderChildrenSize(n: Node, k: nat)
    requires k <= |n.children|
    ensures |PreOrderChildren(n, k)| == SizeChildren(n, k)
    decreases n, 0, k
  {
    if k > 0 {
      PreOrderChildrenSize(n, k - 1);
      PreOrderSize(n.children[k - 1]);
    }
  }

  // ---------------------------------------------------------------- render: transform chaining

  /** MOVE·POSITION, the part of the world matrix a node contributes itself. */
  function Local(n: Node): (l: seq<real>)
    ensures IsMat(l)
  {
    Mul(n.move, n.position)
  }

  /** A child's world is childMOVE·childPOS·parentMOVE·parentPOS·P. */
  lemma ChildWorld(n: Node, i: nat, parent: seq<real>)
    requires IsMat(parent) && i < |n.children|
    ensures World(n.children[i], World(n, parent)) == Mul(Mul(Local(n.children[i]), Local(n)), parent)
  {
    var c := n.children[i];
    MulAssoc(Local(c), Local(n), parent);
  }

  predicate IdentityLocals(n: Node)
    decreases n
  {
    n.move == Identity() && n.position == Identity()
    && forall i | 0 <= i < |n.children| :: IdentityLocals(n.children[i])
  }

  /** With identity MOVE and POSITION everywhere, every model matrix sent is the parent matrix itself. */
  lemma {:induction false} IdentityLocalsKeepParent(n: Node, parent: seq<real>, rule: AlphaRule)
    requires IsMat(parent) && IdentityLocals(n)
    ensures forall e | e in RenderLog(n, parent, rule) && e.UniformMatrix4? :: e.matrix == parent
    decreases n, 1
  {
    MulIdentityLeft(Identity());
    MulIdentityLeft(parent);
    assert World(n, parent) == parent;
    IdentityLocalsChildren(n, |n.children|, parent, rule);
  }

  lemma {:induction false} IdentityLocalsChildren(n: Node, k: nat, parent: seq<real>, rule: AlphaRule)
    requires k <= |n.children| && IsMat(parent) && IdentityLocals(n)
    ensures forall e | e in RenderChildren(n, k, parent, rule) && e.UniformMatrix4? :: e.matrix == parent
    decreases n, 0, k
  {
    if k > 0 {
      IdentityLocalsChildren(n, k - 1, parent, rule);
      IdentityLocalsKeepParent(n.children[k - 1], parent, rule);
    }
  }

  // ---------------------------------------------------------------- render: alpha

  /** The alpha uniform is set exactly when its location was found, to the value the rule gives. */
  lemma AlphaOnlyWhenLocated(d: Drawable, world: seq<real>, rule: AlphaRule)
    ensures d.alphaUniform.Some? ==> Uniform1f(d.alphaUniform.value, AlphaValue(d, rule)) in DrawEvents(d, world, rule)
    ensures forall e | e in DrawEvents(d, world, rule) && e.Uniform1f? ::
              d.alphaUniform.Some? && e == Uniform1f(d.alphaUniform.value, AlphaValue(d, rule))
  {
  }

  /** The two rules disagree exactly on a null alpha: the default sends 1.0, the raw rule sends null. */
  lemma AlphaRulesDiffer(d: Drawable)
    ensures AlphaValue(d, DefaultToOne) != AlphaValue(d, PassRaw) <==> d.alpha.None?
    ensures d.alpha.None? ==> AlphaValue(d, DefaultToOne) == Some(1.0) && AlphaValue(d, PassRaw).None?
  {
  }

  /** Under the defaulting rule no render ever passes null to uniform1f. */
  lemma {:induction false} DefaultAlphaNeverNull(n: Node, parent: seq<real>)
    requires IsMat(parent)
    ensures forall e | e in RenderLog(n, parent, DefaultToOne) && e.Uniform1f? :: e.value.Some?
    decreases n, 1
  {
    DefaultAlphaChildren(n, |n.children|, World(n, parent));
  }

  lemma {:induction false} DefaultAlphaChildren(n: Node, k: nat, world: seq<real>)
    requires k <= |n.children| && IsMat(world)
    ensures forall e | e in RenderChildren(n, k, world, DefaultToOne) && e.Uniform1f? :: e.value.Some?
    decreases n, 0, k
  {
    if k > 0 {
      DefaultAlphaChildren(n, k - 1, world);
      DefaultAlphaNeverNull(n.children[k - 1], world);
    }
  }

  // ---------------------------------------------------------------- setup

  /** Consecutive handles h, h+1, ..., h+count-1. */
  function Handles(h: nat, count: nat): (r: seq<nat>)
    ensures |r| == count
  {
    seq(count, i requires 0 <= i < count => h + i)
  }

  lemma HandlesAppend(h: nat, a: nat, b: nat)
    ensures Handles(h, a) + Handles(h + a, b) == Handles(h, a + b)
  {
    var l, r := Handles(h, a), Handles(h + a, b);
    forall i | 0 <= i < a + b
      ensures (l + r)[i] == h + i
    {
      if i < a {
        assert (l + r)[i] == l[i];
      } else {
        assert (l + r)[i] == r[i - a];
      }
    }
  }

  /** A node's own setup creates handle h, then handle h + 1. */
  lemma SetupEventsCreate(d: Drawable, h: nat)
    ensures Picked(SetupEvents(d, h), Created) == [h, h + 1]
  {
    var ev := SetupEvents(d, h);
    assert ev == ev[..1] + ev[1..4] + ev[4..];
    PickedLast(ev[..1], Created, h);
    PickedLast(ev[1..4], Created, h + 1);
    PickedNone(ev[4..], Created);
    PickedAppend(ev[..1], ev[1..4], Created);
    PickedAppend(ev[..1] + ev[1..4], ev[4..], Created);
  }

  /** setup creates two buffers per node, numbered consecutively from the next fresh handle: all distinct. */
  lemma {:induction false} SetupCreates(n: Node, h: nat)
    ensures Picked(SetupLog(n, h), Created) == Handles(h, 2 * Size(n))
    decreases n, 1
  {
    PickedAppend(SetupEvents(n.part, h), SetupChildren(n, |n.children|, h + 2), Created);
    SetupEventsCreate(n.part, h);
    SetupChildrenCreates(n, |n.children|, h + 2);
    HandlesAppend(h, 2, 2 * SizeChildren(n, |n.children|));
    assert Handles(h, 2) == [h, h + 1];
  }

  lemma {:induction false} SetupChildrenCreates(n: Node, k: nat, h: nat)
    requires k <= |n.children|
    ensures Picked(SetupChildren(n, k, h), Created) == Handles(h, 2 * SizeChildren(n, k))
    decreases n, 0, k
  {
    if k > 0 {
      var s := SizeChildren(n, k - 1);
      PickedAppend(SetupChildren(n, k - 1, h), SetupLog(n.children[k - 1], h + 2 * s), Created);
      SetupChildrenCreates(n, k - 1, h);
      SetupCreates(n.children[k - 1], h + 2 * s);
      HandlesAppend(h, 2 * s, 2 * Size(n.children[k - 1]));
    }
  }

  /** What the nodes of a list upload, in order: each one's vertex floats, then its Uint16 indices. */
  function Uploads(ns: seq<Node>): seq<Source>
  {
    if ns == [] then []
    else Uploads(ns[..|ns| - 1]) + [Float32(ns[|ns| - 1].part.vertex), Uint16(Mesh.Uint16Array(ns[|ns| - 1].part.faces))]
  }

  lemma {:induction false} UploadsAppend(a: seq<Node>, b: seq<Node>)
    ensures Uploads(a + b) == Uploads(a) + Uploads(b)
    decreases |b|
  {
    if b == [] {
      assert a + b == a;
    } else {
      assert (a + b)[..|a + b| - 1] == a + b[..|b| - 1];
      UploadsAppend(a, b[..|b| - 1]);
    }
  }

  /** A node's own setup uploads its vertex floats, then its Uint16 indices. */
  lemma SetupEventsUpload(n: Node, h: nat)
    ensures Picked(SetupEvents(n.part, h), Uploaded) == Uploads([n])
  {
    var ev := SetupEvents(n.part, h);
    assert ev == ev[..3] + ev[3..];
    PickedLast(ev[..3], Uploaded, Float32(n.part.vertex));
    PickedLast(ev[3..], Uploaded, Uint16(Mesh.Uint16Array(n.part.faces)));
    PickedAppend(ev[..3], ev[3..], Uploaded);
    assert [n][..0] == [];
  }

  /** setup uploads every node's vertices and indices exactly once, in pre-order. */
  lemma {:induction false} SetupUploads(n: Node, h: nat)
    ensures Picked(SetupLog(n, h), Uploaded) == Uploads(PreOrder(n))
    decreases n, 1
  {
    PickedAppend(SetupEvents(n.part, h), SetupChildren(n, |n.children|, h + 2), Uploaded);
    SetupEventsUpload(n, h);
    SetupChildrenUploads(n, |n.children|, h + 2);
    UploadsAppend([n], PreOrderChildren(n, |n.children|));
  }

  lemma {:induction false} SetupChildrenUploads(n: Node, k: nat, h: nat)
    requires k <= |n.children|
    ensures Picked(SetupChildren(n, k, h), Uploaded) == Uploads(PreOrderChildren(n, k))
    decreases n, 0, k
  {
    if k > 0 {
      var s := SizeChildren(n, k - 1);
      var c := n.children[k - 1];
      assert SetupChildren(n, k, h) == SetupChildren(n, k - 1, h) + SetupLog(c, h + 2 * s);
      assert PreOrderChildren(n, k) == PreOrderChildren(n, k - 1) + PreOrder(c);
      PickedAppend(SetupChildren(n, k - 1, h), SetupLog(c, h + 2 * s), Uploaded);
      SetupChildrenUploads(n, k - 1, h);
      SetupUploads(c, h + 2 * s);
      UploadsAppend(PreOrderChildren(n, k - 1), PreOrder(c));
    }
  }
}
