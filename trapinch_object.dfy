/**
 * The scene-graph node of Trapinch/myObject.js. Each node owns two 4x4 matrix arrays
 * (MOVE_MATRIX, POSITION_MATRIX), its geometry, two GPU buffer handles, an opacity and
 * an ordered list of children. `Nodes` is the ghost footprint: the node and all its
 * descendants, siblings' footprints disjoint (a tree). Holds(t) says which
 * SceneGraph.Node value t the object graph stands for; setup and render are proved
 * against SceneGraph.SetupLog and SceneGraph.RenderLog with the defaulting alpha rule.
 */
module TrapinchObject {
  import opened JsMath
  import opened Mat4
  import opened WebGl
  import opened SceneGraph
  import Libs
  import Mesh

  lemma AppendAssoc<T>(a: seq<T>, b: seq<T>, c: seq<T>)
    ensures (a + b) + c == a + (b + c)
  {
  }

  class MyObject {
    const gl: Gl
    const program: nat
    const positionAttr: nat
    const colorAttr: nat
    const modelUniform: nat
    const alphaUniform: Option<nat>
    var vertex: seq<real>
    var faces: seq<nat>
    var vertexBuffer: Option<nat>
    var faceBuffer: Option<nat>
    var position: Mat
    var move: Mat
    var model: seq<real>
    var childs: seq<MyObject>
    var alpha: Option<real>
    ghost var Nodes: set<MyObject>

    /**
     * The tree shape: the node is in its footprint, each child's footprint lies inside the
     * node's without the node, sibling footprints are disjoint, and every child shares the
     * GL context and has that shape too. Only `childs` and `Nodes` are read, which neither
     * setup nor render changes.
     */
    ghost predicate Valid()
      reads this`childs, this`Nodes, Nodes`childs, Nodes`Nodes
      decreases Nodes
    {
      && this in Nodes
      && (forall i | 0 <= i < |childs| ::
            && childs[i] in Nodes && childs[i].Nodes <= Nodes && this !in childs[i].Nodes
            && childs[i].gl == gl && childs[i].Valid())
      && (forall i, j | 0 <= i < j < |childs| :: childs[i].Nodes !! childs[j].Nodes)
    }

    /** The node's own drawing state. */
    ghost function Own(): Drawable
      reads this`vertex, this`faces, this`vertexBuffer, this`faceBuffer, this`alpha
    {
      Drawable(program, positionAttr, colorAttr, modelUniform, alphaUniform, vertex, faces, vertexBuffer, faceBuffer, alpha)
    }

    /** The object graph under this node stands for the value t. MODEL_MATRIX is not read. */
    ghost predicate Holds(t: Node)
      requires Valid()
      reads this`childs, this`Nodes, Nodes`childs, Nodes`Nodes, Nodes`vertex, Nodes`faces,
            Nodes`vertexBuffer, Nodes`faceBuffer, Nodes`alpha, Nodes`move, Nodes`position
      decreases Nodes, 1
    {
      t.part == Own() && t.move == move && t.position == position && |t.children| == |childs| && ChildrenHold(t.children)
    }

    /** The children stand for the values ts, in order. */
    ghost predicate ChildrenHold(ts: seq<Node>)
      requires Valid()
      reads this`childs, this`Nodes, (Nodes - {this})`childs, (Nodes - {this})`Nodes, (Nodes - {this})`vertex,
            (Nodes - {this})`faces, (Nodes - {this})`vertexBuffer, (Nodes - {this})`faceBuffer,
            (Nodes - {this})`alpha, (Nodes - {this})`move, (Nodes - {this})`position
      decreases Nodes, 0
    {
      |ts| == |childs| && forall i | 0 <= i < |childs| :: childs[i].Holds(ts[i])
    }

    /**
     * new MyObject(gl, program, _position, _color, _Mmatrix, vertex, faces): fresh identity
     * POSITION and MOVE matrices, no children, alpha 1.0, the uAlpha location looked up once.
     */
    constructor (gl: Gl, program: nat, positionAttr: nat, colorAttr: nat, modelUniform: nat,
                 vertex: seq<real>, faces: seq<nat>)
      ensures Valid() && Nodes == {this} && this.gl == gl && model == []
      ensures Holds(Node(Drawable(program, positionAttr, colorAttr, modelUniform, gl.GetUniformLocation(program, "uAlpha"),
                                  vertex, faces, None, None, Some(1.0)), Identity(), Identity(), []))
    {
      var p := Libs.GetI4();
      var m := Libs.GetI4();
      this.gl := gl;
      this.program := program;
      this.positionAttr := positionAttr;
      this.colorAttr := colorAttr;
      this.modelUniform := modelUniform;
      position := p[..];
      move := m[..];
      model := [];
      childs := [];
      alpha := Some(1.0);
      alphaUniform := gl.GetUniformLocation(program, "uAlpha");
      this.vertex := vertex;
      this.faces := faces;
      vertexBuffer := None;
      faceBuffer := None;
      Nodes := {this};
    }

    /** childs.push(c) as the assembly code does it, c being a separate tree standing for tc. */
    method AddChild(c: MyObject, ghost t: Node, ghost tc: Node)
      requires Valid() && Holds(t) && c.Valid() && c.Holds(tc) && c.gl == gl && Nodes !! c.Nodes
      modifies this`childs, this`Nodes
      ensures Valid() && childs == old(childs) + [c] && Nodes == old(Nodes) + c.Nodes
      ensures Holds(t.(children := t.children + [tc]))
    {
      childs := childs + [c];
      Nodes := Nodes + c.Nodes;
    }

    /**
     * render(PARENT_MATRIX): MODEL_MATRIX := MOVE·POSITION·PARENT, this node's draw, then every
     * child rendered with this MODEL_MATRIX. Only MODEL_MATRIX fields change.
     */
    method Render(parent: seq<real>, ghost t: Node)
      requires Valid() && Holds(t) && IsMat(parent)
      modifies Nodes`model, gl`log
      ensures model == World(t, parent)
      ensures gl.log == old(gl.log) + RenderLog(t, parent, DefaultToOne)
      decreases Nodes, 1
    {
      model := Mul(Mul(move, position), parent);
      Draw(model);
      RenderEachChild(model, t);
      AppendAssoc(old(gl.log), DrawEvents(t.part, model, DefaultToOne), RenderChildren(t, |childs|, model, DefaultToOne));
    }

    /** The loop of render: childs[i].render(MODEL_MATRIX) for each i in order. */
    method RenderEachChild(world: seq<real>, ghost t: Node)
      requires Valid() && Holds(t) && IsMat(world)
      modifies (Nodes - {this})`model, gl`log
      ensures gl.log == old(gl.log) + RenderChildren(t, |childs|, world, DefaultToOne)
      decreases Nodes, 0, 1
    {
      for i := 0 to |childs|
        invariant Valid() && Holds(t)
        invariant gl.log == old(gl.log) + RenderChildren(t, i, world, DefaultToOne)
      {
        RenderChild(i, world, t);
        AppendAssoc(old(gl.log), RenderChildren(t, i, world, DefaultToOne), RenderLog(t.children[i], world, DefaultToOne));
      }
    }

    /** One step of that loop: childs[i].render(MODEL_MATRIX). */
    method RenderChild(i: nat, world: seq<real>, ghost t: Node)
      requires Valid() && Holds(t) && IsMat(world) && i < |childs|
      modifies childs[i].Nodes`model, gl`log
      ensures gl.log == old(gl.log) + RenderLog(t.children[i], world, DefaultToOne)
      decreases Nodes, 0, 0
    {
      childs[i].Render(world, t.children[i]);
    }

    /** The GL calls render makes for this node alone: program, uniforms, attributes, one draw. */
    method Draw(world: seq<real>)
      modifies gl`log
      ensures gl.log == old(gl.log) + DrawEvents(Own(), world, DefaultToOne)
    {
      gl.UseProgram(program);
      gl.UniformMatrix4fv(modelUniform, world);
      if alphaUniform.Some? {
        gl.Uniform1f(alphaUniform.value, if alpha.None? then Some(1.0) else alpha);
      }
      gl.BindBuffer(ArrayBuffer, vertexBuffer);
      gl.VertexAttribPointer(positionAttr, 3, 24, 0);
      gl.VertexAttribPointer(colorAttr, 3, 24, 12);
      gl.BindBuffer(ElementArrayBuffer, faceBuffer);
      gl.DrawElements(|faces|);
    }

    /**
     * setup(): a vertex buffer with the vertex floats, an index buffer with the faces as
     * Uint16, then every child's setup in order. Only the two handle fields of each node change.
     */
    method Setup(ghost t: Node)
      requires Valid() && Holds(t)
      modifies Nodes`vertexBuffer, Nodes`faceBuffer, gl`nextBuffer, gl`log
      ensures Holds(Assigned(t, old(gl.nextBuffer)))
      ensures gl.nextBuffer == old(gl.nextBuffer) + 2 * Size(t)
      ensures gl.log == old(gl.log) + SetupLog(t, old(gl.nextBuffer))
      decreases t, 1
    {
      ghost var h := gl.nextBuffer;
      CreateBuffers();
      SetupEachChild(t, h, Nodes - {this});
      AppendAssoc(old(gl.log), SetupEvents(t.part, h), SetupChildren(t, |t.children|, h + 2));
    }

    /** The node's own half of setup: the two buffers created, bound and filled. */
    method CreateBuffers()
      modifies this`vertexBuffer, this`faceBuffer, gl`nextBuffer, gl`log
      ensures vertexBuffer == Some(old(gl.nextBuffer)) && faceBuffer == Some(old(gl.nextBuffer) + 1)
      ensures gl.nextBuffer == old(gl.nextBuffer) + 2
      ensures gl.log == old(gl.log) + SetupEvents(old(Own()), old(gl.nextBuffer))
    {
      var vb := gl.CreateBuffer();
      vertexBuffer := Some(vb);
      gl.BindBuffer(ArrayBuffer, vertexBuffer);
      gl.BufferData(ArrayBuffer, Float32(vertex));
      var fb := gl.CreateBuffer();
      faceBuffer := Some(fb);
      gl.BindBuffer(ElementArrayBuffer, faceBuffer);
      gl.BufferData(ElementArrayBuffer, Uint16(Mesh.Uint16Array(faces)));
    }

    /**
     * The loop of setup: childs[i].setup() for each i in order, the node's own handles being
     * h and h + 1 and the children's continuing from the counter.
     */
    method SetupEachChild(ghost t: Node, ghost h: nat, ghost below: set<MyObject>)
      requires Valid() && ChildrenHold(t.children) && gl.nextBuffer == h + 2 && below == Nodes - {this}
      modifies below`vertexBuffer, below`faceBuffer, gl`nextBuffer, gl`log
      ensures ChildrenHold(Assigned(t, h).children)
      ensures gl.nextBuffer == h + 2 + 2 * SizeChildren(t, |childs|)
      ensures gl.log == old(gl.log) + SetupChildren(t, |childs|, h + 2)
      decreases t, 0, 1
    {
      ghost var start := gl.log;
      SetupBegins(t, h + 2, below);
      for i := 0 to |childs|
        invariant SetupDone(i, t, h + 2, start, below)
      {
        SetupChild(i, t, h + 2, start, below);
      }
      SetupEnds(t, h, start, below);
    }

    /** Before the first step of that loop, none of the children is set up. */
    lemma SetupBegins(t: Node, h: nat, below: set<MyObject>)
      requires Valid() && ChildrenHold(t.children) && gl.nextBuffer == h && below == Nodes - {this}
      ensures SetupDone(0, t, h, gl.log, below)
    {
    }

    /** After the last step of that loop, every child is set up. */
    lemma SetupEnds(t: Node, h: nat, start: seq<Event>, below: set<MyObject>)
      requires SetupDone(|childs|, t, h + 2, start, below)
      ensures ChildrenHold(Assigned(t, h).children)
      ensures gl.nextBuffer == h + 2 + 2 * SizeChildren(t, |childs|)
      ensures gl.log == start + SetupChildren(t, |childs|, h + 2)
    {
      PartlyAssignedEnds(t, h);
    }

    /**
     * The state after the first i steps of that loop: those children set up with handles
     * from h on, the rest untouched.
     */
    ghost predicate SetupDone(i: nat, t: Node, h: nat, start: seq<Event>, below: set<MyObject>)
      reads this`childs, this`Nodes, Nodes`childs, Nodes`Nodes, (Nodes - {this})`vertex,
            (Nodes - {this})`faces, (Nodes - {this})`vertexBuffer, (Nodes - {this})`faceBuffer,
            (Nodes - {this})`alpha, (Nodes - {this})`move, (Nodes - {this})`position, gl`nextBuffer, gl`log
    {
      && below == Nodes - {this} && Valid() && i <= |childs| && |t.children| == |childs|
      && ChildrenHold(PartlyAssigned(t, i, h))
      && gl.nextBuffer == h + 2 * SizeChildren(t, i)
      && gl.log == start + SetupChildren(t, i, h)
    }

    /**
     * One step of that loop: childs[i].setup(), the first i children being set up already and
     * the handles continuing from h.
     */
    method SetupChild(i: nat, ghost t: Node, ghost h: nat, ghost start: seq<Event>, ghost below: set<MyObject>)
      requires SetupDone(i, t, h, start, below) && i < |childs|
      modifies below`vertexBuffer, below`faceBuffer, gl`nextBuffer, gl`log
      ensures SetupDone(i + 1, t, h, start, below)
      decreases t, 0, 0
    {
      PartlyAssignedStep(t, i, h);
      assert forall k | i < k < |childs| :: childs[i].Nodes !! childs[k].Nodes;
      assert forall k | 0 <= k < i :: childs[k].Nodes !! childs[i].Nodes;
      childs[i].Setup(t.children[i]);
      AppendAssoc(start, SetupChildren(t, i, h), SetupLog(t.children[i], h + 2 * SizeChildren(t, i)));
    }
  }
}
