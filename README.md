# Verified model of the UTS_Grafkom creature meshes and matrix libraries

UTS_Grafkom is a WebGL demo that draws three creatures (Trapinch, Vibrava and Flygon) in a
desert scene. This project models its self-contained core in Dafny and proves properties of
that model:

- **The two 4×4 matrix libraries**, `libs.js` (module `Libs`) and `Environtment/libs.js`
  (module `EnvLibs`). Both work on 16-entry row-major arrays.
  - The operations that overwrite the passed array are methods on `array<real>`: `set_I4`,
    the slot-wise translates and scales, the in-place rotations, `rotateArbitraryAxis` and
    `scaleInPlace`. Each is proved against a function on the old contents.
  - The operations that build a new array are functions on `seq<real>`.
  - `Mat4` holds the shared algebra: identity, product, and the unit and associativity laws.
- **The scene-graph node `MyObject`**, in its Trapinch and Vibrava variants (modules
  `TrapinchObject` and `VibravaObject`). Each is a class with the source's fields.
  - `setup` and `render` are methods proved against the pure functions in `SceneGraph`.
  - WebGL is modelled as a log of GL events kept by the `WebGl.Gl` class.
  - The proofs cover the pre-order draw sequence, the chained model matrices, the buffer
    handles and the two alpha rules.
- **`getTipBaseFromVertices`** (module `TipBase`), the stride-6 arg-min/arg-max scan of
  `Flygon/createFlygon.js`.
- **The procedural mesh generators.** There is one module per source file, for Trapinch,
  Flygon, Vibrava and the environment (terrain, sky dome, sun, cloud).
  - Each generator's loops are a method proved to build a specification function of its
    arguments.
  - The lemmas then state vertex and index counts, where each vertex sits, that every index
    names a vertex, cap and fan winding, two-sided duplication, colours, and the rational
    part of the geometry.
  - `Mesh` holds the grid, fan and back-face builders that the generators share.

Vertices are `Vertex(pos, color)` values. A buffer of them stands for the source's flat
stride-6 float array, and `Mesh.Flatten` gives the flat view. Indices are `nat`. `Mesh.Typed`
models the Uint16Array conversion and is proved lossless for meshes of at most 65536 vertices.

JavaScript's `Math` is the parameter `m: JsMath.Math`, a record of uninterpreted real
functions (`sin`, `cos`, `tan`, `exp`, `sinh`, `cosh`, `sqrt`, `asin`). The only facts
assumed about them are predicates that lemmas take as preconditions:

- `TrigLaws`: sin 0 = 0, cos 0 = 1, sin² + cos² = 1.
- `HyperbolicLaws`: sinh 0 = 0, cosh² − sinh² = 1, cosh ≥ 1.
- `SqrtLaws`: sqrt 0 = 0, and the root of a non-negative number is non-negative and squares back to it.

`PI` is the double value of `Math.PI`. An options object is a datatype of `Option` fields.
`JsMath.Nullish`, `OrNumber` and `Truthy` model the source's defaults (`= d`, `??`, `||`).

## Model

| member | source | states |
|---|---|---|
| Libs.DegToRad | libs.js:2-4 | degToRad scales degrees so that angle degrees times PI equals 180 times the result |
| Libs.DegToRadLaws | libs.js:2-4 | 180 degrees is PI radians, 0 is 0, and the conversion is additive |
| Libs.GetProjection | libs.js:6-29 | get_projection is zero except at slots 0, 5, 10, 11 and 14, which hold 0.5/tan, 0.5·a/tan, A, −1 and B |
| Libs.ProjectionDepthRange | libs.js:6-29 | the near plane z = −zMin maps to depth −1 and the far plane z = −zMax to +1 |
| Libs.DepthRangeOf | libs.js:8-9 | any matrix with get_projection's depth entries A and B sends −zMin to −1 and −zMax to +1 |
| Libs.SetI4 | libs.js:35-52 | set_I4 overwrites all 16 entries with the identity |
| Libs.GetI4 | libs.js:31-33 | get_I4 returns a new identity matrix |
| Libs.Multiply | libs.js:129-141 | multiply returns a fresh array holding the row-major product m1·m2; neither input changes |
| Libs.AccumulateRow | libs.js:133-138 | the j loop fills row i with the product's row i and changes no other row |
| Libs.AccumulateEntry | libs.js:134-137 | the k loop leaves entry 4i+j equal to row i of m1 times column j of m2 and changes nothing else |
| Libs.Translated | libs.js:99-107 | a translation adds t to one translation slot and leaves the other 15 entries alone |
| Libs.TranslateCompose | libs.js:99-107 | two translations along one axis add up; translations along two axes commute |
| Libs.TranslateX | libs.js:102-104 | translateX adds t to slot 12 in place |
| Libs.TranslateY | libs.js:105-107 | translateY adds t to slot 13 in place |
| Libs.TranslateZ | libs.js:99-101 | translateZ adds t to slot 14 in place |
| Libs.SetPosition | libs.js:125-127 | set_position overwrites slots 12, 13 and 14 and nothing else |
| Libs.ScaledColumn | libs.js:109-123 | scaling a column multiplies entries col, col+4 and col+8 by s and leaves the rest alone |
| Libs.ScaleX | libs.js:114-118 | scaleX scales column 0 of rows 0 to 2 in place |
| Libs.ScaleY | libs.js:119-123 | scaleY scales column 1 of rows 0 to 2 in place |
| Libs.ScaleZ | libs.js:109-113 | scaleZ scales column 2 of rows 0 to 2 in place |
| Libs.RotX | libs.js:54-67 | rotateX changes only columns 1 and 2 of rows 0 to 2 |
| Libs.RotY | libs.js:69-82 | rotateY changes only columns 0 and 2 of rows 0 to 2 |
| Libs.RotZ | libs.js:84-97 | rotateZ changes only columns 0 and 1 of rows 0 to 2 |
| Libs.RotateX | libs.js:54-67 | saving m[1], m[5] and m[9] before overwriting them makes the in-place update equal the rotation of the old contents |
| Libs.RotateY | libs.js:69-82 | saving m[0], m[4] and m[8] makes the in-place update equal the rotation of the old contents |
| Libs.RotateZ | libs.js:84-97 | saving m[0], m[4] and m[8] makes the in-place update equal the rotation of the old contents |
| Libs.RotXInverse | libs.js:54-67 | when cos² + sin² = 1, rotateX by an angle and then by its negative restores the matrix |
| Libs.RotYInverse | libs.js:69-82 | rotateY by an angle and then by its negative restores the matrix |
| Libs.RotZInverse | libs.js:84-97 | rotateZ by an angle and then by its negative restores the matrix |
| Libs.RotZeroAngle | libs.js:54-97 | a rotation with cos 1 and sin 0 changes nothing |
| Libs.RotAxis | libs.js:168-183 | rotateArbitraryAxis changes only the upper-left 3×3 block |
| Libs.RotAxisFromRows | libs.js:168-183 | a matrix is the axis rotation of another exactly when its nine rotated entries are the rows of R times the old rows |
| Libs.Normalized | libs.js:145-149 | the normalised axis times the axis length gives back the axis |
| Libs.RotateArbitraryAxis | libs.js:144-184 | saving the nine old entries makes the in-place update the Rodrigues rotation, about the normalised axis, of every old row |
| Libs.RotAxisUnitY | libs.js:155-167 | about the unit y axis the Rodrigues rotation is exactly rotateY |
| Libs.AxisLengthAlongY | libs.js:146 | the axis (0, k, 0) with k > 0 has length k |
| Libs.RotateArbitraryAxisAlongY | libs.js:144-184 | for any axis (0, k, 0) with k > 0 the axis normalises to (0, 1, 0) and rotateArbitraryAxis agrees with rotateY |
| Libs.Scale | libs.js:186-192 | scale returns a new array m·diag(sx, sy, sz, 1) |
| Libs.ScaleInPlace | libs.js:194-198 | scaleInPlace writes m·diag(sx, sy, sz, 1) into m and returns m |
| Libs.DiagColumns | libs.js:186-192 | right-multiplying by a diagonal scales each column by its factor, translation row included |
| Libs.ScaleVersusScaleX | libs.js:109-192 | scale and scaleX agree on rows 0 to 2, but scale also multiplies the translation slot 12, which scaleX leaves alone |
| EnvLibs.SetI4 | Environtment/libs.js:10-17 | a missing array or one whose length is not 16 is left untouched and undefined is returned; a 16-entry array becomes the identity and is returned |
| EnvLibs.Multiply | Environtment/libs.js:19-29 | multiply returns a fresh array holding the 4×4 row-major product a·b |
| EnvLibs.RowTimesColumn | Environtment/libs.js:23-24 | the k loop sums row r of a against column c of b, giving entry (r, c) of the product |
| EnvLibs.CopyBack | Environtment/libs.js:59 | the copy loop leaves m equal to the product it copies |
| EnvLibs.TranslationMatrix | Environtment/libs.js:32-33 | the matrix translate multiplies by is the identity except that slots 12, 13 and 14 hold v |
| EnvLibs.Translate | Environtment/libs.js:31-35 | translate returns a new array m·T and leaves m alone |
| EnvLibs.TranslationColumns | Environtment/libs.js:31-35 | right-multiplying by T adds m[4i+3]·v to the first three entries of every row i and keeps column 3 |
| EnvLibs.TranslateAffine | Environtment/libs.js:31-48 | on an affine matrix translate only adds v to the translation slots, which is translateX, translateY and translateZ applied in turn |
| EnvLibs.TranslateX | Environtment/libs.js:37-40 | translateX adds v to slot 12 in place and returns the same array |
| EnvLibs.TranslateY | Environtment/libs.js:41-44 | translateY adds v to slot 13 in place and returns the same array |
| EnvLibs.TranslateZ | Environtment/libs.js:45-48 | translateZ adds v to slot 14 in place and returns the same array |
| EnvLibs.RotateX | Environtment/libs.js:50-61 | rotateX replaces m by rot·m, the rotation applied from the left, and returns m |
| EnvLibs.RotateY | Environtment/libs.js:63-74 | rotateY replaces m by rot·m and returns m |
| EnvLibs.RotateZ | Environtment/libs.js:76-87 | rotateZ replaces m by rot·m and returns m |
| EnvLibs.RotXRows | Environtment/libs.js:50-61 | rotateX keeps rows 0 and 3 and mixes rows 1 and 2 by (cos, sin) |
| EnvLibs.RotYRows | Environtment/libs.js:63-74 | rotateY keeps rows 1 and 3 and mixes rows 0 and 2 |
| EnvLibs.RotZRows | Environtment/libs.js:76-87 | rotateZ keeps rows 2 and 3 and mixes rows 0 and 1 |
| EnvLibs.RotXMatrixInverse | Environtment/libs.js:52-57 | when cos² + sin² = 1 the rotation by −angle undoes the rotation by angle |
| EnvLibs.RotateXBack | Environtment/libs.js:50-61 | rotating by angle and then by −angle gives back the original matrix |
| EnvLibs.RightRotX | libs.js:54-67 | the creature library's rotateX is the right product with this library's x rotation, row 3 excepted |
| EnvLibs.RightRotY | libs.js:69-82 | the creature library's rotateY is the right product with this library's y rotation, row 3 excepted |
| EnvLibs.RightRotZ | libs.js:84-97 | the creature library's rotateZ is the right product with this library's z rotation, row 3 excepted |
| EnvLibs.CreatureRotationsFromRight | Environtment/libs.js:50-87 | the two libraries' rotations are the same matrices applied on opposite sides |
| EnvLibs.RotationSidesDiffer | Environtment/libs.js:58 | for any non-zero sine, some matrix is rotated differently by the two libraries, so they are not interchangeable |
| EnvLibs.PerspectiveMatrix | Environtment/libs.js:89-99 | perspective's matrix is zero except at slots 0, 5, 10, 11 and 14 |
| EnvLibs.PerspectiveEntries | Environtment/libs.js:90-97 | each of the five entries, multiplied back by what was divided out, gives its numerator: f·tan = 1, slot 11 is −1, and so on |
| EnvLibs.Perspective | Environtment/libs.js:89-99 | the zero-filled array with five stores is exactly the perspective matrix |
| EnvLibs.PerspectiveDepthRange | Environtment/libs.js:89-99 | the near plane maps to depth −1 and the far plane to +1 |
| EnvLibs.PerspectiveVersusProjection | Environtment/libs.js:89-109 | perspective and get_projection agree on the depth entries, but get_projection's x and y scales are half of perspective's |
| EnvLibs.GetProjection | Environtment/libs.js:101-109 | this get_projection is the same matrix as the creature library's get_projection |
| EnvLibs.LookAt | Environtment/libs.js:111-132 | lookAt gives an affine view matrix: column 3 is (0, 0, 0, 1) |
| EnvLibs.LookAtAxes | Environtment/libs.js:111-127 | the right, up and view axes in columns 0, 1 and 2 are pairwise orthogonal |
| EnvLibs.Scale | Environtment/libs.js:135-141 | scale returns a new array m·diag(sx, sy, sz, 1) and leaves m alone |
| EnvLibs.ScaleInPlace | Environtment/libs.js:143-147 | scaleInPlace writes m·diag(sx, sy, sz, 1) into m and returns m |
| Mat4.IdentityEntries | libs.js:31-33 | get_I4 has 1 exactly at the diagonal slots 0, 5, 10 and 15 and 0 elsewhere |
| Mat4.MulAt | libs.js:129-141 | entry 4i+j of the product is the sum over k of m1[4i+k]·m2[4k+j] |
| Mat4.MulIdentityLeft | libs.js:129-141 | multiply(get_I4(), m) is m |
| Mat4.MulIdentityRight | libs.js:129-141 | multiply(m, get_I4()) is m |
| Mat4.MulAssoc | libs.js:129-141 | over the reals multiply is associative, so the order in which transforms are combined does not matter |
| SceneGraph.World | Trapinch/myObject.js:54-55 | a node's MODEL_MATRIX is a 4×4 matrix, MOVE·POSITION·PARENT |
| SceneGraph.ChildWorld | Trapinch/myObject.js:54-72 | a child's matrix is its own MOVE·POSITION, then its parent's, then the grandparent matrix: transforms compose down the tree |
| SceneGraph.PartlyAssignedStep | Trapinch/myObject.js:50 | each step of the setup loop changes exactly the next child, into its set-up value |
| SceneGraph.PartlyAssignedEnds | Trapinch/myObject.js:50 | before the setup loop no child is set up; after it every child is |
| SceneGraph.DrawEventsDraw | Trapinch/myObject.js:70 | a node's own render issues exactly one draw, of faces.length indices, as its last GL call |
| SceneGraph.RenderDraws | Trapinch/myObject.js:53-73 | a render of a tree draws once per node, in pre-order (node before children, children in childs order), with each node's index count |
| SceneGraph.RenderChildrenDraws | Trapinch/myObject.js:72 | the children loop draws the children's subtrees one after another in pre-order |
| SceneGraph.PreOrderSize | Trapinch/myObject.js:72 | the pre-order visits every node once, so a render draws as many times as there are nodes |
| SceneGraph.IdentityLocalsKeepParent | Trapinch/myObject.js:19-55 | when every node keeps its identity MOVE and POSITION, every model matrix sent is the parent matrix itself |
| SceneGraph.AlphaOnlyWhenLocated | Trapinch/myObject.js:61-63 | uniform1f is called exactly when the uAlpha location was found, and with the value the alpha rule gives |
| SceneGraph.AlphaRulesDiffer | Vibrava/myObject.js:61 | the Vibrava render passes alpha as it is and the Trapinch render defaults null to 1.0: they differ exactly when alpha is null |
| SceneGraph.DefaultAlphaNeverNull | Trapinch/myObject.js:62 | with the defaulting rule no render ever passes null to uniform1f |
| SceneGraph.HandlesAppend | Trapinch/myObject.js:42-50 | consecutive runs of buffer handles concatenate into one run |
| SceneGraph.SetupEventsCreate | Trapinch/myObject.js:42-46 | a node's own setup creates the next fresh handle for its vertices and the one after it for its faces |
| SceneGraph.SetupCreates | Trapinch/myObject.js:41-51 | setup of a tree creates two buffers per node, numbered consecutively, so all handles are distinct |
| SceneGraph.SetupEventsUpload | Trapinch/myObject.js:44-48 | a node's own setup uploads its vertices as floats and then its faces as Uint16 |
| SceneGraph.SetupUploads | Trapinch/myObject.js:41-51 | setup uploads every node's vertices and indices exactly once, in pre-order |
| WebGl.Gl.CreateBuffer | Trapinch/myObject.js:42-46 | createBuffer hands out a handle never handed out before and logs its creation |
| TrapinchObject.MyObject.constructor | Trapinch/myObject.js:27-39 | a new node holds the given program, locations, vertex and faces, identity POSITION and MOVE, no children, alpha 1.0 and the uAlpha location looked up once |
| TrapinchObject.MyObject.AddChild | Trapinch/createTrapinch.js:273-276 | childs.push appends the child, whose tree joins the node's tree as its last subtree |
| TrapinchObject.MyObject.Render | Trapinch/myObject.js:53-73 | render leaves MODEL_MATRIX equal to MOVE·POSITION·PARENT and issues exactly the render log of the tree the node stands for |
| TrapinchObject.MyObject.RenderEachChild | Trapinch/myObject.js:72 | the render loop issues the children's render logs in childs order |
| TrapinchObject.MyObject.RenderChild | Trapinch/myObject.js:72 | one step of the render loop issues that child's render log |
| TrapinchObject.MyObject.Draw | Trapinch/myObject.js:57-70 | the node's own part of render: program, model matrix, alpha as the rule at line 62 gives it, the two attributes, one draw of faces.length indices |
| TrapinchObject.MyObject.Setup | Trapinch/myObject.js:41-51 | setup assigns each node of the tree its two fresh handles in pre-order, advances the counter by two per node and issues exactly the setup log |
| TrapinchObject.MyObject.CreateBuffers | Trapinch/myObject.js:42-48 | the node's own buffers receive the next two handles, bound and filled with its data |
| TrapinchObject.MyObject.SetupEachChild | Trapinch/myObject.js:50 | the setup loop sets up every child in order, handles continuing from the counter |
| TrapinchObject.MyObject.SetupChild | Trapinch/myObject.js:50 | one step of the setup loop sets up one more child and keeps the earlier ones set up |
| VibravaObject.MyObject.constructor | Vibrava/myObject.js:27-38 | a new node holds the given program, locations, vertex and faces, identity POSITION and MOVE, no children, alpha 1.0 and the uAlpha location looked up once |
| VibravaObject.MyObject.AddChild | Trapinch/createTrapinch.js:273-276 | childs.push appends the child, whose tree joins the node's tree as its last subtree |
| VibravaObject.MyObject.Render | Vibrava/myObject.js:52-74 | render leaves MODEL_MATRIX equal to MOVE·POSITION·PARENT and issues exactly the render log of the tree the node stands for |
| VibravaObject.MyObject.RenderEachChild | Vibrava/myObject.js:73 | the render loop issues the children's render logs in childs order |
| VibravaObject.MyObject.RenderChild | Vibrava/myObject.js:73 | one step of the render loop issues that child's render log |
| VibravaObject.MyObject.Draw | Vibrava/myObject.js:56-71 | the node's own part of render: program, model matrix, alpha as the rule at line 61 gives it, the two attributes, one draw of faces.length indices |
| VibravaObject.MyObject.Setup | Vibrava/myObject.js:40-50 | setup assigns each node of the tree its two fresh handles in pre-order, advances the counter by two per node and issues exactly the setup log |
| VibravaObject.MyObject.CreateBuffers | Vibrava/myObject.js:41-47 | the node's own buffers receive the next two handles, bound and filled with its data |
| VibravaObject.MyObject.SetupEachChild | Vibrava/myObject.js:49 | the setup loop sets up every child in order, handles continuing from the counter |
| VibravaObject.MyObject.SetupChild | Vibrava/myObject.js:49 | one step of the setup loop sets up one more child and keeps the earlier ones set up |
| TipBase.ArgMinY | Flygon/createFlygon.js:546-549 | the chosen vertex has the least y of the first n, and every earlier vertex has a strictly greater y: the first minimum |
| TipBase.ArgMaxY | Flygon/createFlygon.js:550-553 | the chosen vertex has the greatest y of the first n, and every earlier vertex has a strictly smaller y: the first maximum |
| TipBase.Position | Flygon/createFlygon.js:543-545 | the position read for a vertex is its x, y, z, with y the value the comparisons use |
| TipBase.TipBaseFromVertices | Flygon/createFlygon.js:535-556 | an empty buffer gives [0, 0, 0] twice; otherwise tip is the first lowest vertex and base the first highest, and the buffer is only read |
| TipBase.TipBelowBase | Flygon/createFlygon.js:535-563 | tip and base are vertices of the buffer, and every vertex lies between them in y |
| TipBase.FlatBufferPicksFirst | Flygon/createFlygon.js:546-550 | because the comparisons are strict, a buffer with one y everywhere gives its first vertex as both tip and base |
| TipBase.LowStep | Flygon/createFlygon.js:546-549 | vertex k replaces minY and tip exactly when its y is strictly below the running minimum (which starts at +Infinity), and otherwise both stay |
| TipBase.HighStep | Flygon/createFlygon.js:550-553 | vertex k replaces maxY and base exactly when its y is strictly above the running maximum (which starts at -Infinity), and otherwise both stay |
| JsMath.OrNumber | Flygon/BodyParts/Body/FlygonWing.js:8 | the `or` default of options.borderWidth: undefined and an explicit 0 both give the default; every other value is kept, as `??` would keep it |
| JsMath.Truthy | Flygon/BodyParts/Body/FlygonWing.js:7 | `!!options.twoSided` is true exactly when the option is present and true |
| Vectors.CrossOrthogonal | Flygon/BodyParts/Tail/FlygonTail.js:32-38 | cross(a, b) is orthogonal to both a and b |
| Vectors.NormalizeScales | Flygon/BodyParts/Tail/FlygonTail.js:27-30 | normalize divides every coordinate by Math.hypot of the vector: a scaling by the inverse length |
| Vectors.NormalizeOrthogonal | Flygon/BodyParts/Tail/FlygonTail.js:27-50 | normalizing keeps a vector orthogonal to anything it was orthogonal to, so the rebuilt frame stays orthogonal |
| Vectors.NormalizeUnit | Flygon/BodyParts/Tail/FlygonTail.js:27-30 | with a true square root, a normalized nonzero vector has length 1 |
| Mesh.Flatten | Trapinch/BodyParts/Body/TrapinchBody.js:61-64 | the uploaded buffer holds 6 floats per vertex: floats 6k..6k+5 are vertex k's x, y, z, r, g, b |
| Mesh.Uint16Lossless | Trapinch/BodyParts/Body/TrapinchBody.js:88 | `new Uint16Array(faces)` changes nothing when every index is below a vertex count of at most 65536 |
| Mesh.Uint16InRange | Trapinch/BodyParts/Body/TrapinchBody.js:88 | the Uint16 conversion (each index mod 65536) never produces an index that was not already below the vertex count |
| Mesh.GridAt | Trapinch/BodyParts/Body/TrapinchBody.js:45-66 | the nested vertex loops put vertex (i, j) at index i·width + j |
| Mesh.GridColored | Trapinch/BodyParts/Body/TrapinchBody.js:45-66 | when every pushed vertex has colour c, so does every vertex of the grid |
| Mesh.AppendRing | Trapinch/BodyParts/Body/TrapinchBody.js:50-65 | the inner loop appends the ring f(i, 0), …, f(i, width−1) and leaves what was pushed before unchanged |
| Mesh.AppendGrid | Trapinch/BodyParts/Body/TrapinchBody.js:45-66 | the outer loop appends the rings 0 … rings−1 in order |
| Mesh.QuadWithin | Trapinch/BodyParts/Body/TrapinchBody.js:71-82 | the two triangles of a cell use only the vertices first … first + ring + 1 |
| Mesh.RowFacesAt | Trapinch/BodyParts/Body/TrapinchBody.js:70-83 | the quad of column j of a ring sits at indices 6j … 6j+5 of that ring's faces |
| Mesh.GridFacesLength | Trapinch/BodyParts/Body/TrapinchBody.js:69-84 | the face loops push 6·rows·cols indices |
| Mesh.GridFacesRing | Trapinch/BodyParts/Body/TrapinchBody.js:69-84 | the quads of ring i start at index 6·i·cols and their first corner is base + i·(cols+1) |
| Mesh.GridFacesWithin | Trapinch/BodyParts/Body/TrapinchBody.js:69-84 | every face index lies in the grid's own vertices base … base + (rows+1)(cols+1) − 1 |
| Mesh.AppendRowFaces | Trapinch/BodyParts/Body/TrapinchBody.js:70-83 | the inner face loop appends one quad per column |
| Mesh.AppendGridFaces | Trapinch/BodyParts/Body/TrapinchBody.js:69-84 | the face loops append the quads of ring 0, then ring 1, and so on |
| Mesh.GridMeshShape | Trapinch/BodyParts/Body/TrapinchBody.js:45-84 | a grid mesh has (rows+1)(cols+1) vertices and 6·rows·cols indices, each naming one of its vertices |
| Mesh.BuildGridMesh | Trapinch/BodyParts/Body/TrapinchBody.js:44-84 | the vertex loops followed by the face loops build GridMesh |
| Mesh.Typed | Trapinch/BodyParts/Body/TrapinchBody.js:86-89 | the typed-array result keeps the vertices and has as many indices as before |
| Mesh.TypedFaces | Trapinch/BodyParts/Body/TrapinchBody.js:86-89 | the Uint16 faces stay in range, and equal the pushed faces when there are at most 65536 vertices |
| Mesh.TypedGridShape | Trapinch/BodyParts/Body/TrapinchBody.js:44-89 | the typed grid mesh has the grid's counts, in-range indices, and exactly the grid's quads up to 65536 vertices |
| Mesh.FanAt | Trapinch/BodyParts/Head/TrapinchMouth.js:46-58 | triangle j of a cap is (centre, j, j+1), or (centre, j+1, j) for the reversed cap |
| Mesh.FanWithin | Trapinch/BodyParts/Head/TrapinchMouth.js:46-58 | a cap uses only its centre and the rim vertices start … start + n |
| Mesh.AppendFan | Trapinch/BodyParts/Head/TrapinchMouth.js:46-58 | the cap loop appends exactly the n fan triangles |
| Mesh.Mirror | Flygon/BodyParts/Tail/FlygonTailFins.js:120-132 | the back copy has one vertex per front vertex, each the front vertex with z mapped by the back-z rule and x, y and colour kept |
| Mesh.BackFacesAt | Flygon/BodyParts/Tail/FlygonTailFins.js:133-140 | back triangle t is front triangle t shifted by the vertex count, with its 2nd and 3rd corners swapped |
| Mesh.BackFacesWithin | Flygon/BodyParts/Tail/FlygonTailFins.js:133-140 | back faces of front faces within [0, n) lie within the copied block [n, 2n) |
| Mesh.AppendMirror | Flygon/BodyParts/Tail/FlygonTailFins.js:120-132 | the vertex loop, bounded by the count read before it, appends the mirrored copy of the front vertices |
| Mesh.AppendBackFaces | Flygon/BodyParts/Tail/FlygonTailFins.js:133-140 | the face loop, bounded by the face count read before it, appends one back face per front face |
| Mesh.MakeTwoSided | Flygon/BodyParts/Tail/FlygonTailFins.js:119-141 | the two-sided branch builds TwoSided: front vertices and mirror, front faces and back faces |
| Mesh.TwoSidedShape | Flygon/BodyParts/Tail/FlygonTailFins.js:119-141 | two-siding doubles both buffers, keeps the front half unchanged and every index in range; vertex n+k is vertex k mirrored and back triangle t is front triangle t reversed |
| Mesh.TwoSidedTurn | Flygon/BodyParts/Tail/FlygonTailFins.js:133-140 | back triangle t turns the opposite way from front triangle t in the xy-plane, whatever the back-z rule |
| Bezier.PointEnds | Flygon/BodyParts/Body/FlygonBody.js:1-12 | the curve starts at p0 (t = 0) and ends at p3 (t = 1) |
| Bezier.TangentEnds | Flygon/BodyParts/Body/FlygonBody.js:14-20 | the end tangents are 3(p1 − p0) and 3(p3 − p2) |
| Bezier.TangentIsDerivative | Flygon/BodyParts/Body/FlygonBody.js:1-20 | bezierTangent is the exact derivative of bezierPoint: the point at t + h expands in h with linear coefficient the tangent at t |
| Bezier.TailTangentForm | Flygon/BodyParts/Tail/FlygonTail.js:18-25 | the tail's factored tangent is the same polynomial as the body's |
| Bezier.BernsteinWeights | Flygon/BodyParts/Body/FlygonBody.js:2-8 | on [0, 1] the four Bernstein weights are non-negative and the first or the last is positive |
| Bezier.CubicPositive | Flygon/BodyParts/Body/FlygonBody.js:8-10 | on [0, 1] a coordinate whose four control values are positive stays positive |
| Bezier.SweepOffset | Flygon/BodyParts/Body/FlygonBody.js:95-97 | a swept vertex is its centre plus at·cos times the normal plus bt·sin times the binormal |
| TrapinchBody.GenerateTrapinchBody | Trapinch/BodyParts/Body/TrapinchBody.js:40-90 | generateTrapinchBody returns the latitude/longitude ellipsoid in typed arrays |
| TrapinchBody.EllipsoidShape | Trapinch/BodyParts/Body/TrapinchBody.js:40-90 | (latBands+1)(longBands+1) vertices and 6·latBands·longBands indices, each naming a vertex; up to 65536 vertices the Uint16 faces are the grid's quads unchanged |
| TrapinchBody.EllipsoidVertexAt | Trapinch/BodyParts/Body/TrapinchBody.js:45-66 | vertex (lat, long) is stored at index lat·(longBands+1) + long |
| TrapinchBody.EllipsoidColored | Trapinch/BodyParts/Body/TrapinchBody.js:64 | every vertex carries exactly the given colour |
| TrapinchBody.EllipsoidNorthPole | Trapinch/BodyParts/Body/TrapinchBody.js:46-58 | ring 0 is the north pole: each of its vertices is (0, ry, 0) |
| TrapinchBody.EllipsoidFlattened | Trapinch/BodyParts/Body/TrapinchBody.js:56-58 | each axis is scaled by its own radius, so a zero radius flattens that axis to 0 |
| TrapinchEyes.GenerateTrapinchEyes | Trapinch/BodyParts/Head/TrapinchEyes.js:9-48 | generateTrapinchEyes is the Trapinch ellipsoid with all three radii equal to radius |
| TrapinchEyes.PupilPoints | Trapinch/BodyParts/Head/TrapinchEyes.js:61-66 | the star has four tips |
| TrapinchEyes.GenerateTrapinchPupil | Trapinch/BodyParts/Head/TrapinchEyes.js:56-89 | the pupil is the centre then the four tips, all in the one colour, joined by the fan 0-1-2, 0-2-3, 0-3-4, 0-4-1 whose indices are all in range |
| TrapinchHead.GenerateTrapinchHead | Trapinch/BodyParts/Head/TrapinchHead.js:11-53 | generateTrapinchHead is the Trapinch body ellipsoid under other parameter names |
| TrapinchHead.GenerateTrapinchEyes2 | Trapinch/BodyParts/Head/TrapinchEyes2.js:11-50 | generateTrapinchEyes2 is the same ellipsoid, each axis scaled by its own radius |
| TrapinchHeadCracks.SampleInFront | Trapinch/BodyParts/Head/TrapinchHeadCracks.js:49-54 | every sample of a path in front of the head is in front of it, so its projection is defined |
| TrapinchHeadCracks.ProjectedInFront | Trapinch/BodyParts/Head/TrapinchHeadCracks.js:29-43 | projecting a point in front of the head keeps it in front and away from the origin |
| TrapinchHeadCracks.CrackVertices | Trapinch/BodyParts/Head/TrapinchHeadCracks.js:49-67 | one path pushes two rail vertices per sample, 2(segments+1) in all |
| TrapinchHeadCracks.CrackVerticesStep | Trapinch/BodyParts/Head/TrapinchHeadCracks.js:49-67 | after sample i the rails pushed are those of the earlier samples followed by both rails of sample i |
| TrapinchHeadCracks.StripFaces | Trapinch/BodyParts/Head/TrapinchHeadCracks.js:70-73 | a path's strip has 6 indices per segment |
| TrapinchHeadCracks.CreateCrackLine | Trapinch/BodyParts/Head/TrapinchHeadCracks.js:46-74 | createCrackLine appends the path's rails to the shared vertices and its strip, starting at the old vertex count, to the shared faces |
| TrapinchHeadCracks.GenerateTrapinchHeadCracks | Trapinch/BodyParts/Head/TrapinchHeadCracks.js:4-164 | crackPaths.forEach(createCrackLine) builds HeadCracks |
| TrapinchHeadCracks.PathsInFront | Trapinch/BodyParts/Head/TrapinchHeadCracks.js:77-153 | there are fifteen paths, all in front of the head, each starting where the previous one ends |
| TrapinchHeadCracks.ProjectOnSurface | Trapinch/BodyParts/Head/TrapinchHeadCracks.js:29-43 | projectOntoHead puts every point other than the origin on the head ellipsoid x² + y²/0.9² + z²/1.2² = 1 |
| TrapinchHeadCracks.NormScale | Trapinch/BodyParts/Head/TrapinchHeadCracks.js:31-35 | scaling a point by k scales the radicand by k² |
| TrapinchHeadCracks.LiftScales | Trapinch/BodyParts/Head/TrapinchHeadCracks.js:57-60 | the outward offset multiplies all three coordinates by one factor greater than 1 |
| TrapinchHeadCracks.RailsApart | Trapinch/BodyParts/Head/TrapinchHeadCracks.js:63-66 | the two rails of a sample differ only in x, by 2·0.01·thickness |
| TrapinchHeadCracks.StripFacesAt | Trapinch/BodyParts/Head/TrapinchHeadCracks.js:70-73 | strip quad i is (b, b+1, b+2), (b+1, b+3, b+2) with b = start + 2i |
| TrapinchHeadCracks.StripWithin | Trapinch/BodyParts/Head/TrapinchHeadCracks.js:47-73 | a path's strip indexes only that path's own 2(segments+1) vertices |
| TrapinchHeadCracks.CracksShape | Trapinch/BodyParts/Head/TrapinchHeadCracks.js:156 | after k paths there are 2k(segments+1) vertices and 6k·segments indices, every index in range |
| TrapinchHeadCracks.HeadCracksShape | Trapinch/BodyParts/Head/TrapinchHeadCracks.js:4-164 | in all 30(segments+1) vertices and 90·segments indices, every index in range |
| TrapinchHeadCracks.CracksColored | Trapinch/BodyParts/Head/TrapinchHeadCracks.js:64-65 | every vertex carries the colour |
| TrapinchLeg.GenerateTrapinchLegs | Trapinch/BodyParts/Legs/TrapinchLeg.js:10-67 | generateTrapinchLegs returns Leg in typed arrays |
| TrapinchLeg.LegShape | Trapinch/BodyParts/Legs/TrapinchLeg.js:10-67 | (segments+1)(radialSegments+1) vertices and 6·segments·radialSegments indices, all in range |
| TrapinchLeg.LegEnds | Trapinch/BodyParts/Legs/TrapinchLeg.js:15-38 | the first ring is centred on the hip (0, 0, 0) and the last on the foot (0, −0.5, 0) |
| TrapinchLeg.LegVertexAt | Trapinch/BodyParts/Legs/TrapinchLeg.js:36-50 | vertex (i, j) is stored at index i·(radialSegments+1) + j |
| TrapinchLeg.LegVertexOnRing | Trapinch/BodyParts/Legs/TrapinchLeg.js:42-45 | each vertex has its ring centre's y (rings are horizontal, not perpendicular to the curve) and lies at distance radius from that centre |
| TrapinchLeg.LegColored | Trapinch/BodyParts/Legs/TrapinchLeg.js:48 | every vertex carries the colour |
| TrapinchMouth.Rings | Trapinch/BodyParts/Head/TrapinchMouth.js:15-30 | the two rings hold 2(radialSegments+1) vertices |
| TrapinchMouth.PushMouthFaces | Trapinch/BodyParts/Head/TrapinchMouth.js:33-58 | the side loop and the two cap loops push the side quads, the top fan and the reversed bottom fan |
| TrapinchMouth.PushMouthRings | Trapinch/BodyParts/Head/TrapinchMouth.js:15-30 | the ring loops push Rings |
| TrapinchMouth.GenerateTrapinchMouth | Trapinch/BodyParts/Head/TrapinchMouth.js:10-64 | generateTrapinchMouth returns Mouth in typed arrays, with the cap centres at the indices the vertex count gives |
| TrapinchMouth.MouthFacesInRange | Trapinch/BodyParts/Head/TrapinchMouth.js:33-58 | 6·rs side indices and 3·rs per cap, 12·rs in all, every index below 2·rs + 4 |
| TrapinchMouth.MouthShape | Trapinch/BodyParts/Head/TrapinchMouth.js:10-64 | 2·rs + 4 vertices and 12·rs indices, all in range, before and after the Uint16 conversion |
| TrapinchMouth.MouthVertices | Trapinch/BodyParts/Head/TrapinchMouth.js:15-53 | ring 0 lies at y = −height/2 with topRadius, ring 1 at +height/2 with bottomRadius; the top-cap centre is (0, −height/2, 0) and the bottom-cap centre (0, height/2, 0) |
| TrapinchMouth.MouthCaps | Trapinch/BodyParts/Head/TrapinchMouth.js:46-58 | cap triangle j is (topCenter, j, j+1) in the top fan and (bottomCenter, rs+1+j+1, rs+1+j) in the bottom fan, wound the other way |
| TrapinchMouth.MouthColored | Trapinch/BodyParts/Head/TrapinchMouth.js:28-53 | every vertex, cap centres included, carries the colour |
| TrapinchNeck.GenerateTrapinchNeck | Trapinch/BodyParts/Neck/TrapinchNeck.js:13-61 | generateTrapinchNeck returns Neck in typed arrays |
| TrapinchNeck.NeckShape | Trapinch/BodyParts/Neck/TrapinchNeck.js:13-61 | (heightSegments+1)(radialSegments+1) vertices and 6·heightSegments·radialSegments indices, all in range |
| TrapinchNeck.NeckVertexAt | Trapinch/BodyParts/Neck/TrapinchNeck.js:18-44 | vertex (i, j) is at index i·(radialSegments+1) + j, at its ring's height, offset from the axis by radius·(cos, 0, sin), in the colour |
| TrapinchNeck.NeckEnds | Trapinch/BodyParts/Neck/TrapinchNeck.js:19-20 | the rings run from y = −height/2 to y = +height/2 |
| TrapinchNeck.NeckProfile | Trapinch/BodyParts/Neck/TrapinchNeck.js:24-31 | the radius is radiusTop at the top, radiusMiddle halfway and radiusBottom at the bottom, and never below radiusMiddle when that is the smallest |
| TrapinchNeck.NeckColored | Trapinch/BodyParts/Neck/TrapinchNeck.js:42 | every vertex carries the colour |
| TrapinchHeadCracks.NormPositive | Trapinch/BodyParts/Head/TrapinchHeadCracks.js:31-35 | a point off the plane z = 0 has a positive radicand, so projectOntoHead never divides by zero for it |
| FlygonEllipsoid.BuildEllipsoid | Flygon/BodyParts/FlygonBelly.js:6-34 | the shared ellipsoid loops build Ellipsoid, each vertex coloured by the generator's paint rule |
| FlygonEllipsoid.SourceQuadIsDiagonal | Flygon/BodyParts/FlygonBelly.js:26-32 | the (first, second, fourth), (first, fourth, third) corners are the same two triangles as the arm's (first, first+1, second+1), (first, second+1, second) quad |
| FlygonEllipsoid.EllipsoidShape | Flygon/BodyParts/FlygonBelly.js:6-34 | (stacks+1)(steps+1) vertices and 6·stacks·steps indices, each naming a vertex, quad by quad in the source's order |
| FlygonEllipsoid.EllipsoidVertexAt | Flygon/BodyParts/FlygonBelly.js:6-21 | vertex j of ring i is stored at index i·(steps+1) + j with its colour painted from its own position |
| FlygonEllipsoid.EllipsoidPainted | Flygon/BodyParts/FlygonBelly.js:16-19 | every vertex's colour is the paint rule applied to its position |
| FlygonEllipsoid.EllipsoidPole | Flygon/BodyParts/FlygonBelly.js:7-14 | ring 0 collapses to the pole (0, 0, c) |
| FlygonEllipsoid.OnEllipsoid | Flygon/BodyParts/FlygonBelly.js:12-14 | every vertex is a unit-sphere point scaled by (a, b, c), so it lies on the ellipsoid with those semi-axes |
| FlygonBelly.GenerateFlygonBelly | Flygon/BodyParts/FlygonBelly.js:2-37 | generateFlygonBelly builds the shared ellipsoid with every vertex in the belly colour |
| FlygonBelly.BellyShape | Flygon/BodyParts/FlygonBelly.js:2-37 | (stacks+1)(steps+1) vertices, 6·stacks·steps in-range indices, all in the belly colour |
| FlygonBody.RadiusProfile | Flygon/BodyParts/Body/FlygonBody.js:27-59 | radiusProfile never goes below 0.12 and equals the raw profile wherever that is at least 0.12 |
| FlygonBody.GenerateFlygonBodyBezier | Flygon/BodyParts/Body/FlygonBody.js:22-117 | the sweep and face loops build Body |
| FlygonBody.BodyShape | Flygon/BodyParts/Body/FlygonBody.js:61-114 | (stacks+1)(slices+1) vertices, 6·stacks·slices indices each naming a vertex, in the arm's quad order |
| FlygonBody.BodyVertexAt | Flygon/BodyParts/Body/FlygonBody.js:61-104 | vertex j of ring i is stored at index i·(slices+1) + j |
| FlygonBody.BodyColored | Flygon/BodyParts/Body/FlygonBody.js:102 | every body vertex has the one pale-green colour |
| FlygonBody.NormalOrthogonal | Flygon/BodyParts/Body/FlygonBody.js:79-84 | the normal binormal × tangent is (−ty, tx, 0), orthogonal to both the tangent and the fixed binormal |
| FlygonBody.RingAtIs | Flygon/BodyParts/Body/FlygonBody.js:62-89 | ring i is centred on the curve point at t = i/stacks, with normal built from the unit tangent there and scale radiusProfile(t) |
| FlygonBody.RingOffset | Flygon/BodyParts/Body/FlygonBody.js:91-97 | every ring vertex is its centre moved by a·k·cos u along the normal and b·k·sin u along the binormal |
| FlygonBody.BodyVertexOffset | Flygon/BodyParts/Body/FlygonBody.js:61-97 | vertex j of ring i is vertex j of ring frame i with semi-axes a and b |
| FlygonBody.BodyEnds | Flygon/BodyParts/Body/FlygonBody.js:62-65 | the first ring is centred on p0 and the last on p3 |
| FlygonArm.GenerateArmSegment | Flygon/BodyParts/Arms/FlygonArm.js:4-32 | the arm loops build ArmSegment, with 24 stacks and 24 slices when the caller leaves them out |
| FlygonArm.ArmSegmentShape | Flygon/BodyParts/Arms/FlygonArm.js:4-32 | (stacks+1)(slices+1) vertices, 6·stacks·slices indices each naming a vertex, every vertex in the one colour |
| FlygonArm.ArmVertexAt | Flygon/BodyParts/Arms/FlygonArm.js:8-20 | vertex j of ring i is stored at index i·(slices+1) + j |
| FlygonArm.ArmTaper | Flygon/BodyParts/Arms/FlygonArm.js:9-17 | the shoulder ring is the (a0, b0) ellipse at y = 0, the last ring the (a1, b1) ellipse at y = length, and rings rise strictly when length > 0 |
| FlygonArm.ArmOnEllipse | Flygon/BodyParts/Arms/FlygonArm.js:10-17 | every vertex of ring i lies on that ring's interpolated ellipse |
| FlygonArm.BuildHand | Flygon/BodyParts/Arms/FlygonArm.js:39-58 | the hand's vertex and face loops build Hand |
| FlygonArm.GenerateHandEllipsoid | Flygon/BodyParts/Arms/FlygonArm.js:35-61 | generateHandEllipsoid builds Hand with 14 stacks, 20 slices and the arm colour by default |
| FlygonArm.ClawIsHand | Flygon/BodyParts/Arms/FlygonArm.js:65-95 | the claw is exactly the hand ellipsoid on the axes (0.85·radius, length/2, radius) |
| FlygonArm.GenerateClaw | Flygon/BodyParts/Arms/FlygonArm.js:65-95 | generateClaw builds Claw with 12 stacks, 20 slices and white by default |
| FlygonArm.HandShape | Flygon/BodyParts/Arms/FlygonArm.js:35-61 | (stacks+1)(slices+1) vertices, 6·stacks·slices in-range indices, one colour |
| FlygonArm.HandVertexAt | Flygon/BodyParts/Arms/FlygonArm.js:39-49 | vertex j of ring i is stored at index i·(slices+1) + j |
| FlygonArm.HandOnEllipsoid | Flygon/BodyParts/Arms/FlygonArm.js:40-46 | every hand vertex is a unit-sphere point scaled by (rx, ry, rz), so it lies on that ellipsoid |
| FlygonArm.HandPole | Flygon/BodyParts/Arms/FlygonArm.js:40-46 | ring 0 collapses to the pole (0, ry, 0) |
| FlygonArm.ClawShape | Flygon/BodyParts/Arms/FlygonArm.js:65-95 | the claw has the grid's counts and in-range indices, its first ring is the tip (0, length/2, 0) and its vertices have the claw colour |
| FlygonArm.ClawSpan | Flygon/BodyParts/Arms/FlygonArm.js:76-78 | the claw's y runs over exactly [−length/2, length/2], from the first ring at the top to the last at the bottom |
| FlygonArm.ClawVertexAt | Flygon/BodyParts/Arms/FlygonArm.js:75-85 | ring i of the claw is the block of slices+1 vertices from index i·(slices+1) |
| FlygonEyes.GenerateFlygonEyes | Flygon/BodyParts/Head/Eyes/FlygonEyes.js:1-2 | generateFlygonEyes is the hand ellipsoid with 14 stacks, 20 slices and red by default |
| FlygonEyes.DefaultEyes | Flygon/BodyParts/Head/Eyes/FlygonEyes.js:1-2 | with every default the eye has 15·21 vertices and 6·14·20 in-range indices, all red |
| FlygonFeet.GenerateFlygonFeet | Flygon/BodyParts/Legs/FlygonFeet.js:2-42 | generateFlygonFeet builds the shared ellipsoid with the claw colouring rule |
| FlygonFeet.FeetShape | Flygon/BodyParts/Legs/FlygonFeet.js:2-42 | the grid's counts and in-range indices, and each vertex is dark green exactly when its own z exceeds 0.7·c, light otherwise |
| FlygonFeet.FeetTip | Flygon/BodyParts/Legs/FlygonFeet.js:12-20 | the first ring is the tip (0, 0, c), and it is dark green whenever c > 0 |
| FlygonHorn.HornRow | Flygon/BodyParts/Head/FlygonHorn.js:39-49 | the first n quads between two rings hold 6n indices |
| FlygonHorn.HornFaces | Flygon/BodyParts/Head/FlygonHorn.js:38-50 | the ring quads hold 6·rows·slices indices |
| FlygonHorn.TipFan | Flygon/BodyParts/Head/FlygonHorn.js:65-70 | the first n tip triangles hold 3n indices |
| FlygonHorn.AppendHornRow | Flygon/BodyParts/Head/FlygonHorn.js:39-49 | the inner index loop appends the quads of one ring pair |
| FlygonHorn.AppendTipFan | Flygon/BodyParts/Head/FlygonHorn.js:65-70 | the tip loop appends exactly the fan triangles |
| FlygonHorn.GenerateCurvedHornFlat | Flygon/BodyParts/Head/FlygonHorn.js:2-77 | generateCurvedHorn_flat returns the horn in typed arrays; any extra argument is ignored |
| FlygonHorn.HornRowWithin | Flygon/BodyParts/Head/FlygonHorn.js:40-48 | every corner of a ring pair's quads names a vertex of those two rings |
| FlygonHorn.HornFacesInRange | Flygon/BodyParts/Head/FlygonHorn.js:38-50 | every ring index names one of the (rows+1)·slices ring vertices |
| FlygonHorn.TipFanWithin | Flygon/BodyParts/Head/FlygonHorn.js:64-70 | the tip triangles use only last-ring vertices and the tip |
| FlygonHorn.HornShape | Flygon/BodyParts/Head/FlygonHorn.js:2-77 | (steps+1)·slices ring vertices plus the tip exactly when radiusTip > 0.0001; 6·steps·slices ring indices plus 3·slices for the fan; all indices in range and kept by the Uint16 conversion up to 65536 vertices |
| FlygonHorn.HornQuadAt | Flygon/BodyParts/Head/FlygonHorn.js:38-50 | quad j between rings i and i+1 is the 6 indices from 6·(i·slices + j) |
| FlygonHorn.SeamCloses | Flygon/BodyParts/Head/FlygonHorn.js:40-48 | the last quad of every row wraps to the first vertex of both rings, with no duplicated seam vertex; every other quad takes the next vertex |
| FlygonHorn.HornRingAt | Flygon/BodyParts/Head/FlygonHorn.js:11-35 | the ring vertices come first, in ring order, whether or not there is a tip |
| FlygonHorn.HornRing | Flygon/BodyParts/Head/FlygonHorn.js:11-35 | vertex j of ring i is at index i·slices + j, has the horn colour and the arc point's y, and lies on the circle of the ring's radius about that point |
| FlygonHorn.RadiusEnds | Flygon/BodyParts/Head/FlygonHorn.js:20 | the radius tapers from radiusBase at the first ring to radiusTip at the last |
| FlygonHorn.HornTip | Flygon/BodyParts/Head/FlygonHorn.js:53-71 | above the threshold the tip vertex is at index (steps+1)·slices and tip triangle j is (base + j, base + (j+1) mod slices, tip); otherwise nothing follows the rings |
| FlygonHorn.TipOnPath | Flygon/BodyParts/Head/FlygonHorn.js:56-59 | the tip vertex lies on the arc point at t = 1 |
| FlygonHorn.TipFanAt | Flygon/BodyParts/Head/FlygonHorn.js:65-70 | tip triangle j is (base + j, base + (j+1) mod slices, tip) |
| FlygonHorn.CreateFlygonHorn | Flygon/createFlygon.js:31 | the horn createFlygon builds has 199 vertices and 1122 indices, all in range and unchanged by the Uint16 conversion |
| FlygonTail.InitialNormal | Flygon/BodyParts/Tail/FlygonTail.js:47-48 | the first normal guess is world x when the start tangent's y exceeds 0.9 in size, and world up otherwise |
| FlygonTail.GenerateFlygonTailBezier | Flygon/BodyParts/Tail/FlygonTail.js:1-118 | the ring loop, carrying prevTangent, normal and binormal from ring to ring, builds Tail, whose ring i uses the frame reached after i steps |
| FlygonTail.Step | Flygon/BodyParts/Tail/FlygonTail.js:58-80 | one frame update gives the unit tangent at t and the normal and binormal turned by Rodrigues' formula when the turn passes the threshold, kept otherwise |
| FlygonTail.RingsAgree | Flygon/BodyParts/Tail/FlygonTail.js:90-104 | the ring the loop pushes with its carried frame equals the specified ring i |
| FlygonTail.TailShape | Flygon/BodyParts/Tail/FlygonTail.js:55-115 | (stacks+1)(slices+1) vertices and 6·stacks·slices indices each naming a vertex, in the body's quad order |
| FlygonTail.TailVertexAt | Flygon/BodyParts/Tail/FlygonTail.js:55-105 | vertex j of ring i is stored at index i·(slices+1) + j and has ring i's stripe colour |
| FlygonTail.StripeIsQuotient | Flygon/BodyParts/Tail/FlygonTail.js:87-88 | floor(i / (stacks/6)) is the integer quotient 6i div stacks, so the tail has stripes 0 to 6 |
| FlygonTail.RadiusTapers | Flygon/BodyParts/Tail/FlygonTail.js:41-84 | the taper is 1 at the base and 0.1 at the tip and falls strictly along the tail |
| FlygonTail.StartFrameOrthogonal | Flygon/BodyParts/Tail/FlygonTail.js:46-50 | the start frame's normal and binormal are orthogonal to the tangent and to each other |
| FlygonTail.AdvanceCases | Flygon/BodyParts/Tail/FlygonTail.js:61-80 | a step keeps the frame unless the tangent turned past 1e-6; a turned frame's binormal is orthogonal to the new tangent and normal |
| FlygonTail.FrameAxesOrthogonal | Flygon/BodyParts/Tail/FlygonTail.js:46-80 | every frame the loop uses has its normal orthogonal to its binormal |
| FlygonTail.FirstRingKeepsStart | Flygon/BodyParts/Tail/FlygonTail.js:46-80 | the first ring keeps the start frame, since its tangent has not turned |
| FlygonTail.TailVertexOffset | Flygon/BodyParts/Tail/FlygonTail.js:95-99 | each vertex is its ring centre plus a·k·cos u along the ring normal and b·k·sin u along its binormal |
| FlygonTail.TailEnds | Flygon/BodyParts/Tail/FlygonTail.js:55-99 | ring 0 is centred on p0 with the full semi-axes and the last ring on p3 with a tenth of them |
| FlygonTailFins.Resolve | Flygon/BodyParts/Tail/FlygonTailFins.js:4-11 | twoSided holds exactly when the option is true; an absent colour takes its default and a given one is kept; an absent borderWidth, spreadDeg or sideSeparation takes 0.3, 25 or 0.3·size, and a given one, 0 included, is kept, as `??` keeps it |
| FlygonTailFins.InnerRing | Flygon/BodyParts/Tail/FlygonTailFins.js:44-50 | the inner diamond has five points: centre, top, right, bottom, left |
| FlygonTailFins.OuterRing | Flygon/BodyParts/Tail/FlygonTailFins.js:53-58 | the outer diamond has four points: top, right, bottom, left |
| FlygonTailFins.FinVertices | Flygon/BodyParts/Tail/FlygonTailFins.js:64-85 | one fin appends 14 vertices |
| FlygonTailFins.FinFaces | Flygon/BodyParts/Tail/FlygonTailFins.js:88-107 | one fin appends 36 indices |
| FlygonTailFins.FinFacesWithin | Flygon/BodyParts/Tail/FlygonTailFins.js:88-107 | a fin's faces use only its own 14 vertices |
| FlygonTailFins.AddSingleFin | Flygon/BodyParts/Tail/FlygonTailFins.js:29-108 | addSingleFin appends the fin's vertices by its three forEach loops, then its faces offset by the vertex count it started at |
| FlygonTailFins.FinsUpTo | Flygon/BodyParts/Tail/FlygonTailFins.js:113-117 | after k fins the buffers hold 14k vertices and 36k indices, all in range |
| FlygonTailFins.GenerateFlygonTailFins | Flygon/BodyParts/Tail/FlygonTailFins.js:2-144 | generateFlygonTailFins builds TailFins, with size 1 when it is left out |
| FlygonTailFins.TailFinsShape | Flygon/BodyParts/Tail/FlygonTailFins.js:110-143 | one-sided: 42 vertices and 108 indices, fin k within its own block of 14; two-sided: 84 and 216, the back half mirrored to z ↦ −z − 0.0015 |
| FlygonTailFins.FinBlocks | Flygon/BodyParts/Tail/FlygonTailFins.js:113-117 | fin k's faces are the 36 indices from 36k and index only that fin's vertices |
| FlygonTailFins.FinDepths | Flygon/BodyParts/Tail/FlygonTailFins.js:44-85 | inner vertices and their red copies lie at zStack + 0.02 and the outer ring at zStack − 0.02: turning never changes z |
| FlygonTailFins.FinColorsAt | Flygon/BodyParts/Tail/FlygonTailFins.js:65-85 | vertex 0 has the centre colour, vertices 1 to 4 the mid colour, and the red copy and rim the edge colour |
| FlygonTailFins.CentreFinDiamond | Flygon/BodyParts/Tail/FlygonTailFins.js:37-113 | the centre fin's outer diamond is twice as tall as it is wide, and its inner diamond is the outer one scaled by 1 − borderWidth |
| FlygonThigh.GenerateFlygonThigh | Flygon/BodyParts/Legs/FlygonThigh.js:2-42 | generateFlygonThigh builds the shared ellipsoid in the colour `inner` selects |
| FlygonThigh.ThighShape | Flygon/BodyParts/Legs/FlygonThigh.js:2-42 | the grid's counts and in-range indices, every vertex outer green when inner is false and inner green when it is true |
| FlygonThigh.ThighPole | Flygon/BodyParts/Legs/FlygonThigh.js:6-16 | the first ring collapses to (0, 0, c) |
| FlygonWing.Resolve | Flygon/BodyParts/Body/FlygonWing.js:4-8 | twoSided holds exactly when the option is true; borderWidth falls back to 0.2 when absent and also when it is 0; an absent colour takes its default and a given one is kept |
| FlygonWing.InnerVerts | Flygon/BodyParts/Body/FlygonWing.js:14-20 | the inner diamond has five points |
| FlygonWing.OuterVerts | Flygon/BodyParts/Body/FlygonWing.js:31-36 | the outer diamond has four points |
| FlygonWing.FrontVertices | Flygon/BodyParts/Body/FlygonWing.js:40-51 | the front wing has nine vertices |
| FlygonWing.GenerateFlygonWing | Flygon/BodyParts/Body/FlygonWing.js:2-116 | generateFlygonWing, with the back-face loop bounded by the 36 front indices, builds Wing, with size 1 by default |
| FlygonWing.PushVertices | Flygon/BodyParts/Body/FlygonWing.js:40-51 | the two vertex loops push the five inner vertices in their colours and then the four outer ones in the edge colour |
| FlygonWing.PushFaces | Flygon/BodyParts/Body/FlygonWing.js:54-86 | the five faces.push calls produce the 36 front indices |
| FlygonWing.AsWrittenPasses | Flygon/BodyParts/Body/FlygonWing.js:106-112 | after n passes of the loop as written, faces has grown by 3n, i is 3n, i is still below faces.length, and the front faces are untouched |
| FlygonWing.AsWrittenPrefix | Flygon/BodyParts/Body/FlygonWing.js:106-112 | during its first faces.length/3 passes the loop as written appends exactly the intended back faces |
| FlygonWing.AsWrittenNeverStops | Flygon/BodyParts/Body/FlygonWing.js:105-112 | on the wing the loop has built the intended two-sided faces after 12 passes, yet its guard still holds then and after every number of passes: it never terminates |
| FlygonWing.WingShape | Flygon/BodyParts/Body/FlygonWing.js:2-116 | one-sided: 9 vertices and 36 indices below 9; two-sided: 18 and 72 below 18, vertex 9+k being vertex k at z = −0.001 and back face t front face t shifted by 9 with two corners swapped |
| FlygonWing.FrontColorsAndDepth | Flygon/BodyParts/Body/FlygonWing.js:14-51 | vertex 0 has the centre colour, 1 to 4 the mid colour, 5 to 8 the edge colour, and all lie at z = 0 |
| FlygonWing.DiamondTips | Flygon/BodyParts/Body/FlygonWing.js:14-36 | the outer diamond is (0, size/2), (size/2, 0), (0, −2size), (−size/2, 0); the inner top and right tips sit size·borderWidth inside, while the inner bottom tip is the outer one scaled by 1 − borderWidth |
| FlygonWing.FrontClockwise | Flygon/BodyParts/Body/FlygonWing.js:54-86 | for a positive size and a border width in (0, 1/2) every front triangle turns clockwise seen from +z: the front is consistently wound |
| FlygonWing.BackTriangle | Flygon/BodyParts/Body/FlygonWing.js:95-111 | each back triangle turns the opposite way from its front triangle |
| FlygonWing.BackCounterClockwise | Flygon/BodyParts/Body/FlygonWing.js:89-113 | in the two-sided wing every back triangle turns counter-clockwise seen from +z, that is clockwise seen from behind |
| FlygonWing.FrontCorners | Flygon/BodyParts/Body/FlygonWing.js:40-51 | for a positive size and a border width in (0, 1/2) the nine vertices are the origin and two nested diamonds, the inner one strictly inside the outer |
| VibravaBadan.Resolve | Vibrava/badan.js:3-5 | each argument left out takes its default: len 1.2, rFront 0.22, rBack 0.05, 120 stacks, 48 radial |
| VibravaBadan.Clamp01 | Vibrava/badan.js:22 | the result lies in [0, 1], is the input inside it, 0 below it and 1 above it |
| VibravaBadan.Smooth | Vibrava/badan.js:23 | smoothstep stays in [0, 1], is 0 up to x = 0 and 1 from x = 1 on |
| VibravaBadan.SmoothStepBounds | Vibrava/badan.js:23 | s²(3 − 2s) stays in [0, 1] for s in [0, 1] |
| VibravaBadan.Nearest | Vibrava/badan.js:40-41 | the distance to the nearest band centre, starting from 1, lies in [0, 1] |
| VibravaBadan.NearestIsMin | Vibrava/badan.js:40-41 | the loop's d is a minimum: no more than the distance to any centre seen, and equal to 1 or to one of those distances |
| VibravaBadan.Mix | Vibrava/badan.js:43-45 | the blend is the stripe channel where the mask is 0 and the body channel where it is 1 |
| VibravaBadan.ColorAt | Vibrava/badan.js:39-53 | every channel of a ring colour is at most 1 |
| VibravaBadan.Tinted | Vibrava/badan.js:43-52 | the blended and lifted colour is cut off at 1 in every channel |
| VibravaBadan.GetColorAt | Vibrava/badan.js:39-53 | getColorAt(t), loop and blend, computes ColorAt(t) |
| VibravaBadan.BandColor | Vibrava/badan.js:42-52 | once d is known the blend gives the tinted colour for the mask of d and the highlight of t |
| VibravaBadan.NearestBand | Vibrava/badan.js:40-41 | the min loop over the seven band centres computes Nearest over all of them |
| VibravaBadan.ColorOnBand | Vibrava/badan.js:39-53 | on a band centre the ring has the stripe colour plus the highlight, cut off at 1 |
| VibravaBadan.NearestAtCenter | Vibrava/badan.js:40-41 | on a band centre the nearest distance is 0 |
| VibravaBadan.StripeColored | Vibrava/badan.js:42-52 | at distance 0 the colour is the stripe colour plus the highlight |
| VibravaBadan.MaskOnBand | Vibrava/badan.js:42 | at distance 0 the stripe mask is 0 |
| VibravaBadan.ColorOffBands | Vibrava/badan.js:39-53 | half a band width or more from every centre the ring has the body colour plus the highlight |
| VibravaBadan.MaskOffBands | Vibrava/badan.js:42 | half a band width or more from every centre the stripe mask is 1 |
| VibravaBadan.Fraction | Vibrava/badan.js:90 | t is 0 at the head ring and 1 at the tail ring |
| VibravaBadan.BendProgress | Vibrava/badan.js:98 | u is 0 up to bendStartT and 1 at the tail |
| VibravaBadan.Theta | Vibrava/badan.js:98-99 | no bend in front of bendStartT, the whole −25° arc at the tail |
| VibravaBadan.GenerateBadanVibrava | Vibrava/badan.js:3-239 | generateBadanVibrava with its defaults applied returns Badan |
| VibravaBadan.BuildBadanVertices | Vibrava/badan.js:55-163 | the vertex loops push the head centre, head cap, body, tail cap and tail centre, and leave bodyStart, tailCapStart and tailCenterIdx where the layout puts them |
| VibravaBadan.PushHeadCap | Vibrava/badan.js:65-81 | the head-cap loops append the 12 head rings |
| VibravaBadan.PushBody | Vibrava/badan.js:89-117 | the body loops append the stacks+1 body rings |
| VibravaBadan.PushTailCap | Vibrava/badan.js:136-155 | the tail-cap loops append the 12 tail rings |
| VibravaBadan.BuildBadanFaces | Vibrava/badan.js:165-236 | the seven face loops, given the indices the vertex loops left, push BadanFaces |
| VibravaBadan.BadanFacesStrip | Vibrava/badan.js:168-236 | the five quad loops join into one unbroken strip of stacks + 24 rows between the head fan and the reversed tail fan |
| VibravaBadan.BadanShape | Vibrava/badan.js:3-239 | 2 + (stacks+25)(radial+1) vertices with the tail centre last, and 6·radial·(stacks+25) indices, every one naming a vertex |
| VibravaBadan.BadanVertexCount | Vibrava/badan.js:60-163 | the head centre, 12 + stacks + 1 + 12 rings and the tail centre; tailCenterIdx is the last index |
| VibravaBadan.BadanFaceCount | Vibrava/badan.js:165-236 | 6·radial·(stacks+25) indices |
| VibravaBadan.StripEnd | Vibrava/badan.js:163-230 | the strip's rings run from vertex 1 up to the tail centre |
| VibravaBadan.BadanFacesInRange | Vibrava/badan.js:165-236 | every face index names a vertex |
| VibravaBadan.BadanEnds | Vibrava/badan.js:62-163 | index 0 is the head centre and the tail centre comes last |
| VibravaBadan.BadanLayout | Vibrava/badan.js:87-117 | vertex j of body ring i sits at bodyStart + i(radial+1) + j, before the tail cap |
| VibravaBadan.BendKeepsPivotDistance | Vibrava/badan.js:110-112 | the bend is a rotation about (pivotX, 0): it keeps the distance to the pivot and z |
| VibravaBadan.FrontUnbent | Vibrava/badan.js:35-112 | a body ring at t ≤ bendStartT is not moved by the bend |
| VibravaBadan.BodyBendIsRotation | Vibrava/badan.js:104-115 | every body vertex is its unbent point rotated about (pivotX, 0) |
| VibravaBadan.TailThetaIsArc | Vibrava/badan.js:127-128 | the tail cap is bent by the whole arc, the same as the last body ring |
| VibravaBadan.HeadCapOnEllipsoid | Vibrava/badan.js:65-80 | head-cap vertices lie on the ellipsoid about the head centre with semi-axes (headRadius, headRadius, 0.78·headRadius) |
| VibravaBadan.ShadeRange | Vibrava/badan.js:78-152 | the shade lies in [0.9, 1] |
| VibravaBadan.ShadedAtMostOne | Vibrava/badan.js:79-153 | a colour at most 1 per channel, scaled by a shade in (0, 1], stays at most 1 |
| VibravaBadan.BadanColorsAtMostOne | Vibrava/badan.js:62-162 | every vertex colour channel is at most 1 |
| VibravaBadan.ShadedColorAtMostOne | Vibrava/badan.js:79-153 | a ring vertex shaded from a colour at most 1 stays at most 1 |
| VibravaBadan.HeadRingsAtMostOne | Vibrava/badan.js:65-81 | every head-cap vertex colour is at most 1 per channel |
| VibravaBadan.BodyRingsAtMostOne | Vibrava/badan.js:89-117 | every body vertex colour is at most 1 per channel |
| VibravaBadan.TailRingsAtMostOne | Vibrava/badan.js:136-155 | every tail-cap vertex colour is at most 1 per channel |
| VibravaHorn.Resolve | Vibrava/horn.js:3-15 | every option left out takes its destructuring default (length 2, baseRadius 0.25, tipRadius 0.03, 36 stacks, 24 slices, bend PI/3 around 'y', the two colours, base cap on, tip cap off) and a given cap flag is kept |
| VibravaHorn.Fraction | Vibrava/horn.js:24 | t is 0 at the base ring and 1 at the tip ring |
| VibravaHorn.Lerp | Vibrava/horn.js:26 | the interpolated radius is baseRadius at t = 0 and tipRadius at t = 1 |
| VibravaHorn.LerpColor | Vibrava/horn.js:27-31 | the ring colour is baseColor at t = 0 and tipColor at t = 1 |
| VibravaHorn.Radius | Vibrava/horn.js:82-83 | once the bend threshold is passed the bend radius is never zero, so x / R is defined |
| VibravaHorn.Bent | Vibrava/horn.js:84-105 | the bend keeps the vertex count, every colour, and the coordinate off the bend plane (z around 'z', y otherwise) |
| VibravaHorn.GenerateCurvedCone | Vibrava/horn.js:3-109 | generateCurvedCone(options) returns Horn with the defaults applied |
| VibravaHorn.BuildCurvedCone | Vibrava/horn.js:16-108 | rings, quads, caps and the bend, in the source's order, build CurvedCone |
| VibravaHorn.AddCaps | Vibrava/horn.js:55-76 | each enabled cap pushes its centre and its fan after what came before |
| VibravaHorn.BendInPlace | Vibrava/horn.js:84-105 | the loop that overwrites each position leaves the bent vertex array |
| VibravaHorn.CapCount | Vibrava/horn.js:56-69 | one centre per enabled cap |
| VibravaHorn.ConeFacesShape | Vibrava/horn.js:41-76 | 6·stacks·slices quad indices plus 3·slices per enabled cap, every one naming a vertex |
| VibravaHorn.QuadsAndBaseWithin | Vibrava/horn.js:43-65 | the quads and the base fan (baseCenterIndex, j+1, j) stay within the rings and the base centre |
| VibravaHorn.TipFanWithin | Vibrava/horn.js:66-76 | the tip fan (tipCenterIndex, tipRow+j, tipRow+j+1) stays within the last ring and the tip centre |
| VibravaHorn.HornShape | Vibrava/horn.js:16-108 | (stacks+1)(slices+1) plus one vertex per cap, all faces in range, the bend changing neither, and a bend at or below 1e-6 leaving the straight cone |
| VibravaHorn.HornVertexAt | Vibrava/horn.js:23-105 | vertex j of ring i sits at index i·(slices+1) + j, bent exactly when the bend runs |
| VibravaHorn.ConeRing | Vibrava/horn.js:23-38 | before the bend ring i is a circle of the interpolated radius in the plane x = t·length, in the interpolated colour; base radius and colour at ring 0, tip's at ring stacks |
| VibravaHorn.BendFixesBasePlane | Vibrava/horn.js:88-103 | a point at x = 0 is not moved by the bend |
| VibravaHorn.BaseRingFixed | Vibrava/horn.js:23-105 | the base ring of the finished horn is where the straight cone puts it |
| VibravaHorn.BendOnCircle | Vibrava/horn.js:88-103 | the bend is cylindrical: the moved point lies on the circle of radius R about the axis offset by R in the bend coordinate |
| VibravaHorn.TipTurnsByBendAngle | Vibrava/horn.js:69-103 | the tip centre turns through exactly bendAngle: it lands at (R sin a, R(1 − cos a)) in the bend plane |
| VibravaKepala.GenerateKepala | Vibrava/kepala.js:2-63 | generateKepala(a, b, c, stack, step) returns Kepala: the head ellipsoid, its quads, the neck rings and their one row of quads |
| VibravaKepala.KepalaShape | Vibrava/kepala.js:2-63 | (stack+3)(step+1) vertices, the head's in the head colour and the neck's in the neck colour, and 6·step·(stack+1) indices, all in range |
| VibravaKepala.KepalaFaces | Vibrava/kepala.js:21-60 | the head quads and the neck row together hold 6·step·(stack+1) indices, each naming one of the head and neck vertices |
| VibravaKepala.ConcatColored | Vibrava/kepala.js:17-48 | after the head and neck are joined the head part keeps its colour and the neck part its own |
| VibravaKepala.HeadVertexAt | Vibrava/kepala.js:7-19 | head vertex j of ring i sits at index i(step+1) + j, before the neck's baseIndex |
| VibravaKepala.NeckVertexAt | Vibrava/kepala.js:34-50 | neck vertex j of ring i sits at index baseIndex + i(step+1) + j with baseIndex = (stack+1)(step+1) |
| VibravaKepala.NeckRing | Vibrava/kepala.js:35-45 | neck ring 0 lies at x = −0.5·a and ring 1 at x = +0.5·a, and every neck vertex is at distance 0.4·a from the x axis |
| VibravaLegs.Fraction | Vibrava/legs.js:8 | t is 0 at the top ring and 1 at the bottom ring |
| VibravaLegs.RadiusAt | Vibrava/legs.js:10 | the taper gives radiusTop at the top ring and radiusBottom at the bottom ring |
| VibravaLegs.GenerateLegSegment | Vibrava/legs.js:2-54 | generateLegSegment with segments defaulting to 8 and color to (0.2, 0.2, 0.2) when not passed returns LegSegment |
| VibravaLegs.BuildLegSegment | Vibrava/legs.js:3-53 | the ring loops, the quad loop, the two centres and the two cap loops build LegSegment |
| VibravaLegs.BuildSegmentFaces | Vibrava/legs.js:24-51 | with topCenter after the rings and bottomCenter right after it, the pushes give the side quads, the top fan and the reversed bottom fan |
| VibravaLegs.SegmentFacesShape | Vibrava/legs.js:24-51 | 6·segments² + 6·segments indices, each below (segments+1)² + 2 |
| VibravaLegs.SegmentCenters | Vibrava/legs.js:36-40 | (segments+1)² + 2 vertices; the top centre (0, 0, 0) and the bottom centre (0, −length, 0) carry the plain colour |
| VibravaLegs.SegmentVertexAt | Vibrava/legs.js:7-21 | vertex j of ring i sits at index i(segments+1) + j, before the centres |
| VibravaLegs.SegmentRing | Vibrava/legs.js:8-15 | ring i lies in the plane y = −length·i/segments on the circle of the tapered radius |
| VibravaLegs.SegmentShade | Vibrava/legs.js:18-19 | a ring vertex's colour is the segment colour scaled by a shade that stays in [0.6, 1] |
| VibravaLegs.GenerateVibravaLeg | Vibrava/legs.js:57-83 | generateVibravaLeg(config) applies each property's default and returns the five segments |
| VibravaLegs.BuildLeg | Vibrava/legs.js:70-82 | the five generateLegSegment calls with their taper factors and segment counts |
| VibravaLegs.LegParts | Vibrava/legs.js:70-74 | the two toes are the same mesh; thigh and shin have 83 vertices and 432 indices, foot and toes 51 and 252; the toe tapers by half like the foot |
| VibravaLegs.GetLegPositions | Vibrava/legs.js:86-105 | each right leg's placement is its left counterpart's with base z and knee angle negated, the left legs on the +z side |
| VibravaMata.Axes | Vibrava/mata.js:6-8 | the semi-axes are radius, radius and 0.8·radius |
| VibravaMata.GenerateMata | Vibrava/mata.js:2-39 | generateMata with radius 1, 20 stacks, 20 slices and colour (0, 100/255, 0) for the arguments not passed returns Mata |
| VibravaMata.MataShape | Vibrava/mata.js:10-36 | (stacks+1)(slices+1) vertices, all of the colour argument, and 6·stacks·slices indices, all in range |
| VibravaMata.MataQuad | Vibrava/mata.js:30-34 | the pushed (a, b, d, a, d, c) is the diagonal-split quad over a and the ring below it |
| VibravaMata.MataVertexAt | Vibrava/mata.js:10-26 | vertex j of ring i sits at index i(slices+1) + j |
| VibravaMata.OnMataEllipsoid | Vibrava/mata.js:11-22 | for radius other than 0 every vertex lies on the ellipsoid with semi-axes (radius, radius, 0.8·radius) |
| VibravaWingAttachment.GenerateWingAttachment | Vibrava/wingAttachment.js:1-46 | generateVibravaWingAttachment with a = 1, b = 1, c = 1.5, 32 slices, 32 stacks and colour (0.9, 0.8, 0.4) for the arguments not passed, slices before stacks, returns Attachment |
| VibravaWingAttachment.AttachmentShape | Vibrava/wingAttachment.js:19-43 | (stacks+1)(slices+1) vertices of the one colour and 6·stacks·slices indices, all in range |
| VibravaWingAttachment.AttachmentQuad | Vibrava/wingAttachment.js:35-41 | the pushed (p1, p2, p3), (p3, p2, p4) is the strip-split quad over p1 and the ring below it |
| VibravaWingAttachment.AttachmentVertexAt | Vibrava/wingAttachment.js:19-30 | vertex j of ring i sits at index i(slices+1) + j |
| VibravaWingAttachment.SheetApex | Vibrava/wingAttachment.js:20-26 | ring 0 collapses to the apex (0, 0, −c) of the sheet |
| VibravaWingAttachment.SheetBelowApex | Vibrava/wingAttachment.js:26 | since cosh is at least 1, for c ≥ 0 no vertex rises above the apex |
| VibravaWingAttachment.SheetOnHyperboloid | Vibrava/wingAttachment.js:12-26 | for nonzero a, b, c every vertex lies on the hyperboloid −x²/a² − y²/b² + z²/c² = 1 |
| VibravaWings.Resolve | Vibrava/wings.js:1-11 | each option left out takes its default (w 1, h 1.2, z 0, the leaf green, two-sided) and a given twoSided flag is kept |
| VibravaWings.Corners | Vibrava/wings.js:16-21 | there are four corners |
| VibravaWings.GenerateWing | Vibrava/wings.js:1-52 | generateWing(options) returns Wing: the diamond, and its back copy when twoSided |
| VibravaWings.WingShape | Vibrava/wings.js:24-49 | one-sided: 4 vertices and faces (0, 1, 2, 0, 2, 3); two-sided: 8 vertices, vertex 4+k an exact copy of vertex k, and the back faces (4, 6, 5), (4, 7, 6); every index in range and every vertex in the wing colour |
| VibravaWings.DefaultIsTwoSided | Vibrava/wings.js:10 | with no options the wing is two-sided: 8 vertices and 12 indices |
| VibravaWings.DiamondCorners | Vibrava/wings.js:16-26 | the first four vertices are (w, 0, z), (0, h, z), (−w, 0, z), (0, −h, z) |
| VibravaWings.BackFacesReversed | Vibrava/wings.js:41-48 | each back triangle turns the opposite way from its front triangle |
| Environment.GenerateDesertTerrain | Environtment/environment.js:2-45 | generateDesertTerrain with its defaults (200, 200, 50) returns exactly the Terrain mesh: the (segments+1)² vertex grid pushed row by row along z, then two triangles (a, b, d), (a, d, c) per cell |
| Environment.TerrainShape | Environtment/environment.js:10-42 | the terrain has (segments+1)² vertices and 6·segments² indices, and every index names one of its vertices |
| Environment.DefaultTerrainShape | Environtment/environment.js:2 | with the default arguments the terrain has 2601 vertices and 15000 indices |
| Environment.CoordinateWithin | Environtment/environment.js:6-13 | posX = x·(width/segments) − width/2 lies in [−width/2, width/2], and is −width/2 at x = 0 and width/2 at x = segments |
| Environment.DuneHeightRange | Environtment/environment.js:16-19 | the three dune waves (amplitudes 3, 2, 1.5) lowered by 15 keep every height in [−21.5, −8.5] |
| Environment.SandColorRange | Environtment/environment.js:22-25 | the colour variation is at most ±0.2, so red is in [0.65, 1.05] (it can pass 1), green in [0.55, 0.75] and blue in [0.29, 0.41] |
| Environment.TerrainBounds | Environtment/environment.js:10-28 | every terrain vertex lies over the width × depth rectangle centred on the origin, at a height in [−21.5, −8.5] |
| Environment.TerrainCorners | Environtment/environment.js:10-13 | the first vertex is the (−width/2, −depth/2) corner and the last the (width/2, depth/2) corner |
| Environment.SpherePointOnSphere | Environtment/environment.js:54-66 | the point (cos φ sin θ, cos θ, sin φ sin θ)·radius that the sky dome, the sun and the cloud blobs use lies at distance radius from the centre |
| Environment.SpherePointPole | Environtment/environment.js:54-66 | ring 0 (θ = 0) is the top pole (0, radius, 0) |
| Environment.SkyColorRange | Environtment/environment.js:68-88 | for a height in [−1, 1] each branch of the sunset gradient gives channels in [0, 1]; at the zenith the colour is (0.5, 0.7, 0.9) |
| Environment.SkyDomeEvenAgrees | Environtment/environment.js:53-99 | for an even segment count the vertex loop (lat ≤ segments/2) and the face loop (lat < segments/2) agree: the dome as written is SkyDome |
| Environment.SkyDomeOddOutOfRange | Environtment/environment.js:53-106 | for an odd segment count the face loop runs one row too many: face index 6·⌊s/2⌋·s + 1 equals the vertex count, so the faces are not in range |
| Environment.GenerateSkyDome | Environtment/environment.js:48-111 | generateSkyDome with defaults (100, 32) returns the dome as its loops build it: ⌊segments/2⌋+1 rings of segments+1 vertices, then ⌈segments/2⌉ rows of quads (a, b, c), (c, b, d); for an even count that is SkyDome |
| Environment.SkyDomeShape | Environtment/environment.js:53-108 | the dome has (⌊s/2⌋+1)(s+1) vertices, 6·⌊s/2⌋·s indices, every index in range |
| Environment.SkyDomeOnSphere | Environtment/environment.js:53-94 | every dome vertex lies on the sphere of the given radius and has a colour with channels in [0, 1] |
| Environment.SkyDomeZenith | Environtment/environment.js:53-94 | the first ring is the zenith (0, radius, 0), coloured (0.5, 0.7, 0.9) |
| Environment.GenerateSun | Environtment/environment.js:114-156 | generateSun with defaults (5, 20) returns Sun: (segments+1)² sphere vertices pole to pole, with the per-vertex random brightness, and the (a, b, c), (c, b, d) quads |
| Environment.SunShape | Environtment/environment.js:119-153 | the sun has (s+1)² vertices and 6·s² indices, every index in range |
| Environment.SunVertices | Environtment/environment.js:129-138 | with Math.random() in [0, 1) every sun vertex lies on the sphere, with red in [0.8, 1) and green and blue 0.85 and 0.4 of red |
| Environment.Blobs | Environtment/environment.js:164-171 | the six blobs, the first centred at the origin |
| Environment.BlobGrid | Environtment/environment.js:178-200 | one blob pushes (segments+1)² vertices |
| Environment.CloudVertices | Environtment/environment.js:175-200 | n blobs push n·(segments+1)² vertices |
| Environment.BlobFaces | Environtment/environment.js:203-214 | a blob's quads are 6·segments² indices, all within that blob's own vertices [base, base + (segments+1)²) |
| Environment.CloudFaces | Environtment/environment.js:175-214 | n blobs push n·6·segments² indices |
| Environment.GenerateCloud | Environtment/environment.js:159-218 | generateCloud with defaults (10, 3, 8) returns Cloud over the six blobs with 10 segments, baseIndex being the vertex count before each blob |
| Environment.CloudFacesInRange | Environtment/environment.js:176-206 | the faces of the first n blobs name only the first n blobs' vertices |
| Environment.CloudFacesBlock | Environtment/environment.js:176-212 | blob k's indices are the block from k·6·segments² of the face list, and are exactly that blob's quads from baseIndex k·(segments+1)² |
| Environment.CloudShape | Environtment/environment.js:175-215 | the cloud has b·(s+1)² vertices and b·6s² indices for b blobs, all in range, and the indices of each blob name only that blob's vertices |
| Environment.CloudCounts | Environtment/environment.js:164-178 | with six blobs and 10 segments: 726 vertices and 3600 indices |
| Environment.CloudVerticesWhite | Environtment/environment.js:192-198 | with Math.random() in [0, 1) every vertex of the first n blobs has red = green in [0.95, 1.05) and blue 0.98 |
| Environment.CloudColors | Environtment/environment.js:192-198 | the same colour range for every vertex of the whole cloud |

## Left out

- Browser glue is not part of this model: WebGL context and shader set-up, DOM event handlers, the animation loop, and the per-creature assembly and pose files. This covers `Trapinch/Trapinch.js`, the `main.js` files, `createVibrava.js`, `createTrapinch.js`, and `createFlygon.js` apart from `getTipBaseFromVertices`.
- `EnvObject` in `Environtment/environment-test.js` is not part of this model. It is a browser-side object with no children.
- `Trapinch/libs.js` and `Vibrava/libs.js`, which `MyObject` imports, are not part of this model. The node's matrix product is modelled with the `multiply` of `libs.js`, which has the same row-major formula.
- GL calls (`createBuffer`, `bufferData`, `uniform*`, `vertexAttribPointer`, `drawElements`) only append events to the `WebGl.Gl` log. No GPU state is modelled.
- Transcendental functions are uninterpreted. Results that depend on their values beyond `TrigLaws`, `HyperbolicLaws` and `SqrtLaws` are not stated. These include the exp-based radius profiles, orthonormality of the tail's Rodrigues frame update, and arc length under the horn bend.
- All arithmetic is exact real arithmetic. IEEE-754 rounding, Float32Array storage, and NaN or Infinity results are not modelled.
- Division by zero, which gives NaN or Infinity in JavaScript, is mostly excluded by preconditions. Segment, stack and slice counts are positive (`Pos`); the libraries require `zMax ≠ zMin`, a nonzero axis for `rotateArbitraryAxis`, and a nonzero length wherever the source divides by a vector's length, as in `lookAt`.
- Vectors.Normalize: a zero vector is returned unchanged, where the source's division by a zero `Math.hypot` gives NaN coordinates.
- VibravaHorn.Bends: the bend guard also requires a nonzero length. With length 0 and a bend angle above 1e-6 the model keeps the straight cone, where the source divides by a zero radius and computes NaN coordinates.
- `Math.random()` in `generateSun` and `generateCloud` is a parameter function whose values are assumed to lie in [0, 1).
- Uint16Array overflow: `Mesh.Typed` reduces every index modulo 65536, as the typed array stores it, and `Mesh.TypedFaces` shows that nothing is lost up to 65536 vertices. What a renderer would draw from wrapped indices beyond that is not modelled.
- EnvLibs.LookAt: states only the affine last column and the orthogonality of the axes. The normalised entries depend on `Math.hypot` and are not stated.
- TipBase.TipBaseFromVertices: requires a buffer length that is a multiple of 6. The source's loop would also read a trailing partial vertex, as `undefined` coordinates.
- FlygonThigh.GenerateFlygonThigh: `inner` is a `bool`. The source tests an arbitrary value for truthiness.
- FlygonWing.GenerateFlygonWing: the two-sided branch is modelled with the back-face loop bounded by the 36 front indices. The loop as written never stops (see Findings), and the unbounded growth of `faces` is stated only by the lemmas about it.
- Environment.GenerateCloud: the blob proofs are stated for any segment count and any number of blobs. The concrete six-blob, 10-segment cloud is an instance of them.

## Findings

| source | as written | input that shows it | evidently intended | confidence | as-written member | corrected member |
|---|---|---|---|---|---|---|
| Flygon/BodyParts/Body/FlygonWing.js:106-112 | the back-face loop tests `i < faces.length` while it pushes three indices per pass, so `faces.length − i` stays 36 and the loop never ends | `generateFlygonWing(2.3, { borderWidth: 0.2, twoSided: true })`, the call at Flygon/createFlygon.js:55-59 | one back face per front face: the bound taken before the loop, giving 18 vertices and 72 indices | not executed | FlygonWing.AsWrittenNeverStops | FlygonWing.WingShape |
| Environtment/environment.js:98-108 | the face loop runs `lat < segments / 2` over a real quotient, but the vertex loop stops at `lat ≤ floor(segments / 2)`; for odd segments one extra strip of quads is pushed | `generateSkyDome(100, 31)`: the face at index 6·15·31 + 1 = 2791 is 512, the vertex count | strips only between existing rings, `lat < floor(segments / 2)`, every index below the vertex count | not executed | Environment.SkyDomeOddOutOfRange | Environment.SkyDomeShape |
