# Terrain mesh construction, modelled in Dafny

This project models the mesh construction of the `Terrain` class in
`Terrain.js`, the terrain generator of a small WebGL demo, and proves
properties of it. Three parts are modelled:

- **The height map.** `generateTriangles` first fills a (div + 1) × (div + 1)
  grid with zeros. The recursive `diamondSquare` then fills it in by
  quartering, starting from the whole map. The model reproduces the source's
  quirks as written:
  - the top-level call's fourth corner is (div, div);
  - every recursive call passes `this.div`, so `rough` never decays;
  - with `this.div == 64` every call first zeroes its four corner arguments and
    uses rough = 6.4;
  - the (centerX, y2) midpoint adds `diamond[x2][y2]` twice.
- **The vertex and normal buffers.** These are row-major, three entries per
  vertex. The offset 3·(i·(div + 1) + j) is the one `setVertex` and
  `getVertex` use.
- **The index buffers.** The triangle buffer holds two triangles per cell. The
  wireframe edge buffer is derived from it by `generateLines`.

The project has three modules:

- **`Heightfield`** (heightfield.dfy) describes the recursion as functions
  over values.
  - Every assignment `diamondSquare` makes is an `Assign`: a cell, the cells
    whose heights it sums, and a constant.
  - `Fill` is everything one call writes before it recurses.
  - `Subdivide`, `Divide`, `Split` and `Quarters` are a whole call, its draw of
    one random value, and its four recursive calls.
  - `Math.random()` is a parameter `rs: Draws`: value k is the k-th draw.
    Calls draw in pre-order.
- **`MeshLayout`** (mesh_layout.dfy) describes the buffers as row-major
  sequences of chunks (`Row`, `Chunks`): `Positions`, `Normals`, `Faces` and
  `Lines`.
- **`TerrainModel`** (terrain.dfy) is the class `Terrain`.
  - Its fields are those of the source: `diamond`, the four buffers,
    `numVertices` and `numFaces`.
  - Its methods run the source's statements and loops.
  - Each method is proved to leave exactly the state the two other modules
    describe.

## Model

| member | source | states |
|---|---|---|
| Heightfield.Zeros | Terrain.js:164-169 | The initial height map has div + 1 rows of div + 1 cells, every one 0. |
| Heightfield.TopShaped | Terrain.js:171 | The top-level call's arguments (0, 0, 0, div, div, div, div, div) satisfy x2 == x1, x3 == x4 and y3 == y2, with every coordinate in [0, div]. Its fourth corner (div, div) is anchored. |
| Heightfield.ChildrenShaped | Terrain.js:232-248 | Each of the four recursive calls (245-248), built from centerX and centerY (232-233), again satisfies x2 == x1, x3 == x4 and y3 == y2 with coordinates in [0, div]. The left quarters have side s / 2 and the right ones s - s / 2. The fourth corner of a child lies on its bottom edge, or in the last column (y == div) for children on the y == 0 edge. |
| Heightfield.ChildrenLevel | Terrain.js:232-248 | For the quarters of 245-248, built from the centre of 232-233: on a 2^e square the centre lies strictly inside, and each quarter is a 2^(e-1) square: the side halves exactly. |
| Heightfield.CallsPow2 | Terrain.js:215-249 | The number of non-base calls on a side-2^e square, Calls(e), satisfies 3·Calls(e) + 1 == 4^e. |
| Heightfield.BodyFits | Terrain.js:222-241 | Every cell a non-base call reads or writes (zeroing, centre, midpoints) lies in [0, div]². |
| Heightfield.Fill | Terrain.js:222-241 | One call's own writes keep the height map (div + 1) × (div + 1). |
| Heightfield.Subdivide | Terrain.js:215-249 | A whole call, including all its recursion, keeps the height map (div + 1) × (div + 1). Termination is proved by the halving side. |
| Heightfield.Generate | Terrain.js:164-171 | The height map generateTriangles builds keeps div + 1 rows of div + 1 cells. |
| Heightfield.ZeroingValues | Terrain.js:223-228 | When d is 64 the four corner arguments become 0. Otherwise the zeroing step changes nothing. |
| Heightfield.WritesNew | Terrain.js:232-241 | After a call's five writes, the centre is randomNum + rough + the four corners. Each midpoint is its two corner values plus the new centre plus 0.1·randomNum, and (centerX, y2) counts (x2, y2) twice. |
| Heightfield.WritesCorners | Terrain.js:232-241 | The five writes leave the corners (x1, y1), (x2, y2) and (x3, y3) unchanged, and (x4, y4) too unless the last midpoint lands on it. |
| Heightfield.WritesValues | Terrain.js:232-241 | WritesNew and WritesCorners together, for any grid the zeroing left. |
| Heightfield.FillValues | Terrain.js:217-241 | A full non-base call body (zeroing when d is 64, then the five writes) with rough = Roughness(d) and randomNum = r·rough. The centre and midpoint values read the corners after zeroing, all with the same randomNum. |
| Heightfield.FillKeeps | Terrain.js:222-241 | One call's own writes leave every cell outside its square's interior unchanged, or set it to 0 when d is 64. |
| Heightfield.Divide | Terrain.js:232-248 | A non-base call after its base-case test keeps the height map (div + 1) × (div + 1). |
| Heightfield.Split | Terrain.js:235-248 | Its writes and recursion, once the random value is known, keep the height map (div + 1) × (div + 1). |
| Heightfield.Quarters | Terrain.js:245-248 | The four recursive calls keep the height map (div + 1) × (div + 1). |
| Heightfield.ChildrenInside | Terrain.js:245-248 | A cell interior to a quarter is interior to the parent square. |
| Heightfield.SubdivideKeeps | Terrain.js:215-249 | A whole call, with its recursion, leaves every cell outside its square's interior unchanged, or 0 when d or div is 64. |
| Heightfield.DivideKeeps | Terrain.js:232-249 | The same for a non-base call after its draw. |
| Heightfield.SplitKeeps | Terrain.js:232-249 | The same for a non-base call once its random value is known. |
| Heightfield.QuartersKeeps | Terrain.js:245-248 | The four recursive calls leave every cell interior to no quarter unchanged, or 0 when div is 64. |
| Heightfield.SubdivideDraws | Terrain.js:219-248 | A call on a 2^e square draws exactly Calls(e) values from Math.random (234): one per call that passes the base-case test (219) before recursing (245-248). |
| Heightfield.DivideDraws | Terrain.js:234-248 | A non-base call on a 2^e square draws Calls(e) values, the first for itself at 234 and the rest in its recursive calls. |
| Heightfield.SplitDraws | Terrain.js:232-248 | After its own draw, a non-base call's recursion draws Calls(e) - 1 values. |
| Heightfield.QuartersDraws | Terrain.js:245-248 | The four recursive calls, in the order BL, TL, BR, TR, draw Calls(e) - 1 values, each starting where the previous one stopped. |
| Heightfield.GenerateDraws | Terrain.js:171 | On a grid with div == 2^e, the top-level call draws (div² - 1) / 3 values. |
| Heightfield.GenerateOutcome | Terrain.js:164-171 | The zero map plus the top-level call gives Generate's height map, after Calls(e) draws whenever div == 2^e. |
| Heightfield.LatticeOutside | Terrain.js:233-241 | A call's centre, edge midpoints and corners are interior to none of its quarters. |
| Heightfield.SplitLattice | Terrain.js:232-248 | Unless div is 64, the recursive calls leave the centre and the four midpoints as the call's own writes set them. |
| Heightfield.GenerateSplits | Terrain.js:171 | For div >= 2 the top-level call is not a base case. It draws the first value and continues with the draws after it. |
| Heightfield.GenerateCorners | Terrain.js:164-171 | On a 2^m grid the four grid corners end at 0. |
| Heightfield.GenerateCentre | Terrain.js:171 | On a 2^m grid with div != 64, rough stays div (no decay reaches a child). The final centre is rs(0)·div + div, and each edge midpoint is that plus 0.1·rs(0)·div. |
| Heightfield.TopFill | Terrain.js:232-241 | The top-level call's own writes on the zero map: centre randomNum + rough, each midpoint that plus 0.1·randomNum. |
| Heightfield.QuartersZeroCentre | Terrain.js:223-228 | With div == 64 the recursive calls of a call of side >= 4 leave its centre at 0. |
| Heightfield.TopRightZero | Terrain.js:223-228 | With div == 64 a non-base call leaves its (x2, y2) corner argument at 0. |
| Heightfield.SplitZeroCentre | Terrain.js:223-248 | With div == 64 every call of side >= 4 ends with its centre at 0. |
| MeshLayout.PositionsLength | Terrain.js:177-189 | vBuffer gets 3·(div + 1)² entries. |
| MeshLayout.PositionAt | Terrain.js:177-181 | The three entries at offset 3·(i·(div + 1) + j) + c are the x, y and z of vertex (i, j): j·xAmount + minX, minY + i·yAmount, and height·0.006. |
| MeshLayout.NormalsLength | Terrain.js:185-187 | nBuffer gets 3·(div + 1)² entries. |
| MeshLayout.NormalAt | Terrain.js:185-187 | The normal of every vertex, at the same offset as in vBuffer, is (0, 0, 1). |
| MeshLayout.VertexOffsetInverse | Terrain.js:55 | The setVertex/getVertex offset of vertex (i, j) is a multiple of 3 inside vBuffer, and i and j are recovered from it, so distinct vertices get distinct offsets. |
| MeshLayout.CellIndicesBounded | Terrain.js:196-204 | Every index of a cell's two triangles is below (div + 1)². |
| MeshLayout.FacesLength | Terrain.js:193-206 | fBuffer gets 6·div² entries, all vertex indices below (div + 1)². |
| MeshLayout.FaceAt | Terrain.js:196-204 | Cell (i, j) occupies offsets 6·(i·div + j) .. +5, holding (vid, vid + div + 1, vid + div + 2, vid, vid + 1, vid + div + 2). |
| MeshLayout.CellCorners | Terrain.js:196-204 | The two triangles of a cell share the diagonal vid to vid + div + 2, and between them use the cell's four corners. |
| MeshLayout.FirstTriangleClockwise | Terrain.js:198-200 | The first triangle of every cell turns clockwise in the (column, row) plane. |
| MeshLayout.SecondTriangleCounterClockwise | Terrain.js:202-204 | The second turns counter-clockwise: the two triangles of a cell have opposite windings. |
| MeshLayout.LinesLength | Terrain.js:337-349 | generateLines writes exactly 6 entries per triangle. |
| MeshLayout.LineAt | Terrain.js:340-348 | Triangle f = (a, b, c) yields a, b, b, c, c, a at offset 6f. |
| MeshLayout.LinesFromFaces | Terrain.js:335-350 | Every eBuffer entry is an fBuffer entry. |
| MeshLayout.MeshLines | Terrain.js:337 | fBuffer's length is a multiple of 3, and the wireframe of the whole mesh has 2·\|fBuffer\| == 12·div² entries. |
| MeshLayout.MeshLinesBounded | Terrain.js:335-350 | Every wireframe entry is a vertex index below (div + 1)². |
| TerrainModel.FillIs | Terrain.js:222-241 | The zeroing, when d is 64, followed by the five writes, run one after another, is Fill. |
| TerrainModel.SpreadRun | Terrain.js:232-241 | The centre write followed by the four midpoint writes is Run over Writes. |
| TerrainModel.SubdivideSplits | Terrain.js:232-248 | A non-base call is its own writes with draw k, then the four recursive calls from draw k + 1: Subdivide. |
| TerrainModel.Counts | Terrain.js:208-209 | The buffers generateTriangles builds give numVertices == (div + 1)² and numFaces == 2·div². |
| TerrainModel.Terrain.constructor | Terrain.js:16-37 | After the constructor the height map is Subdivide's from the zero map with no draws used. vBuffer, nBuffer, fBuffer and eBuffer have the layouts above. numVertices == (div + 1)² and numFaces == 2·div². The other fields are the arguments. |
| TerrainModel.Terrain.BuildMesh | Terrain.js:33-36 | generateTriangles then generateLines on an empty map and empty buffers leave the height map, the four buffers and the counts the constructor promises. |
| TerrainModel.Terrain.Put | Terrain.js:225-241 | An assignment `this.diamond[x][y] = v` changes cell (x, y) to v and nothing else: Set. |
| TerrainModel.Terrain.Random | Terrain.js:234 | Math.random() returns the next injected value and consumes it. |
| TerrainModel.Terrain.ZeroCorners | Terrain.js:223-228 | The four corner assignments leave the map Zeroing describes. |
| TerrainModel.Terrain.PutFour | Terrain.js:235 | The centre assignment is the Assign of the constant plus four cells. |
| TerrainModel.Terrain.PutThree | Terrain.js:238-241 | A midpoint assignment is the Assign of three cells plus the constant. |
| TerrainModel.Terrain.Edges | Terrain.js:238-241 | The four midpoint assignments, each reading what the previous left, are Run over them. |
| TerrainModel.Terrain.Spread | Terrain.js:232-241 | The five writes of a call leave Run over Writes. |
| TerrainModel.Terrain.DiamondSquare | Terrain.js:215-249 | The height map and draw count become what Subdivide says of the call. |
| TerrainModel.Terrain.Recurse | Terrain.js:245-248 | The four recursive calls, each with `this.div`, leave what Quarters says. |
| TerrainModel.Terrain.GenerateTriangles | Terrain.js:161-210 | The height map is Subdivide's from zero, and vBuffer, nBuffer and fBuffer are Positions, Normals and Faces. numVertices == (div + 1)² and numFaces == 2·div². |
| TerrainModel.Terrain.GenerateBuffers | Terrain.js:173-209 | With the height map already built, vBuffer, nBuffer and fBuffer become Positions (spacing (maxX - minX) / div and (maxY - minY) / div), Normals and Faces, and the counts (div + 1)² and 2·div². |
| TerrainModel.Terrain.GenerateHeights | Terrain.js:164-171 | The zero map followed by the top-level call leaves Subdivide's outcome. |
| TerrainModel.Terrain.SetCounts | Terrain.js:208-209 | The counts are (div + 1)² and 2·div². |
| TerrainModel.Terrain.ClearHeights | Terrain.js:164-169 | The allocation loop leaves Zeros(div). |
| TerrainModel.Terrain.PushVertices | Terrain.js:177-189 | vBuffer and nBuffer are extended by Positions and Normals. |
| TerrainModel.Terrain.PushFaces | Terrain.js:193-206 | fBuffer is extended by Faces. |
| TerrainModel.Terrain.GenerateLines | Terrain.js:335-350 | eBuffer is extended by Lines over all whole triangles of fBuffer. fBuffer is not modified. |
| TerrainModel.VertexRows | Terrain.js:177-189 | The vertex loops produce exactly Positions and Normals. |
| TerrainModel.VertexRow | Terrain.js:178-188 | One pass of the inner loop produces row i of positions and normals. |
| TerrainModel.FaceRows | Terrain.js:193-206 | The face loops produce exactly Faces. |
| TerrainModel.FaceRow | Terrain.js:194-205 | One pass of the inner loop produces the cells of row i. |

Rows are given to members whose contracts state something. The following are
specification functions: they define what the source computes, have no row of
their own, and their properties are the lemma rows above.

- Heightfield: `Top` (Terrain.js:171, the top-level call's arguments),
  `Roughness` (217 and 223-229: `div`, or 6.4 when it is 64), `Zeroing`
  (225-228), `Writes` (235-241), `Body` (217-241), `Calls`, `Exec` and `Run`
  (one assignment and a sequence of them).
- MeshLayout: `Position` and `Positions` (179-181), `Normals` (185-187),
  `VertexOffset` (55 and 70), `CellIndices` and `Faces` (196-204),
  `TriangleEdges` and `Lines` (340-348).
- TerrainModel: `VertexCount` and `TriangleCount`, the counts of 208-209.

## Left out

- **Rendering and console code.** The WebGL calls (`loadBuffers`,
  `drawTriangles`, `drawEdges`, and the constructor's `gl.getExtension` and
  `alert`), `printBuffers`, and every `console.log` are I/O with no effect on
  the modelled state.
- **HelloTerrain.js** is not part of this model: it is WebGL setup, a camera and
  input handling.
- **`normals` (Terrain.js:252-303)** is left out. It is floating-point work
  (cross products, `Math.sqrt`) and is called with `this.x_amount` and
  `this.y_amount`, which are never set. nBuffer is modelled as it stands before
  `normals` runs: (0, 0, 1) for every vertex.
- **Floating point.** Heights and coordinates are `real`, so rounding is not
  modelled.
  - The index divisions `(x4 - x1) / 2` and `(y2 - y1) / 2` are JavaScript
    float divisions. The model uses integer division.
  - The two agree whenever div is a power of two; every property about values
    is stated for that case.
  - For any other div some call gets a fractional index. For example, with
    div == 3 the top-level call has centerX == 1.5 (Terrain.js:232), so
    `this.diamond[centerX]` is undefined and the write at Terrain.js:235
    throws a TypeError. The model uses integer division there instead, so
    for such div it describes a run the source never completes.
- **`numTris = fBuffer.length / 3`** is a float division. The model's
  GenerateLines handles the whole triangles only. MeshLines shows fBuffer's
  length is always a multiple of 3, so the two agree.
- **`Math.random()`** is the injected sequence `rand`, with a cursor `drawn`.
  Nothing about the range [0, 1) is needed or assumed.
- **`setVertex` and `getVertex`:** only their offset formula is modelled
  (VertexOffset, VertexOffsetInverse, PositionAt). Both index `this.vbuffer`
  (lower-case), a property that is never assigned, so calling either would
  throw. Their storage behaviour is not modelled.
- **`this.randomNum`** is set to 0 by the constructor and never read. The
  constructor's contract records that.
- **TerrainModel.Terrain.GenerateTriangles:** requires an empty height map and
  empty buffers. Its only caller, the constructor, guarantees that, so the
  counts are exact.
- **TerrainModel.Terrain.ClearHeights:** builds the rows in a local and stores
  the grid once at the end. No other code runs in between, so the final state
  is the same.
- **TerrainModel.Terrain.PushVertices and TerrainModel.Terrain.PushFaces:**
  build their chunks in locals and append them to the buffer once. No other
  code reads the buffers while the loops run.
- **TerrainModel.Terrain.constructor:** its draw count is stated through
  Subdivide's outcome. That the count is (div² - 1) / 3 for a power-of-two div
  is proved separately by GenerateDraws and GenerateOutcome.
- **Heightfield.GenerateCentre:** states the final centre and midpoints only
  for div != 64. For div == 64 the stated property is the opposite
  (SplitZeroCentre: every centre of a call of side >= 4 ends at 0).
- **`div == 0`:** the constructor, BuildMesh, GenerateTriangles and
  GenerateBuffers require div >= 1. With div == 0 the top-level call has
  x3 - x1 == 0, so the base-case test at Terrain.js:219 never holds and the
  recursion at Terrain.js:245 never ends (the spacing `(maxX - minX) / div` at
  Terrain.js:174 would also divide by zero).
