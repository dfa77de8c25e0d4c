/** The layout of the mesh buffers that generateTriangles and generateLines
    build (Terrain.js:173-209, 335-350), as functions over values. Every buffer
    is a row-major sequence of equal-sized chunks, one chunk per grid vertex or
    per grid cell; the loops in terrain.dfy are proved to build exactly these
    sequences. */
module MeshLayout {
  import opened Heightfield

  /** Chunks f(i, 0) .. f(i, cols - 1) of row i, in order. */
  function Row<T>(i: int, cols: nat, f: (int, int) -> seq<T>): seq<T>
    decreases cols
  {
    if cols == 0 then [] else Row(i, cols - 1, f) + f(i, cols - 1)
  }

  /** Rows 0 .. rows - 1, each of cols chunks, in order. */
  function Chunks<T>(rows: nat, cols: nat, f: (int, int) -> seq<T>): seq<T>
    decreases rows
  {
    if rows == 0 then [] else Chunks(rows - 1, cols, f) + Row(rows - 1, cols, f)
  }

  /** The two steps of a loop that builds such a buffer: chunk (i, j) pushed
      after the first j chunks of row i, and row i pushed after the first i
      rows. */
  lemma RowStep<T>(i: int, j: nat, f: (int, int) -> seq<T>, c: seq<T>)
    requires c == f(i, j)
    ensures Row(i, j + 1, f) == Row(i, j, f) + c
  {
  }

  lemma ChunksStep<T>(i: nat, cols: nat, f: (int, int) -> seq<T>, r: seq<T>)
    requires r == Row(i, cols, f)
    ensures Chunks(i + 1, cols, f) == Chunks(i, cols, f) + r
  {
  }

  lemma {:induction false} MulStep(a: int, b: int, w: int)
    requires a < b && w >= 0
    ensures a * w + w <= b * w
  {
    assert b * w - a * w == (b - a) * w;
    assert (b - a) * w >= w by {
      assert (b - a) * w == (b - a - 1) * w + w;
    }
  }

  /** A row of cols chunks of width w has cols * w entries. */
  lemma {:induction false} RowLength<T>(i: int, cols: nat, w: nat, f: (int, int) -> seq<T>)
    requires forall a, b :: |f(a, b)| == w
    ensures |Row(i, cols, f)| == cols * w
    decreases cols
  {
    if cols > 0 {
      RowLength(i, cols - 1, w, f);
      assert (cols - 1) * w + w == cols * w;
    }
  }

  /** Entry c of chunk j of a row sits at offset j * w + c. */
  lemma {:induction false} RowAt<T>(i: int, cols: nat, w: nat, f: (int, int) -> seq<T>, j: int, c: int)
    requires forall a, b :: |f(a, b)| == w
    requires 0 <= j < cols && 0 <= c < w
    ensures j * w + c < |Row(i, cols, f)| && Row(i, cols, f)[j * w + c] == f(i, j)[c]
    decreases cols
  {
    RowLength(i, cols - 1, w, f);
    RowLength(i, cols, w, f);
    MulStep(j, cols, w);
    if j < cols - 1 {
      MulStep(j, cols - 1, w);
      RowAt(i, cols - 1, w, f, j, c);
    } else {
      assert j * w + c == |Row(i, cols - 1, f)| + c;
    }
  }

  /** rows rows of cols chunks of width w hold rows * cols * w entries. */
  lemma {:induction false} ChunksLength<T>(rows: nat, cols: nat, w: nat, f: (int, int) -> seq<T>)
    requires forall a, b :: |f(a, b)| == w
    ensures |Chunks(rows, cols, f)| == rows * (cols * w)
    decreases rows
  {
    if rows > 0 {
      ChunksLength(rows - 1, cols, w, f);
      RowLength(rows - 1, cols, w, f);
      assert (rows - 1) * (cols * w) + cols * w == rows * (cols * w);
    }
  }

  lemma {:induction false} ChunkOffset(cols: int, w: int, i: int, j: int, c: int)
    ensures (i * cols + j) * w + c == i * (cols * w) + (j * w + c)
  {
  }

  /** Entry c of the chunk of (i, j) sits at offset (i * cols + j) * w + c. */
  lemma {:induction false} ChunksAt<T>(rows: nat, cols: nat, w: nat, f: (int, int) -> seq<T>, i: int, j: int, c: int)
    requires forall a, b :: |f(a, b)| == w
    requires 0 <= i < rows && 0 <= j < cols && 0 <= c < w
    ensures (i * cols + j) * w + c < |Chunks(rows, cols, f)|
    ensures Chunks(rows, cols, f)[(i * cols + j) * w + c] == f(i, j)[c]
  {
    ChunkOffset(cols, w, i, j, c);
    MulStep(j, cols, w);
    ChunksAtRow(rows, cols, w, f, i, j, c, cols * w, j * w + c);
  }

  /** ChunksAt with the row length len and the offset k inside the row
      named, so that the induction only adds multiples of len. */
  lemma {:induction false} ChunksAtRow<T>(rows: nat, cols: nat, w: nat, f: (int, int) -> seq<T>, i: int, j: int, c: int,
                                          len: nat, k: nat)
    requires forall a, b :: |f(a, b)| == w
    requires 0 <= i < rows && 0 <= j < cols && 0 <= c < w
    requires len == cols * w && k == j * w + c && k < len
    ensures i * len + k < |Chunks(rows, cols, f)| && Chunks(rows, cols, f)[i * len + k] == f(i, j)[c]
    decreases rows
  {
    var prefix := Chunks(rows - 1, cols, f);
    ChunksLength(rows - 1, cols, w, f);
    assert |prefix| == (rows - 1) * len;
    RowLength(rows - 1, cols, w, f);
    assert Chunks(rows, cols, f) == prefix + Row(rows - 1, cols, f);
    if i < rows - 1 {
      MulStep(i, rows - 1, len);
      ChunksAtRow(rows - 1, cols, w, f, i, j, c, len, k);
    } else {
      RowAt(rows - 1, cols, w, f, j, c);
    }
  }

  /** Every entry of the chunks is an entry of the chunk of some (i, j) in range. */
  lemma {:induction false} ChunksBounded(rows: nat, cols: nat, f: (int, int) -> seq<int>, lo: int, hi: int)
    requires forall i, j, x :: 0 <= i < rows && 0 <= j < cols && x in f(i, j) ==> lo <= x < hi
    ensures forall x :: x in Chunks(rows, cols, f) ==> lo <= x < hi
    decreases rows
  {
    if rows > 0 {
      ChunksBounded(rows - 1, cols, f, lo, hi);
      RowBounded(rows - 1, cols, f, lo, hi);
    }
  }

  lemma {:induction false} RowBounded(i: int, cols: nat, f: (int, int) -> seq<int>, lo: int, hi: int)
    requires forall j, x :: 0 <= j < cols && x in f(i, j) ==> lo <= x < hi
    ensures forall x :: x in Row(i, cols, f) ==> lo <= x < hi
    decreases cols
  {
    if cols > 0 {
      RowBounded(i, cols - 1, f, lo, hi);
    }
  }

  /** The height of cell (i, j), 0 outside the grid (never read there). */
  function HeightAt(g: Grid, i: int, j: int): real {
    if 0 <= i < |g| && 0 <= j < |g[i]| then g[i][j] else 0.0
  }

  /** The three vBuffer entries of vertex (i, j) (Terrain.js:179-181): column j
      gives x, row i gives y, and the height scaled by 0.006 gives z. */
  function Position(g: Grid, minX: real, minY: real, xStep: real, yStep: real, i: int, j: int): seq<real> {
    [j as real * xStep + minX, minY + i as real * yStep, HeightAt(g, i, j) * 0.006]
  }

  /** vBuffer as generateTriangles fills it: (n + 1) rows of (n + 1) vertices. */
  function Positions(g: Grid, n: nat, minX: real, minY: real, xStep: real, yStep: real): seq<real> {
    Chunks(n + 1, n + 1, PositionOf(g, minX, minY, xStep, yStep))
  }

  /** Position as a function of the vertex. */
  function PositionOf(g: Grid, minX: real, minY: real, xStep: real, yStep: real): (int, int) -> seq<real> {
    (i, j) => Position(g, minX, minY, xStep, yStep, i, j)
  }

  /** The normal generateTriangles gives every vertex. */
  function UpNormal(): (int, int) -> seq<real> {
    (i, j) => [0.0, 0.0, 1.0]
  }

  /** nBuffer as generateTriangles fills it: (0, 0, 1) for every vertex
      (Terrain.js:185-187). */
  function Normals(n: nat): seq<real> {
    Chunks(n + 1, n + 1, UpNormal())
  }

  /** The index of vertex (i, j) in row-major order, and the offset of its first
      coordinate in vBuffer, as setVertex and getVertex compute it. */
  function VertexIndex(n: int, i: int, j: int): int {
    i * (n + 1) + j
  }

  function VertexOffset(n: int, i: int, j: int): int {
    3 * VertexIndex(n, i, j)
  }

  /** The six fBuffer entries of cell (i, j) (Terrain.js:197-204): with
      vid = i * (n + 1) + j, the triangle (vid, vid + n + 1, vid + n + 2) and
      then the triangle (vid, vid + 1, vid + n + 2). */
  function CellIndices(n: int, i: int, j: int): seq<int> {
    var vid := VertexIndex(n, i, j);
    [vid, vid + n + 1, vid + n + 2, vid, vid + 1, vid + n + 2]
  }

  /** fBuffer as generateTriangles fills it: n rows of n cells. */
  function Faces(n: nat): seq<int> {
    Chunks(n, n, CellsOf(n))
  }

  /** CellIndices as a function of the cell. */
  function CellsOf(n: int): (int, int) -> seq<int> {
    (i, j) => CellIndices(n, i, j)
  }

  /** The six eBuffer entries of triangle (a, b, c): its three edges in order. */
  function TriangleEdges(a: int, b: int, c: int): seq<int> {
    [a, b, b, c, c, a]
  }

  /** eBuffer after generateLines has handled triangles 0 .. t - 1 of fs
      (Terrain.js:335-350). */
  function Lines(fs: seq<int>, t: nat): seq<int>
    requires 3 * t <= |fs|
    // |fs| is the same on every call; with it in the measure a call with a
    // constant t is not unfolded down to t == 0.
    decreases t, |fs|
  {
    if t == 0 then [] else
      var p := 3 * (t - 1);
      Lines(fs, t - 1) + TriangleEdges(fs[p], fs[p + 1], fs[p + 2])
  }

  lemma {:induction false} DivMod(q: int, r: int, m: int)
    requires m > 0 && 0 <= r < m
    ensures (q * m + r) / m == q && (q * m + r) % m == r
  {
    var k := q * m + r;
    assert k == (k / m) * m + k % m;
    assert 0 <= k % m < m;
    if k / m > q {
      MulStep(q, k / m, m);
    } else if k / m < q {
      MulStep(k / m, q, m);
    }
  }

  /** The vertex offset of setVertex/getVertex is the offset at which
      generateTriangles put vertex (i, j): vBuffer holds 3 * (n + 1)^2 entries,
      and the three at the offset of vertex (i, j) are its position. */
  lemma {:induction false} PositionsLength(g: Grid, n: nat, minX: real, minY: real, xStep: real, yStep: real)
    ensures |Positions(g, n, minX, minY, xStep, yStep)| == 3 * (n + 1) * (n + 1)
  {
    ChunksLength(n + 1, n + 1, 3, PositionOf(g, minX, minY, xStep, yStep));
  }

  lemma {:induction false} PositionAt(g: Grid, n: nat, minX: real, minY: real, xStep: real, yStep: real, i: int, j: int, c: int)
    requires 0 <= i <= n && 0 <= j <= n && 0 <= c < 3
    ensures VertexOffset(n, i, j) + c < |Positions(g, n, minX, minY, xStep, yStep)|
    ensures Positions(g, n, minX, minY, xStep, yStep)[VertexOffset(n, i, j) + c] == Position(g, minX, minY, xStep, yStep, i, j)[c]
  {
    ChunksAt(n + 1, n + 1, 3, PositionOf(g, minX, minY, xStep, yStep), i, j, c);
  }

  /** nBuffer holds 3 * (n + 1)^2 entries, and vertex (i, j)'s three, at the
      same offset as in vBuffer, are (0, 0, 1). */
  lemma {:induction false} NormalsLength(n: nat)
    ensures |Normals(n)| == 3 * (n + 1) * (n + 1)
  {
    ChunksLength(n + 1, n + 1, 3, UpNormal());
  }

  lemma {:induction false} NormalAt(n: nat, i: int, j: int, c: int)
    requires 0 <= i <= n && 0 <= j <= n && 0 <= c < 3
    ensures VertexOffset(n, i, j) + c < |Normals(n)|
    ensures Normals(n)[VertexOffset(n, i, j) + c] == (if c == 2 then 1.0 else 0.0)
  {
    ChunksAt(n + 1, n + 1, 3, UpNormal(), i, j, c);
  }

  /** Distinct vertices have disjoint triples of offsets, and every offset is
      inside vBuffer: the row and column are recovered from the offset. */
  lemma {:induction false} VertexOffsetInverse(n: nat, i: int, j: int)
    requires 0 <= i <= n && 0 <= j <= n
    ensures 0 <= VertexOffset(n, i, j) && VertexOffset(n, i, j) + 3 <= 3 * (n + 1) * (n + 1)
    ensures VertexOffset(n, i, j) % 3 == 0
    ensures VertexOffset(n, i, j) / 3 / (n + 1) == i && VertexOffset(n, i, j) / 3 % (n + 1) == j
  {
    DivMod(VertexIndex(n, i, j), 0, 3);
    DivMod(i, j, n + 1);
    MulStep(i, n + 1, n + 1);
    assert VertexIndex(n, i, j) + 1 <= (n + 1) * (n + 1);
  }

  /** Every index of cell (i, j) names a vertex of the grid. */
  lemma {:induction false} CellIndicesBounded(n: nat, i: int, j: int)
    requires 0 <= i < n && 0 <= j < n
    ensures forall x :: x in CellIndices(n, i, j) ==> 0 <= x < (n + 1) * (n + 1)
  {
    MulStep(i, n, n + 1);
    assert VertexIndex(n, i, j) + n + 2 <= n * (n + 1) + n + 1;
    assert n * (n + 1) + n + 1 == (n + 1) * (n + 1);
  }

  /** fBuffer holds 6 * n^2 entries, two triangles per cell, and every entry
      is the index of a vertex, below (n + 1)^2. */
  lemma {:induction false} FacesLength(n: nat)
    ensures |Faces(n)| == 6 * n * n
    ensures forall x :: x in Faces(n) ==> 0 <= x < (n + 1) * (n + 1)
  {
    var f := CellsOf(n);
    ChunksLength(n, n, 6, f);
    forall i, j | 0 <= i < n && 0 <= j < n
      ensures forall x :: x in f(i, j) ==> 0 <= x < (n + 1) * (n + 1)
    {
      CellIndicesBounded(n, i, j);
    }
    ChunksBounded(n, n, f, 0, (n + 1) * (n + 1));
  }

  /** The six entries of cell (i, j) sit at offset 6 * (i * n + j). */
  lemma {:induction false} FaceAt(n: nat, i: int, j: int, c: int)
    requires 0 <= i < n && 0 <= j < n && 0 <= c < 6
    ensures 6 * (i * n + j) + c < |Faces(n)|
    ensures Faces(n)[6 * (i * n + j) + c] == CellIndices(n, i, j)[c]
  {
    ChunksAt(n, n, 6, CellsOf(n), i, j, c);
  }

  /** Twice the signed area of the triangle of vertices a, b, c, placed at
      (column, row): positive when they turn counter-clockwise. */
  function Orientation(n: int, a: int, b: int, c: int): int
    requires n >= 0
  {
    var aCol, aRow := a % (n + 1), a / (n + 1);
    var bCol, bRow := b % (n + 1), b / (n + 1);
    var cCol, cRow := c % (n + 1), c / (n + 1);
    (bCol - aCol) * (cRow - aRow) - (bRow - aRow) * (cCol - aCol)
  }

  /** The two triangles of a cell share the diagonal from vid to vid + n + 2
      and between them use its four corners. */
  lemma {:induction false} CellCorners(n: nat, i: int, j: int)
    requires 0 <= i < n && 0 <= j < n
    ensures
      var t := CellIndices(n, i, j);
      t[0] == t[3] == VertexIndex(n, i, j) && t[2] == t[5] == VertexIndex(n, i + 1, j + 1) &&
      t[1] == VertexIndex(n, i + 1, j) && t[4] == VertexIndex(n, i, j + 1)
  {
  }

  /** The row and column of a vertex are recovered from its index. */
  lemma {:induction false} VertexPlace(n: nat, i: int, j: int)
    requires 0 <= j <= n
    ensures VertexIndex(n, i, j) % (n + 1) == j && VertexIndex(n, i, j) / (n + 1) == i
  {
    DivMod(i, j, n + 1);
  }

  /** The first triangle of a cell turns clockwise in the (column, row) plane. */
  lemma {:induction false} FirstTriangleClockwise(n: nat, i: int, j: int)
    requires 0 <= i < n && 0 <= j < n
    ensures Orientation(n, VertexIndex(n, i, j), VertexIndex(n, i + 1, j), VertexIndex(n, i + 1, j + 1)) == -1
  {
    VertexPlace(n, i, j);
    VertexPlace(n, i + 1, j);
    VertexPlace(n, i + 1, j + 1);
  }

  /** The second triangle of a cell turns counter-clockwise: the two triangles
      of every cell have opposite windings. */
  lemma {:induction false} SecondTriangleCounterClockwise(n: nat, i: int, j: int)
    requires 0 <= i < n && 0 <= j < n
    ensures Orientation(n, VertexIndex(n, i, j), VertexIndex(n, i, j + 1), VertexIndex(n, i + 1, j + 1)) == 1
  {
    VertexPlace(n, i, j);
    VertexPlace(n, i, j + 1);
    VertexPlace(n, i + 1, j + 1);
  }

  /** generateLines writes six entries per triangle. */
  lemma {:induction false} LinesLength(fs: seq<int>, t: nat)
    requires 3 * t <= |fs|
    ensures |Lines(fs, t)| == 6 * t
    decreases t
  {
    if t > 0 {
      LinesLength(fs, t - 1);
    }
  }

  /** The edges of triangle f sit at offset 6 * f, in the order (a, b), (b, c),
      (c, a). */
  lemma {:induction false} LineAt(fs: seq<int>, t: nat, f: int, c: int)
    requires 3 * t <= |fs| && 0 <= f < t && 0 <= c < 6
    ensures 6 * f + c < |Lines(fs, t)|
    ensures Lines(fs, t)[6 * f + c] == TriangleEdges(fs[3 * f], fs[3 * f + 1], fs[3 * f + 2])[c]
    decreases t
  {
    LinesLength(fs, t);
    LinesLength(fs, t - 1);
    if f < t - 1 {
      LineAt(fs, t - 1, f, c);
    }
  }

  /** Every entry of eBuffer is an entry of fBuffer, so a vertex index. */
  lemma {:induction false} LinesFromFaces(fs: seq<int>, t: nat)
    requires 3 * t <= |fs|
    ensures forall x :: x in Lines(fs, t) ==> x in fs
    decreases t
  {
    if t > 0 {
      LinesFromFaces(fs, t - 1);
    }
  }

  lemma Thirds(len: int, k: int)
    requires len == 6 * k
    ensures len % 3 == 0 && len / 3 == 2 * k
  {
  }

  /** The wireframe of the whole mesh: 2 * n^2 triangles, so twice as many
      entries as fBuffer. */
  lemma {:induction false} MeshLines(n: nat)
    ensures |Faces(n)| % 3 == 0
    ensures |Lines(Faces(n), |Faces(n)| / 3)| == 2 * |Faces(n)| == 12 * n * n
  {
    var fs := Faces(n);
    assert |fs| == 6 * (n * n) by { FacesLength(n); }
    Thirds(|fs|, n * n);
    LinesLength(fs, |fs| / 3);
  }

  /** Every entry of the wireframe of the whole mesh is a vertex index. */
  lemma {:induction false} MeshLinesBounded(n: nat)
    ensures forall x :: x in Lines(Faces(n), |Faces(n)| / 3) ==> 0 <= x < (n + 1) * (n + 1)
  {
    FacesLength(n);
    LinesFromFaces(Faces(n), |Faces(n)| / 3);
  }
}
