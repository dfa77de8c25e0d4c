/** The Terrain class of Terrain.js: its height map `diamond`, updated cell by
    cell by the recursive diamondSquare, and its mesh buffers, grown by push
    inside the loops of generateTriangles and generateLines. Each method is
    proved to leave exactly the state the functions of Heightfield and
    MeshLayout describe. */
module TerrainModel {
  import opened Heightfield
  import opened MeshLayout

  /** The five writes of a call, one by one. */
  lemma WritesAre(sq: Square, rough: real, randomNum: real)
    ensures
      var cx, cy := sq.CenterX(), sq.CenterY();
      var c1, c2, c3, c4, m := Cell(sq.x1, sq.y1), Cell(sq.x2, sq.y2), Cell(sq.x3, sq.y3), Cell(sq.x4, sq.y4), Cell(cx, cy);
      Writes(sq, rough, randomNum) ==
        [Assign(cx, cy, [c1, c2, c3, c4], randomNum + rough),
         Assign(cx, sq.y2, [c2, c2, m], 0.1 * randomNum),
         Assign(cx, sq.y1, [c1, c2, m], 0.1 * randomNum),
         Assign(sq.x1, cy, [c1, c2, m], 0.1 * randomNum),
         Assign(sq.x4, cy, [c4, c2, m], 0.1 * randomNum)]
  {
  }

  /** A write that sums four cells, and one that sums three, as Exec. */
  lemma {:induction false} ExecFour(g: Grid, n: int, x: int, y: int, a: Cell, b: Cell, c: Cell, d: Cell, e: real, h: Grid)
    requires WellFormed(g, n) && Fits(Assign(x, y, [a, b, c, d], e), n)
    requires h == Set(g, n, x, y, e + g[a.x][a.y] + g[b.x][b.y] + g[c.x][c.y] + g[d.x][d.y])
    ensures h == Exec(g, n, Assign(x, y, [a, b, c, d], e))
  {
    Total4(g, n, a, b, c, d);
  }

  lemma {:induction false} ExecThree(g: Grid, n: int, x: int, y: int, a: Cell, b: Cell, c: Cell, e: real, h: Grid)
    requires WellFormed(g, n) && Fits(Assign(x, y, [a, b, c], e), n)
    requires h == Set(g, n, x, y, g[a.x][a.y] + g[b.x][b.y] + g[c.x][c.y] + e)
    ensures h == Exec(g, n, Assign(x, y, [a, b, c], e))
  {
    Total3(g, n, a, b, c);
  }

  /** h is the grid after the assignment a on g. */
  ghost predicate Step(g: Grid, n: int, a: Assign, h: Grid) {
    WellFormed(g, n) && Fits(a, n) && h == Exec(g, n, a)
  }

  /** Four assignments executed one grid after another are Run over them. */
  lemma {:induction false} FourRun(g: Grid, h1: Grid, h2: Grid, h3: Grid, h4: Grid, n: int, a1: Assign, a2: Assign, a3: Assign, a4: Assign)
    requires Step(g, n, a1, h1) && Step(h1, n, a2, h2) && Step(h2, n, a3, h3) && Step(h3, n, a4, h4)
    ensures (forall a :: a in [a1, a2, a3, a4] ==> Fits(a, n)) && h4 == Run(g, n, [a1, a2, a3, a4])
  {
    RunFour(g, n, a1, a2, a3, a4);
  }

  /** The centre write, then the four edge writes, are Run over Writes. */
  lemma {:induction false} SpreadRun(g0: Grid, g1: Grid, g5: Grid, n: int,
                                     x1: int, y1: int, x2: int, y2: int, x3: int, y3: int, x4: int, y4: int,
                                     cx: int, cy: int, rough: real, randomNum: real)
    requires Shaped(Square(x1, y1, x2, y2, x3, y3, x4, y4), n) && x3 - x1 > 1
    requires cx == (x4 - x1) / 2 + x1 && cy == (y2 - y1) / 2 + y1
    requires Step(g0, n, Assign(cx, cy, [Cell(x1, y1), Cell(x2, y2), Cell(x3, y3), Cell(x4, y4)], randomNum + rough), g1)
    requires
      var c1, c2, c4, m := Cell(x1, y1), Cell(x2, y2), Cell(x4, y4), Cell(cx, cy);
      var ws := [Assign(cx, y2, [c2, c2, m], 0.1 * randomNum), Assign(cx, y1, [c1, c2, m], 0.1 * randomNum),
                 Assign(x1, cy, [c1, c2, m], 0.1 * randomNum), Assign(x4, cy, [c4, c2, m], 0.1 * randomNum)];
      WellFormed(g1, n) && (forall a :: a in ws ==> Fits(a, n)) && g5 == Run(g1, n, ws)
    ensures WellFormed(g0, n)
    ensures forall a :: a in Writes(Square(x1, y1, x2, y2, x3, y3, x4, y4), rough, randomNum) ==> Fits(a, n)
    ensures g5 == Run(g0, n, Writes(Square(x1, y1, x2, y2, x3, y3, x4, y4), rough, randomNum))
  {
    var sq := Square(x1, y1, x2, y2, x3, y3, x4, y4);
    var c1, c2, c4, m := Cell(x1, y1), Cell(x2, y2), Cell(x4, y4), Cell(cx, cy);
    var ws := [Assign(cx, y2, [c2, c2, m], 0.1 * randomNum), Assign(cx, y1, [c1, c2, m], 0.1 * randomNum),
               Assign(x1, cy, [c1, c2, m], 0.1 * randomNum), Assign(x4, cy, [c4, c2, m], 0.1 * randomNum)];
    var a0 := Assign(cx, cy, [c1, c2, Cell(x3, y3), c4], randomNum + rough);
    WritesAre(sq, rough, randomNum);
    WritesFit(sq, n, rough, randomNum);
    RunCons(g0, n, a0, ws);
    assert Writes(sq, rough, randomNum) == [a0] + ws;
  }

  /** The corner zeroing (when d is 64) and then the five writes of a call,
      one after the other, are Fill. */
  lemma {:induction false} FillIs(g0: Grid, gz: Grid, f: Grid, n: int, sq: Square, d: int, r: real, rough: real, randomNum: real)
    requires WellFormed(g0, n) && Shaped(sq, n)
    requires rough == Roughness(d) && randomNum == r * rough
    requires if d == 64 then (forall a :: a in Zeroing(sq, 64) ==> Fits(a, n)) && gz == Run(g0, n, Zeroing(sq, 64)) else gz == g0
    requires WellFormed(gz, n) && (forall a :: a in Writes(sq, rough, randomNum) ==> Fits(a, n))
    requires f == Run(gz, n, Writes(sq, rough, randomNum))
    ensures f == Fill(g0, n, sq, d, r)
  {
    BodyFits(sq, n, d, r);
    WritesAt(sq, d, r, rough, randomNum);
    RunAppend(g0, n, Zeroing(sq, d), Writes(sq, rough, randomNum));
    if d != 64 {
      assert Run(g0, n, Zeroing(sq, d)) == g0;
    }
  }

  /** A call that is not a base case: its own writes with draw k, then the
      four recursive calls from draw k + 1 on. */
  lemma {:induction false} SubdivideSplits(g: Grid, n: int, sq: Square, d: int, rs: Draws, k: nat, f: Grid, o: Outcome)
    requires WellFormed(g, n) && Shaped(sq, n) && sq.Side() > 1
    requires f == Fill(g, n, sq, d, rs(k)) && o == Quarters(f, n, sq, rs, k + 1)
    ensures o == Subdivide(g, n, sq, d, rs, k)
  {
    assert Split(g, n, sq, d, rs(k), rs, k + 1) == o;
  }

  /** The number of vertices of a mesh of n by n cells, (n + 1)^2, and the
      number of its triangles, two per cell. */
  function VertexCount(n: nat): nat { (n + 1) * (n + 1) }
  function TriangleCount(n: nat): nat { 2 * n * n }

  class Terrain {
    /** Number of cells along each axis, and the extent of the mesh. */
    const div: nat
    const minX: real
    const maxX: real
    const minY: real
    const maxY: real

    /** The values Math.random() returns, in order, and how many are used. */
    const rand: Draws
    var drawn: nat

    /** The field `this.randomNum`, set to 0 and never changed: diamondSquare
        uses a local of the same name. */
    var randomNum: real

    /** The height map: cell (x, y) is diamond[x][y]. */
    var diamond: seq<seq<real>>

    var vBuffer: seq<real>
    var nBuffer: seq<real>
    var fBuffer: seq<int>
    var eBuffer: seq<int>
    var numVertices: int
    var numFaces: int

    /** The height map has div + 1 rows of div + 1 cells. */
    ghost predicate Valid()
      reads this`diamond
    {
      WellFormed(diamond, div)
    }

    /** `new Terrain(div, minX, maxX, minY, maxY)` (Terrain.js:16-37): empty
        buffers, then generateTriangles and generateLines. The height map is the
        one Generate describes, after (div^2 - 1) / 3 draws when div is a power of two; every buffer has the
        layout MeshLayout describes; the counts are (div + 1)^2 vertices and
        2 * div^2 triangles. */
    constructor (div: nat, minX: real, maxX: real, minY: real, maxY: real, rand: Draws)
      requires div >= 1
      ensures this.div == div && this.minX == minX && this.maxX == maxX
      ensures this.minY == minY && this.maxY == maxY && this.rand == rand && randomNum == 0.0
      // The clauses below name the fields, which the lines above equate with
      // the arguments.
      ensures Valid() && Outcome(diamond, drawn) == Subdivide(Zeros(this.div), this.div, Top(this.div), this.div, this.rand, 0)
      ensures vBuffer == Positions(diamond, this.div, this.minX, this.minY,
                                   (this.maxX - this.minX) / this.div as real, (this.maxY - this.minY) / this.div as real)
      ensures nBuffer == Normals(this.div)
      ensures fBuffer == Faces(this.div)
      ensures eBuffer == Lines(fBuffer, |fBuffer| / 3)
      ensures numVertices == VertexCount(this.div) && numFaces == TriangleCount(this.div)
    {
      this.div := div;
      this.minX := minX;
      this.minY := minY;
      this.maxX := maxX;
      this.maxY := maxY;
      this.rand := rand;
      drawn := 0;
      randomNum := 0.0;
      vBuffer := [];
      fBuffer := [];
      nBuffer := [];
      eBuffer := [];
      diamond := [];
      numVertices := 0;
      numFaces := 0;
      new;
      BuildMesh();
    }

    /** The end of the constructor (Terrain.js:33-36), once the fields are
        set and the height map and buffers are empty: generateTriangles, then
        generateLines. */
    method BuildMesh()
      requires div >= 1 && diamond == [] && drawn == 0
      requires vBuffer == [] && nBuffer == [] && fBuffer == [] && eBuffer == []
      modifies this`diamond, this`drawn, this`vBuffer, this`nBuffer, this`fBuffer, this`eBuffer, this`numVertices, this`numFaces
      ensures Valid() && Outcome(diamond, drawn) == Subdivide(Zeros(div), div, Top(div), div, rand, 0)
      ensures vBuffer == Positions(diamond, div, minX, minY, (maxX - minX) / div as real, (maxY - minY) / div as real)
      ensures nBuffer == Normals(div)
      ensures fBuffer == Faces(div)
      ensures eBuffer == Lines(fBuffer, |fBuffer| / 3)
      ensures numVertices == VertexCount(div) && numFaces == TriangleCount(div)
    {
      GenerateTriangles();
      GenerateLines();
    }

    /** The next value of Math.random(). */
    method Random() returns (r: real)
      modifies this`drawn
      ensures r == rand(old(drawn)) && drawn == old(drawn) + 1
    {
      r := rand(drawn);
      drawn := drawn + 1;
    }

    /** `this.diamond[x][y] = v`, the form of every write of diamondSquare
        (Terrain.js:225-241). */
    method Put(x: int, y: int, v: real)
      requires Valid() && 0 <= x <= div && 0 <= y <= div
      modifies this`diamond
      ensures diamond == Set(old(diamond), div, x, y, v)
    {
      diamond := diamond[x := diamond[x][y := v]];
    }

    /** The corner zeroing of diamondSquare when its `div` argument is 64
        (Terrain.js:223-228): the four corner arguments become 0. */
    method ZeroCorners(x1: int, y1: int, x2: int, y2: int, x3: int, y3: int, x4: int, y4: int)
      requires Valid() && Shaped(Square(x1, y1, x2, y2, x3, y3, x4, y4), div)
      modifies this`diamond
      ensures (forall a :: a in Zeroing(Square(x1, y1, x2, y2, x3, y3, x4, y4), 64) ==> Fits(a, div)) &&
              diamond == Run(old(diamond), div, Zeroing(Square(x1, y1, x2, y2, x3, y3, x4, y4), 64))
    {
      ghost var g := diamond;
      BodyFits(Square(x1, y1, x2, y2, x3, y3, x4, y4), div, 64, 0.0);
      Put(x1, y1, 0.0);
      Put(x2, y2, 0.0);
      Put(x3, y3, 0.0);
      Put(x4, y4, 0.0);
      RunFour(g, div, Assign(x1, y1, [], 0.0), Assign(x2, y2, [], 0.0), Assign(x3, y3, [], 0.0), Assign(x4, y4, [], 0.0));
    }

    /** The centre write of diamondSquare (Terrain.js:235): a constant plus
        the heights of four cells. */
    method PutFour(x: int, y: int, a: Cell, b: Cell, c: Cell, d: Cell, e: real)
      requires Valid() && Fits(Assign(x, y, [a, b, c, d], e), div)
      modifies this`diamond
      ensures Step(old(diamond), div, Assign(x, y, [a, b, c, d], e), diamond)
    {
      ghost var g := diamond;
      Put(x, y, e + diamond[a.x][a.y] + diamond[b.x][b.y] + diamond[c.x][c.y] + diamond[d.x][d.y]);
      ExecFour(g, div, x, y, a, b, c, d, e, diamond);
    }

    /** An edge-midpoint write of diamondSquare (Terrain.js:238-241): the
        heights of three cells plus a constant. */
    method PutThree(x: int, y: int, a: Cell, b: Cell, c: Cell, e: real)
      requires Valid() && Fits(Assign(x, y, [a, b, c], e), div)
      modifies this`diamond
      ensures Step(old(diamond), div, Assign(x, y, [a, b, c], e), diamond)
    {
      ghost var g := diamond;
      Put(x, y, diamond[a.x][a.y] + diamond[b.x][b.y] + diamond[c.x][c.y] + e);
      ExecThree(g, div, x, y, a, b, c, e, diamond);
    }

    /** The four edge-midpoint writes of diamondSquare (Terrain.js:238-241),
        each reading the cells the previous ones left. */
    method Edges(x1: int, y1: int, x2: int, y2: int, x4: int, y4: int, centerX: int, centerY: int, randomNum: real)
      requires Valid() && 0 <= x1 <= div && 0 <= y1 <= div && 0 <= x2 <= div && 0 <= y2 <= div
      requires 0 <= x4 <= div && 0 <= y4 <= div && 0 <= centerX <= div && 0 <= centerY <= div
      modifies this`diamond
      ensures Valid()
      ensures
        var c1, c2, c4, m := Cell(x1, y1), Cell(x2, y2), Cell(x4, y4), Cell(centerX, centerY);
        var ws := [Assign(centerX, y2, [c2, c2, m], 0.1 * randomNum), Assign(centerX, y1, [c1, c2, m], 0.1 * randomNum),
                   Assign(x1, centerY, [c1, c2, m], 0.1 * randomNum), Assign(x4, centerY, [c4, c2, m], 0.1 * randomNum)];
        (forall a :: a in ws ==> Fits(a, div)) && diamond == Run(old(diamond), div, ws)
    {
      var c1, c2, c4, m := Cell(x1, y1), Cell(x2, y2), Cell(x4, y4), Cell(centerX, centerY);
      ghost var g := diamond;
      PutThree(centerX, y2, c2, c2, m, 0.1 * randomNum);
      ghost var h1 := diamond;
      PutThree(centerX, y1, c1, c2, m, 0.1 * randomNum);
      ghost var h2 := diamond;
      PutThree(x1, centerY, c1, c2, m, 0.1 * randomNum);
      ghost var h3 := diamond;
      PutThree(x4, centerY, c4, c2, m, 0.1 * randomNum);
      FourRun(g, h1, h2, h3, diamond, div, Assign(centerX, y2, [c2, c2, m], 0.1 * randomNum), Assign(centerX, y1, [c1, c2, m], 0.1 * randomNum),
              Assign(x1, centerY, [c1, c2, m], 0.1 * randomNum), Assign(x4, centerY, [c4, c2, m], 0.1 * randomNum));
    }

    /** The centre and the four edge midpoints of diamondSquare
        (Terrain.js:232-241), once rough and randomNum are known: the five
        assignments of Writes, each reading the cells the previous ones left. */
    method Spread(x1: int, y1: int, x2: int, y2: int, x3: int, y3: int, x4: int, y4: int,
                  centerX: int, centerY: int, rough: real, randomNum: real)
      requires Valid() && Shaped(Square(x1, y1, x2, y2, x3, y3, x4, y4), div) && x3 - x1 > 1
      requires centerX == (x4 - x1) / 2 + x1 && centerY == (y2 - y1) / 2 + y1
      modifies this`diamond
      ensures (forall a :: a in Writes(Square(x1, y1, x2, y2, x3, y3, x4, y4), rough, randomNum) ==> Fits(a, div)) &&
              diamond == Run(old(diamond), div, Writes(Square(x1, y1, x2, y2, x3, y3, x4, y4), rough, randomNum))
    {
      ChildrenShaped(Square(x1, y1, x2, y2, x3, y3, x4, y4), div);
      ghost var g0 := diamond;
      PutFour(centerX, centerY, Cell(x1, y1), Cell(x2, y2), Cell(x3, y3), Cell(x4, y4), randomNum + rough);
      ghost var g1 := diamond;
      Edges(x1, y1, x2, y2, x4, y4, centerX, centerY, randomNum);
      SpreadRun(g0, g1, diamond, div, x1, y1, x2, y2, x3, y3, x4, y4, centerX, centerY, rough, randomNum);
    }

    /** `diamondSquare(x1, y1, x2, y2, x3, y3, x4, y4, d)` (Terrain.js:215-249):
        the height map and the number of values drawn become what Subdivide
        says: one draw per call that is not a base case, in pre-order. */
    method DiamondSquare(x1: int, y1: int, x2: int, y2: int, x3: int, y3: int, x4: int, y4: int, d: int)
      requires Valid() && Shaped(Square(x1, y1, x2, y2, x3, y3, x4, y4), div)
      modifies this`diamond, this`drawn
      ensures Valid()
      ensures Outcome(diamond, drawn) == Subdivide(old(diamond), div, Square(x1, y1, x2, y2, x3, y3, x4, y4), d, rand, old(drawn))
      decreases x3 - x1, 1
    {
      ghost var sq := Square(x1, y1, x2, y2, x3, y3, x4, y4);
      ghost var g0, k := diamond, drawn;
      var rough: real := d as real;
      if x3 - x1 == 1 {
        return;
      }
      if d == 64 {
        ZeroCorners(x1, y1, x2, y2, x3, y3, x4, y4);
        rough := rough / 10.0;
      }
      ghost var gz := diamond;
      var centerX := (x4 - x1) / 2 + x1;
      var centerY := (y2 - y1) / 2 + y1;
      var r := Random();
      var randomNum := r * rough;
      Spread(x1, y1, x2, y2, x3, y3, x4, y4, centerX, centerY, rough, randomNum);
      FillIs(g0, gz, diamond, div, sq, d, r, rough, randomNum);
      rough := rough * 0.9;
      ghost var f := diamond;
      Recurse(x1, y1, x2, y2, x3, y3, x4, y4, centerX, centerY);
      SubdivideSplits(g0, div, sq, d, rand, k, f, Outcome(diamond, drawn));
    }

    /** The four recursive calls at the end of diamondSquare
        (Terrain.js:245-248), each passing `this.div` as its div. */
    method Recurse(x1: int, y1: int, x2: int, y2: int, x3: int, y3: int, x4: int, y4: int, centerX: int, centerY: int)
      requires Valid() && Shaped(Square(x1, y1, x2, y2, x3, y3, x4, y4), div) && x3 - x1 > 1
      requires centerX == (x4 - x1) / 2 + x1 && centerY == (y2 - y1) / 2 + y1
      modifies this`diamond, this`drawn
      ensures Valid()
      ensures Outcome(diamond, drawn) == Quarters(old(diamond), div, Square(x1, y1, x2, y2, x3, y3, x4, y4), rand, old(drawn))
      decreases x3 - x1, 0
    {
      ghost var sq := Square(x1, y1, x2, y2, x3, y3, x4, y4);
      ghost var g, k := diamond, drawn;
      ChildrenShaped(sq, div);
      assert sq.BottomLeft() == Square(x1, y1, x1, centerY, centerX, centerY, centerX, y4);
      assert sq.TopLeft() == Square(x1, centerY, x2, y2, centerX, y3, centerX, centerY);
      assert sq.BottomRight() == Square(centerX, centerY, centerX, y2, x3, y3, x4, centerY);
      assert sq.TopRight() == Square(centerX, y1, centerX, centerY, x3, centerY, x4, y4);
      DiamondSquare(x1, y1, x1, centerY, centerX, centerY, centerX, y4, div);
      ghost var o1 := Outcome(diamond, drawn);
      DiamondSquare(x1, centerY, x2, y2, centerX, y3, centerX, centerY, div);
      ghost var o2 := Outcome(diamond, drawn);
      DiamondSquare(centerX, centerY, centerX, y2, x3, y3, x4, centerY, div);
      ghost var o3 := Outcome(diamond, drawn);
      DiamondSquare(centerX, y1, centerX, centerY, x3, centerY, x4, y4, div);
    }

    /** generateTriangles (Terrain.js:161-210), as the constructor calls it,
        on an empty height map and empty buffers: a zero height map, the
        top-level diamondSquare, then vBuffer and nBuffer, one vertex after
        another in row-major order, then fBuffer, one cell after another; the
        counts are the buffer lengths over 3, that is (div + 1)^2 vertices
        and 2 * div^2 triangles. */
    method GenerateTriangles()
      requires div >= 1 && diamond == [] && drawn == 0 && vBuffer == [] && nBuffer == [] && fBuffer == []
      modifies this`diamond, this`drawn, this`vBuffer, this`nBuffer, this`fBuffer, this`numVertices, this`numFaces
      ensures Valid() && Outcome(diamond, drawn) == Subdivide(Zeros(div), div, Top(div), div, rand, 0)
      ensures vBuffer == Positions(diamond, div, minX, minY, (maxX - minX) / div as real, (maxY - minY) / div as real)
      ensures nBuffer == Normals(div)
      ensures fBuffer == Faces(div)
      ensures numVertices == VertexCount(div) && numFaces == TriangleCount(div)
    {
      GenerateHeights();
      GenerateBuffers();
    }

    /** The mesh part of generateTriangles (Terrain.js:173-209), on empty
        buffers: the grid spacing, vBuffer and nBuffer, fBuffer, then the
        counts. */
    method GenerateBuffers()
      requires div >= 1 && Valid() && vBuffer == [] && nBuffer == [] && fBuffer == []
      modifies this`vBuffer, this`nBuffer, this`fBuffer, this`numVertices, this`numFaces
      ensures vBuffer == Positions(diamond, div, minX, minY, (maxX - minX) / div as real, (maxY - minY) / div as real)
      ensures nBuffer == Normals(div)
      ensures fBuffer == Faces(div)
      ensures numVertices == VertexCount(div) && numFaces == TriangleCount(div)
    {
      var xAmount := (maxX - minX) / div as real;
      var yAmount := (maxY - minY) / div as real;
      PushVertices(xAmount, yAmount);
      PushFaces();
      SetCounts(xAmount, yAmount);
    }

    /** The height map part of generateTriangles (Terrain.js:164-171): a
        zero height map, then the top-level diamondSquare over the whole map
        with d = div. */
    method GenerateHeights()
      requires div >= 1 && diamond == [] && drawn == 0
      modifies this`diamond, this`drawn
      ensures Valid() && Outcome(diamond, drawn) == Subdivide(Zeros(div), div, Top(div), div, rand, 0)
    {
      ClearHeights();
      TopShaped(div);
      DiamondSquare(0, 0, 0, div, div, div, div, div, div);
    }

    /** The counts at the end of generateTriangles (Terrain.js:208-209): the
        buffer lengths over 3, which for the buffers it builds are
        (div + 1)^2 vertices and 2 * div^2 triangles. */
    method SetCounts(xAmount: real, yAmount: real)
      requires Valid()
      requires vBuffer == Positions(diamond, div, minX, minY, xAmount, yAmount) && fBuffer == Faces(div)
      modifies this`numVertices, this`numFaces
      ensures numVertices == VertexCount(div) && numFaces == TriangleCount(div)
    {
      Counts(diamond, div, minX, minY, xAmount, yAmount, vBuffer, fBuffer);
      numVertices := |vBuffer| / 3;
      numFaces := |fBuffer| / 3;
    }

    /** The first loop of generateTriangles (Terrain.js:164-169): row after
        row, a new array filled with div + 1 zeros. The rows are built in a
        local and stored in the field at the end; nothing reads it between. */
    method ClearHeights()
      requires diamond == []
      modifies this`diamond
      ensures Valid() && diamond == Zeros(div)
    {
      var heights := diamond;
      var i := 0;
      while i <= div
        invariant 0 <= i <= div + 1 && |heights| == i
        invariant forall x :: 0 <= x < i ==> heights[x] == seq(div + 1, _ => 0.0)
      {
        heights := heights + [[]];
        var j := 0;
        while j <= div
          invariant 0 <= j <= div + 1 && |heights| == i + 1
          invariant forall x :: 0 <= x < i ==> heights[x] == seq(div + 1, _ => 0.0)
          invariant heights[i] == seq(j, _ => 0.0)
        {
          heights := heights[i := heights[i] + [0.0]];
          j := j + 1;
        }
        i := i + 1;
      }
      assert heights == Zeros(div);
      diamond := heights;
    }

    /** The vertex loop of generateTriangles (Terrain.js:177-189), run by
        VertexRows on the heights and bounds, its output appended to vBuffer
        and nBuffer; nothing reads the buffers while it runs. */
    method PushVertices(xAmount: real, yAmount: real)
      requires Valid()
      modifies this`vBuffer, this`nBuffer
      ensures vBuffer == old(vBuffer) + Positions(diamond, div, minX, minY, xAmount, yAmount)
      ensures nBuffer == old(nBuffer) + Normals(div)
    {
      var vb, nb := VertexRows(diamond, div, minX, minY, xAmount, yAmount);
      vBuffer, nBuffer := vBuffer + vb, nBuffer + nb;
    }

    /** The face loop of generateTriangles (Terrain.js:193-206), run by
        FaceRows, its output appended to fBuffer. */
    method PushFaces()
      modifies this`fBuffer
      ensures fBuffer == old(fBuffer) + Faces(div)
    {
      var fb := FaceRows(div);
      fBuffer := fBuffer + fb;
    }

    /** generateLines (Terrain.js:335-350): the three edges of every whole
        triangle of fBuffer, appended to eBuffer; nothing else changes. */
    method GenerateLines()
      modifies this`eBuffer
      ensures eBuffer == old(eBuffer) + Lines(fBuffer, |fBuffer| / 3)
    {
      var numTris := |fBuffer| / 3;
      ghost var e0 := eBuffer;
      var f := 0;
      while f < numTris
        invariant 0 <= f <= numTris
        invariant eBuffer == e0 + Lines(fBuffer, f)
      {
        var fid := f * 3;
        ghost var before := eBuffer;
        eBuffer := eBuffer + [fBuffer[fid]];
        eBuffer := eBuffer + [fBuffer[fid + 1]];
        eBuffer := eBuffer + [fBuffer[fid + 1]];
        eBuffer := eBuffer + [fBuffer[fid + 2]];
        eBuffer := eBuffer + [fBuffer[fid + 2]];
        eBuffer := eBuffer + [fBuffer[fid]];
        assert eBuffer == before + TriangleEdges(fBuffer[fid], fBuffer[fid + 1], fBuffer[fid + 2]);
        assert Lines(fBuffer, f + 1) == Lines(fBuffer, f) + TriangleEdges(fBuffer[fid], fBuffer[fid + 1], fBuffer[fid + 2]);
        f := f + 1;
      }
    }
  }

  /** The two loops of generateTriangles over the vertices (Terrain.js:177-189):
      the vertices of the height map row after row, each row from VertexRow. */
  method VertexRows(heights: Grid, n: nat, mx: real, my: real, xAmount: real, yAmount: real) returns (vb: seq<real>, nb: seq<real>)
    requires WellFormed(heights, n)
    ensures vb == Positions(heights, n, mx, my, xAmount, yAmount)
    ensures nb == Normals(n)
  {
    vb, nb := [], [];
    var i := 0;
    while i <= n
      invariant 0 <= i <= n + 1
      invariant (vb, nb) == (Chunks(i, n + 1, PositionOf(heights, mx, my, xAmount, yAmount)), Chunks(i, n + 1, UpNormal()))
    {
      var vr, nr := VertexRow(heights, n, mx, my, xAmount, yAmount, i);
      ChunksStep(i, n + 1, PositionOf(heights, mx, my, xAmount, yAmount), vr);
      ChunksStep(i, n + 1, UpNormal(), nr);
      vb, nb := vb + vr, nb + nr;
      i := i + 1;
    }
  }

  /** The inner loop of generateTriangles over the vertices (Terrain.js:178-188):
      row i of vertices, each with its position (column j gives x with step
      xAmount, row i gives y with step yAmount, the height scaled by 0.006 gives
      z) and the normal (0, 0, 1). */
  method VertexRow(heights: Grid, n: nat, mx: real, my: real, xAmount: real, yAmount: real, i: int) returns (vr: seq<real>, nr: seq<real>)
    requires WellFormed(heights, n) && 0 <= i <= n
    ensures vr == Row(i, n + 1, PositionOf(heights, mx, my, xAmount, yAmount))
    ensures nr == Row(i, n + 1, UpNormal())
  {
    vr, nr := [], [];
    var j := 0;
    while j <= n
      invariant 0 <= j <= n + 1
      invariant vr == Row(i, j, PositionOf(heights, mx, my, xAmount, yAmount))
      invariant nr == Row(i, j, UpNormal())
    {
      var p := [j as real * xAmount + mx, my + i as real * yAmount, heights[i][j] * 0.006];
      assert HeightAt(heights, i, j) == heights[i][j];
      RowStep(i, j, PositionOf(heights, mx, my, xAmount, yAmount), p);
      RowStep(i, j, UpNormal(), [0.0, 0.0, 1.0]);
      vr, nr := vr + p, nr + [0.0, 0.0, 1.0];
      j := j + 1;
    }
  }

  /** The two loops of generateTriangles over the cells (Terrain.js:193-206):
      the cells row after row, each row from FaceRow. */
  method FaceRows(n: nat) returns (fb: seq<int>)
    ensures fb == Faces(n)
  {
    fb := [];
    var i := 0;
    while i < n
      invariant 0 <= i <= n
      invariant fb == Chunks(i, n, CellsOf(n))
    {
      var fr := FaceRow(n, i);
      ChunksStep(i, n, CellsOf(n), fr);
      fb := fb + fr;
      i := i + 1;
    }
  }

  /** The inner loop over the cells (Terrain.js:194-205): for cell (i, j), with
      vid = i * (n + 1) + j, the triangle (vid, vid + n + 1, vid + n + 2) and
      then the triangle (vid, vid + 1, vid + n + 2). */
  method FaceRow(n: nat, i: int) returns (fr: seq<int>)
    ensures fr == Row(i, n, CellsOf(n))
  {
    fr := [];
    var j := 0;
    while j < n
      invariant 0 <= j <= n
      invariant fr == Row(i, j, CellsOf(n))
    {
      var vid := i * (n + 1) + j;
      var cell := [vid, vid + n + 1, vid + n + 2, vid, vid + 1, vid + n + 2];
      RowStep(i, j, CellsOf(n), cell);
      fr := fr + cell;
      j := j + 1;
    }
  }

  /** The buffers generateTriangles builds hold (n + 1)^2 vertices and
      2 n^2 triangles. */
  lemma Counts(g: Grid, n: nat, minX: real, minY: real, xAmount: real, yAmount: real, vb: seq<real>, fb: seq<int>)
    requires WellFormed(g, n) && vb == Positions(g, n, minX, minY, xAmount, yAmount) && fb == Faces(n)
    ensures |vb| / 3 == (n + 1) * (n + 1) && |fb| / 3 == 2 * n * n
  {
    PositionsLength(g, n, minX, minY, xAmount, yAmount);
    FacesLength(n);
    Third(|vb|, n + 1, n + 1);
    Third(|fb|, 2 * n, n);
  }

  lemma Third(len: int, a: int, b: int)
    requires len == 3 * a * b
    ensures len / 3 == a * b
  {
  }
}
