/** The height map of Terrain.js and the recursive quartering (`diamondSquare`)
    that fills it, as functions over values. Cell (x, y) of a grid is row x,
    column y, as `diamond[x][y]` in the source. The class in terrain.dfy runs the
    same algorithm statement by statement on its `diamond` field and is proved
    to leave what these functions describe. */
module Heightfield {

  /** A height map: row x holds the heights of cells (x, 0) .. (x, n). */
  type Grid = seq<seq<real>>

  /** The values `Math.random()` returns, in order: value k is the k-th draw. */
  type Draws = nat -> real

  predicate WellFormed(g: Grid, n: int) {
    |g| == n + 1 && forall x :: 0 <= x < |g| ==> |g[x]| == n + 1
  }

  /** The grid as generateTriangles allocates it: n + 1 rows of n + 1 zeros. */
  function Zeros(n: nat): (g: Grid)
    ensures WellFormed(g, n)
    ensures forall x, y :: 0 <= x <= n && 0 <= y <= n ==> g[x][y] == 0.0
  {
    seq(n + 1, _ => seq(n + 1, _ => 0.0))
  }

  /** The grid after the single assignment `diamond[x][y] = v`. */
  function Set(g: Grid, n: int, x: int, y: int, v: real): (r: Grid)
    requires WellFormed(g, n) && 0 <= x <= n && 0 <= y <= n
    ensures WellFormed(r, n) && r[x][y] == v
    ensures forall i, j :: 0 <= i <= n && 0 <= j <= n && (i != x || j != y) ==> r[i][j] == g[i][j]
  {
    g[x := g[x][y := v]]
  }

  /** The eight coordinate arguments of one `diamondSquare` call. */
  datatype Square = Square(x1: int, y1: int, x2: int, y2: int, x3: int, y3: int, x4: int, y4: int)
  {
    function Side(): int { x3 - x1 }
    function CenterX(): int { (x4 - x1) / 2 + x1 }
    function CenterY(): int { (y2 - y1) / 2 + y1 }

    // The four recursive calls, with the arguments the source passes them.
    function BottomLeft(): Square {
      Square(x1, y1, x1, CenterY(), CenterX(), CenterY(), CenterX(), y4)
    }
    function TopLeft(): Square {
      Square(x1, CenterY(), x2, y2, CenterX(), y3, CenterX(), CenterY())
    }
    function BottomRight(): Square {
      Square(CenterX(), CenterY(), CenterX(), y2, x3, y3, x4, CenterY())
    }
    function TopRight(): Square {
      Square(CenterX(), y1, CenterX(), CenterY(), x3, CenterY(), x4, y4)
    }
  }

  /** The arguments of the top-level call: note the fourth corner (n, n). */
  function Top(n: int): Square {
    Square(0, 0, 0, n, n, n, n, n)
  }

  /** What every call of the recursion receives from its caller: x2 == x1,
      x3 == x4, y3 == y2, a positive side (a side of 0 would never reach the
      base case), and every coordinate inside [0, n]. */
  predicate Shaped(sq: Square, n: int) {
    sq.x2 == sq.x1 && sq.x4 == sq.x3 && sq.y3 == sq.y2 &&
    0 <= sq.x1 < sq.x3 <= n && 0 <= sq.y1 <= sq.y2 <= n && 0 <= sq.y4 <= n
  }

  function Pow2(e: nat): (p: nat)
    ensures p >= 1
  {
    if e == 0 then 1 else 2 * Pow2(e - 1)
  }

  /** A square whose width and height are both 2^e, as every call is when the
      grid size is a power of two. */
  predicate Level(sq: Square, e: nat) {
    sq.x3 - sq.x1 == Pow2(e) && sq.y2 - sq.y1 == Pow2(e)
  }

  /** Where the fourth corner (x4, y4) of a call reached from the top lies:
      on the square's own bottom edge, or, for squares along y == 0, in the last column y == n. */
  predicate Anchored(sq: Square, n: int) {
    sq.y4 == sq.y1 || (sq.y1 == 0 && sq.y4 == n)
  }

  /** A cell of the closed square that is not one of its four geometric corners. */
  predicate Interior(sq: Square, i: int, j: int) {
    sq.x1 <= i <= sq.x3 && sq.y1 <= j <= sq.y2 &&
    !((i == sq.x1 || i == sq.x3) && (j == sq.y1 || j == sq.y2))
  }

  /** A cell interior to one of the four recursive calls of sq. */
  predicate InQuarter(sq: Square, i: int, j: int) {
    Interior(sq.BottomLeft(), i, j) || Interior(sq.TopLeft(), i, j) ||
    Interior(sq.BottomRight(), i, j) || Interior(sq.TopRight(), i, j)
  }

  /** Number of random values a call of side 2^e draws: one for itself when
      it is not a base case, then those of its four quarters of side 2^(e-1). */
  function Calls(e: nat): nat
  {
    if e == 0 then 0 else 1 + 4 * Calls(e - 1)
  }

  /** The amplitude a call uses: its `div` argument, or 64 / 10 when that is 64. */
  function Roughness(d: int): real {
    if d == 64 then 64.0 / 10.0 else d as real
  }

  /** On a grid of side 2^e the recursion makes (4^e - 1) / 3 non-base calls. */
  lemma {:induction false} CallsPow2(e: nat)
    ensures 3 * Calls(e) + 1 == Pow2(e) * Pow2(e)
  {
    if e > 0 {
      var h := Pow2(e - 1);
      CallsPow2(e - 1);
      assert 3 * Calls(e) + 1 == 4 * (3 * Calls(e - 1) + 1);
      Double(h);
    }
  }

  lemma Double(h: int)
    ensures (2 * h) * (2 * h) == 4 * (h * h)
  {
  }

  lemma {:induction false} TopShaped(n: int)
    requires n >= 1
    ensures Shaped(Top(n), n) && Anchored(Top(n), n)
  {
  }

  /** Each recursive call of a call that is not a base case is again a
      well-shaped call, anchored when its parent is: the left quarters have
      side s / 2, the right ones s - s / 2. */
  lemma {:induction false} ChildrenShaped(sq: Square, n: int)
    requires Shaped(sq, n) && sq.Side() > 1
    ensures Shaped(sq.BottomLeft(), n) && sq.BottomLeft().Side() == sq.Side() / 2
    ensures Shaped(sq.TopLeft(), n) && sq.TopLeft().Side() == sq.Side() / 2
    ensures Shaped(sq.BottomRight(), n) && sq.BottomRight().Side() == sq.Side() - sq.Side() / 2
    ensures Shaped(sq.TopRight(), n) && sq.TopRight().Side() == sq.Side() - sq.Side() / 2
    ensures Anchored(sq, n) ==>
      Anchored(sq.BottomLeft(), n) && Anchored(sq.TopLeft(), n) &&
      Anchored(sq.BottomRight(), n) && Anchored(sq.TopRight(), n)
  {
  }

  /** The quarters of a 2^e square are 2^(e-1) squares, and its centre lies
      strictly inside it. */
  lemma {:induction false} ChildrenLevel(sq: Square, n: int, e: nat)
    requires Shaped(sq, n) && Level(sq, e) && e >= 1
    ensures sq.x1 < sq.CenterX() < sq.x3 && sq.y1 < sq.CenterY() < sq.y2
    ensures Level(sq.BottomLeft(), e - 1) && Level(sq.TopLeft(), e - 1)
    ensures Level(sq.BottomRight(), e - 1) && Level(sq.TopRight(), e - 1)
  {
    assert Pow2(e) == 2 * Pow2(e - 1);
  }

  /** A cell (x, y) of the grid. */
  datatype Cell = Cell(x: int, y: int)

  /** One assignment `diamond[x][y] = e + diamond[c1] + diamond[c2] + ...`
      over the cells of `sum`, all read before the write. Every assignment
      diamondSquare makes has this form. */
  datatype Assign = Assign(x: int, y: int, sum: seq<Cell>, e: real)

  predicate Fits(a: Assign, n: int) {
    0 <= a.x <= n && 0 <= a.y <= n &&
    forall c :: c in a.sum ==> 0 <= c.x <= n && 0 <= c.y <= n
  }

  /** The sum of the heights at the cells cs. */
  function Total(g: Grid, n: int, cs: seq<Cell>): real
    requires WellFormed(g, n) && forall c :: c in cs ==> 0 <= c.x <= n && 0 <= c.y <= n
  {
    if cs == [] then 0.0 else g[cs[0].x][cs[0].y] + Total(g, n, cs[1..])
  }

  /** The grid after one assignment. */
  function Exec(g: Grid, n: int, a: Assign): (r: Grid)
    requires WellFormed(g, n) && Fits(a, n)
    ensures WellFormed(r, n)
  {
    Set(g, n, a.x, a.y, a.e + Total(g, n, a.sum))
  }

  /** The grid after the assignments steps, in order, each reading the grid the
      previous ones left. */
  function Run(g: Grid, n: int, steps: seq<Assign>): (r: Grid)
    requires WellFormed(g, n) && forall a :: a in steps ==> Fits(a, n)
    ensures WellFormed(r, n)
    decreases |steps|
  {
    if steps == [] then g else Run(Exec(g, n, steps[0]), n, steps[1..])
  }

  /** With d == 64 a call first sets its four corner arguments to 0
      (Terrain.js:223-228). */
  function Zeroing(sq: Square, d: int): seq<Assign> {
    if d == 64 then
      [Assign(sq.x1, sq.y1, [], 0.0), Assign(sq.x2, sq.y2, [], 0.0),
       Assign(sq.x3, sq.y3, [], 0.0), Assign(sq.x4, sq.y4, [], 0.0)]
    else []
  }

  /** The writes of a call that is not a base case, with amplitude rough and
      scaled random value randomNum (Terrain.js:232-241): the centre gets
      randomNum + rough plus the four corners; then the four edge midpoints,
      in the source's order, each get two corner values (the (centerX, y2) one
      counts (x2, y2) twice), the new centre and randomNum * 0.1. */
  function Writes(sq: Square, rough: real, randomNum: real): seq<Assign> {
    var cx, cy := sq.CenterX(), sq.CenterY();
    var c1, c2, c3, c4, m := Cell(sq.x1, sq.y1), Cell(sq.x2, sq.y2), Cell(sq.x3, sq.y3), Cell(sq.x4, sq.y4), Cell(cx, cy);
    [Assign(cx, cy, [c1, c2, c3, c4], randomNum + rough),
     Assign(cx, sq.y2, [c2, c2, m], 0.1 * randomNum),
     Assign(cx, sq.y1, [c1, c2, m], 0.1 * randomNum),
     Assign(sq.x1, cy, [c1, c2, m], 0.1 * randomNum),
     Assign(sq.x4, cy, [c4, c2, m], 0.1 * randomNum)]
  }

  /** All assignments of a call that is not a base case, in order: the
      amplitude is Roughness(d) and the scaled draw r times it
      (Terrain.js:217-241, the draw at 234). */
  function Body(sq: Square, d: int, r: real): seq<Assign> {
    Zeroing(sq, d) + Writes(sq, Roughness(d), r * Roughness(d))
  }

  lemma {:induction false} WritesFit(sq: Square, n: int, rough: real, randomNum: real)
    requires Shaped(sq, n)
    ensures forall a :: a in Writes(sq, rough, randomNum) ==> Fits(a, n)
  {
  }

  lemma {:induction false} BodyFits(sq: Square, n: int, d: int, r: real)
    requires Shaped(sq, n)
    ensures forall a :: a in Zeroing(sq, d) ==> Fits(a, n)
    ensures forall a :: a in Writes(sq, Roughness(d), r * Roughness(d)) ==> Fits(a, n)
    ensures forall a :: a in Body(sq, d, r) ==> Fits(a, n)
  {
    WritesFit(sq, n, Roughness(d), r * Roughness(d));
  }

  /** Everything one call that is not a base case writes before it recurses. */
  function Fill(g: Grid, n: int, sq: Square, d: int, r: real): (f: Grid)
    requires WellFormed(g, n) && Shaped(sq, n)
    ensures WellFormed(f, n)
  {
    Run(g, n, Body(sq, d, r))
  }

  /** The grid a call leaves and the index of the next random value to draw. */
  datatype Outcome = Outcome(grid: Grid, next: nat)

  /** `diamondSquare(sq, d)` with `this.div == n`, on grid g, drawing its
      random values from rs starting at index k, in pre-order. */
  function Subdivide(g: Grid, n: int, sq: Square, d: int, rs: Draws, k: nat): (o: Outcome)
    requires WellFormed(g, n) && Shaped(sq, n)
    ensures WellFormed(o.grid, n)
    // |g| is the same on every call; with it in the measure a call on a
    // constant square is not unfolded down to its leaves.
    decreases sq.Side(), |g|, 3
  {
    if sq.Side() == 1 then Outcome(g, k) else Divide(g, n, sq, d, rs, k)
  }

  /** A call that is not a base case: it draws rs(k), its one random value
      (Terrain.js:234), and goes on with the draws after it. */
  function Divide(g: Grid, n: int, sq: Square, d: int, rs: Draws, k: nat): (o: Outcome)
    requires WellFormed(g, n) && Shaped(sq, n) && sq.Side() > 1
    ensures WellFormed(o.grid, n)
    decreases sq.Side(), |g|, 2
  {
    Split(g, n, sq, d, rs(k), rs, k + 1)
  }

  /** A call that is not a base case once its random value r is known: its own
      writes, then its four recursive calls drawing from index k on. */
  function Split(g: Grid, n: int, sq: Square, d: int, r: real, rs: Draws, k: nat): (o: Outcome)
    requires WellFormed(g, n) && Shaped(sq, n) && sq.Side() > 1
    ensures WellFormed(o.grid, n)
    decreases sq.Side(), |g|, 1
  {
    Quarters(Fill(g, n, sq, d, r), n, sq, rs, k)
  }

  /** The four recursive calls of a call on sq that is not a base case
      (Terrain.js:245-248), in the source's order, the first drawing from
      index k and each of the others from where the previous one stopped;
      each receives n, the unchanged `this.div`, as its `div`. */
  function Quarters(g: Grid, n: int, sq: Square, rs: Draws, k: nat): (o: Outcome)
    requires WellFormed(g, n) && Shaped(sq, n) && sq.Side() > 1
    ensures WellFormed(o.grid, n)
    decreases sq.Side(), |g|, 0
  {
    ChildrenShaped(sq, n);
    var o1 := Subdivide(g, n, sq.BottomLeft(), n, rs, k);
    var o2 := Subdivide(o1.grid, n, sq.TopLeft(), n, rs, o1.next);
    var o3 := Subdivide(o2.grid, n, sq.BottomRight(), n, rs, o2.next);
    Subdivide(o3.grid, n, sq.TopRight(), n, rs, o3.next)
  }

  /** The height map generateTriangles leaves: zeros, then the top-level call. */
  function Generate(n: int, rs: Draws): (g: Grid)
    requires n >= 1
    ensures WellFormed(g, n)
  {
    TopShaped(n);
    Subdivide(Zeros(n), n, Top(n), n, rs, 0).grid
  }

  lemma {:induction false} RunAppend(g: Grid, n: int, xs: seq<Assign>, ys: seq<Assign>)
    requires WellFormed(g, n)
    requires forall a :: a in xs ==> Fits(a, n)
    requires forall a :: a in ys ==> Fits(a, n)
    ensures Run(g, n, xs + ys) == Run(Run(g, n, xs), n, ys)
    decreases |xs|
  {
    if xs == [] {
      assert xs + ys == ys;
    } else {
      assert (xs + ys)[0] == xs[0] && (xs + ys)[1..] == xs[1..] + ys;
      RunAppend(Exec(g, n, xs[0]), n, xs[1..], ys);
    }
  }

  /** A run of assignments none of which writes (i, j), except with the
      constant 0, leaves (i, j) as it was or 0; as it was when none writes it. */
  lemma {:induction false} RunKeeps(g: Grid, n: int, steps: seq<Assign>, i: int, j: int)
    requires WellFormed(g, n) && forall a :: a in steps ==> Fits(a, n)
    requires 0 <= i <= n && 0 <= j <= n
    requires forall a :: a in steps ==> a.x != i || a.y != j || (a.sum == [] && a.e == 0.0)
    ensures Run(g, n, steps)[i][j] == g[i][j] || Run(g, n, steps)[i][j] == 0.0
    ensures (forall a :: a in steps ==> a.x != i || a.y != j) ==> Run(g, n, steps)[i][j] == g[i][j]
    decreases |steps|
  {
    if steps != [] {
      var h := Exec(g, n, steps[0]);
      assert forall a :: a in steps[1..] ==> a in steps;
      RunKeeps(h, n, steps[1..], i, j);
    }
  }

  /** Run takes its first assignment, then the rest. */
  lemma {:induction false} RunCons(g: Grid, n: int, a: Assign, rest: seq<Assign>)
    requires WellFormed(g, n) && Fits(a, n) && forall b :: b in rest ==> Fits(b, n)
    ensures forall b :: b in [a] + rest ==> Fits(b, n)
    ensures Run(g, n, [a] + rest) == Run(Exec(g, n, a), n, rest)
  {
    assert ([a] + rest)[1..] == rest;
  }

  /** Four and five assignments run one after the other. */
  lemma {:induction false} RunFour(g: Grid, n: int, a0: Assign, a1: Assign, a2: Assign, a3: Assign)
    requires WellFormed(g, n) && Fits(a0, n) && Fits(a1, n) && Fits(a2, n) && Fits(a3, n)
    ensures forall a :: a in [a0, a1, a2, a3] ==> Fits(a, n)
    ensures Run(g, n, [a0, a1, a2, a3]) == Exec(Exec(Exec(Exec(g, n, a0), n, a1), n, a2), n, a3)
  {
    var h1 := Exec(g, n, a0);
    var h2 := Exec(h1, n, a1);
    var h3 := Exec(h2, n, a2);
    RunCons(h3, n, a3, []);
    assert [a3] + [] == [a3];
    RunCons(h2, n, a2, [a3]);
    assert [a2] + [a3] == [a2, a3];
    RunCons(h1, n, a1, [a2, a3]);
    assert [a1] + [a2, a3] == [a1, a2, a3];
    RunCons(g, n, a0, [a1, a2, a3]);
    assert [a0] + [a1, a2, a3] == [a0, a1, a2, a3];
  }

  lemma {:induction false} RunFive(g: Grid, n: int, a0: Assign, a1: Assign, a2: Assign, a3: Assign, a4: Assign)
    requires WellFormed(g, n) && Fits(a0, n) && Fits(a1, n) && Fits(a2, n) && Fits(a3, n) && Fits(a4, n)
    ensures forall a :: a in [a0, a1, a2, a3, a4] ==> Fits(a, n)
    ensures Run(g, n, [a0, a1, a2, a3, a4]) == Exec(Exec(Exec(Exec(Exec(g, n, a0), n, a1), n, a2), n, a3), n, a4)
  {
    RunFour(Exec(g, n, a0), n, a1, a2, a3, a4);
    RunCons(g, n, a0, [a1, a2, a3, a4]);
    assert [a0] + [a1, a2, a3, a4] == [a0, a1, a2, a3, a4];
  }

  lemma {:induction false} Total3(g: Grid, n: int, a: Cell, b: Cell, c: Cell)
    requires WellFormed(g, n)
    requires 0 <= a.x <= n && 0 <= a.y <= n && 0 <= b.x <= n && 0 <= b.y <= n && 0 <= c.x <= n && 0 <= c.y <= n
    ensures Total(g, n, [a, b, c]) == g[a.x][a.y] + g[b.x][b.y] + g[c.x][c.y]
  {
    assert [a, b, c][1..] == [b, c] && [b, c][1..] == [c] && [c][1..] == [];
    assert Total(g, n, [c]) == g[c.x][c.y];
    assert Total(g, n, [b, c]) == g[b.x][b.y] + g[c.x][c.y];
  }

  lemma {:induction false} Total4(g: Grid, n: int, a: Cell, b: Cell, c: Cell, e: Cell)
    requires WellFormed(g, n)
    requires 0 <= a.x <= n && 0 <= a.y <= n && 0 <= b.x <= n && 0 <= b.y <= n
    requires 0 <= c.x <= n && 0 <= c.y <= n && 0 <= e.x <= n && 0 <= e.y <= n
    ensures Total(g, n, [a, b, c, e]) == g[a.x][a.y] + g[b.x][b.y] + g[c.x][c.y] + g[e.x][e.y]
  {
    assert [a, b, c, e][1..] == [b, c, e];
    Total3(g, n, b, c, e);
  }

  /** The grid after the zeroing: the corner arguments are 0 when d is 64,
      everything else as before. */
  lemma {:induction false} ZeroingValues(g: Grid, n: int, sq: Square, d: int)
    requires WellFormed(g, n) && Shaped(sq, n)
    ensures forall a :: a in Zeroing(sq, d) ==> Fits(a, n)
    ensures
      var h := Run(g, n, Zeroing(sq, d));
      (d != 64 ==> h == g) &&
      (d == 64 ==> h[sq.x1][sq.y1] == 0.0 && h[sq.x2][sq.y2] == 0.0 && h[sq.x3][sq.y3] == 0.0 && h[sq.x4][sq.y4] == 0.0)
  {
    BodyFits(sq, n, d, 0.0);
    if d == 64 {
      RunFour(g, n, Assign(sq.x1, sq.y1, [], 0.0), Assign(sq.x2, sq.y2, [], 0.0),
                    Assign(sq.x3, sq.y3, [], 0.0), Assign(sq.x4, sq.y4, [], 0.0));
    }
  }

  /** The five writes of a call on a 2^e square, from whatever grid h the
      zeroing left: each cell written gets its value from the values read. */
  lemma {:induction false} WritesValues(h: Grid, n: int, sq: Square, rough: real, randomNum: real, e: nat)
    requires WellFormed(h, n) && Shaped(sq, n) && Level(sq, e) && e >= 1
    ensures forall a :: a in Writes(sq, rough, randomNum) ==> Fits(a, n)
    ensures
      var f := Run(h, n, Writes(sq, rough, randomNum));
      var cx, cy := sq.CenterX(), sq.CenterY();
      var c1, c2, c3, c4 := h[sq.x1][sq.y1], h[sq.x2][sq.y2], h[sq.x3][sq.y3], h[sq.x4][sq.y4];
      var centre := randomNum + rough + c1 + c2 + c3 + c4;
      f[cx][cy] == centre &&
      f[cx][sq.y2] == c2 + c2 + centre + 0.1 * randomNum &&
      f[cx][sq.y1] == c1 + c2 + centre + 0.1 * randomNum &&
      f[sq.x1][cy] == c1 + c2 + centre + 0.1 * randomNum &&
      f[sq.x4][cy] == c4 + c2 + centre + 0.1 * randomNum &&
      f[sq.x1][sq.y1] == c1 && f[sq.x2][sq.y2] == c2 && f[sq.x3][sq.y3] == c3 &&
      (sq.y4 != cy ==> f[sq.x4][sq.y4] == c4)
  {
    WritesNew(h, n, sq, rough, randomNum, e);
    WritesCorners(h, n, sq, rough, randomNum, e);
  }

  /** The centre and the four edge midpoints after one call's writes. */
  lemma {:induction false} WritesNew(h: Grid, n: int, sq: Square, rough: real, randomNum: real, e: nat)
    requires WellFormed(h, n) && Shaped(sq, n) && Level(sq, e) && e >= 1
    ensures forall a :: a in Writes(sq, rough, randomNum) ==> Fits(a, n)
    ensures
      var f := Run(h, n, Writes(sq, rough, randomNum));
      var cx, cy := sq.CenterX(), sq.CenterY();
      var c1, c2, c3, c4 := h[sq.x1][sq.y1], h[sq.x2][sq.y2], h[sq.x3][sq.y3], h[sq.x4][sq.y4];
      var centre := randomNum + rough + c1 + c2 + c3 + c4;
      f[cx][cy] == centre &&
      f[cx][sq.y2] == c2 + c2 + centre + 0.1 * randomNum &&
      f[cx][sq.y1] == c1 + c2 + centre + 0.1 * randomNum &&
      f[sq.x1][cy] == c1 + c2 + centre + 0.1 * randomNum &&
      f[sq.x4][cy] == c4 + c2 + centre + 0.1 * randomNum
  {
    WritesFit(sq, n, rough, randomNum);
    ChildrenLevel(sq, n, e);
    var cx, cy := sq.CenterX(), sq.CenterY();
    var c1, c2, c3, c4, m := Cell(sq.x1, sq.y1), Cell(sq.x2, sq.y2), Cell(sq.x3, sq.y3), Cell(sq.x4, sq.y4), Cell(cx, cy);
    var a0 := Assign(cx, cy, [c1, c2, c3, c4], randomNum + rough);
    var a1 := Assign(cx, sq.y2, [c2, c2, m], 0.1 * randomNum);
    var a2 := Assign(cx, sq.y1, [c1, c2, m], 0.1 * randomNum);
    var a3 := Assign(sq.x1, cy, [c1, c2, m], 0.1 * randomNum);
    var a4 := Assign(sq.x4, cy, [c4, c2, m], 0.1 * randomNum);
    assert Writes(sq, rough, randomNum) == [a0, a1, a2, a3, a4];
    var h1 := Exec(h, n, a0);
    Total4(h, n, c1, c2, c3, c4);
    var h2 := Exec(h1, n, a1);
    Total3(h1, n, c2, c2, m);
    var h3 := Exec(h2, n, a2);
    Total3(h2, n, c1, c2, m);
    var h4 := Exec(h3, n, a3);
    Total3(h3, n, c1, c2, m);
    Total3(h4, n, c4, c2, m);
    RunFive(h, n, a0, a1, a2, a3, a4);
  }

  /** The corners after one call's writes: only (x4, y4) can be hit, by the
      last midpoint. */
  lemma {:induction false} WritesCorners(h: Grid, n: int, sq: Square, rough: real, randomNum: real, e: nat)
    requires WellFormed(h, n) && Shaped(sq, n) && Level(sq, e) && e >= 1
    ensures forall a :: a in Writes(sq, rough, randomNum) ==> Fits(a, n)
    ensures
      var f := Run(h, n, Writes(sq, rough, randomNum));
      var cy := sq.CenterY();
      f[sq.x1][sq.y1] == h[sq.x1][sq.y1] && f[sq.x2][sq.y2] == h[sq.x2][sq.y2] && f[sq.x3][sq.y3] == h[sq.x3][sq.y3] &&
      (sq.y4 != cy ==> f[sq.x4][sq.y4] == h[sq.x4][sq.y4])
  {
    WritesFit(sq, n, rough, randomNum);
    ChildrenLevel(sq, n, e);
    var cx, cy := sq.CenterX(), sq.CenterY();
    var c1, c2, c3, c4, m := Cell(sq.x1, sq.y1), Cell(sq.x2, sq.y2), Cell(sq.x3, sq.y3), Cell(sq.x4, sq.y4), Cell(cx, cy);
    var a0 := Assign(cx, cy, [c1, c2, c3, c4], randomNum + rough);
    var a1 := Assign(cx, sq.y2, [c2, c2, m], 0.1 * randomNum);
    var a2 := Assign(cx, sq.y1, [c1, c2, m], 0.1 * randomNum);
    var a3 := Assign(sq.x1, cy, [c1, c2, m], 0.1 * randomNum);
    var a4 := Assign(sq.x4, cy, [c4, c2, m], 0.1 * randomNum);
    assert Writes(sq, rough, randomNum) == [a0, a1, a2, a3, a4];
    RunFive(h, n, a0, a1, a2, a3, a4);
  }

  /** One call's own writes on a 2^e square. With d == 64 the four corner
      arguments first become 0 (h is the grid then; otherwise h is g). Then
      the centre and the four edge midpoints are new, each from the corner
      values read in h (the (centerX, y2) midpoint counts the (x2, y2) corner
      twice), with the same randomNum = r * rough for all five; the corners
      keep their values in h, except (x4, y4) when a midpoint lands on it. */
  lemma {:induction false} FillValues(g: Grid, n: int, sq: Square, d: int, r: real, rough: real, randomNum: real, e: nat)
    requires WellFormed(g, n) && Shaped(sq, n) && Level(sq, e) && e >= 1
    requires rough == Roughness(d) && randomNum == r * rough
    ensures forall a :: a in Zeroing(sq, d) ==> Fits(a, n)
    ensures
      var h := Run(g, n, Zeroing(sq, d));
      (d != 64 ==> h == g) &&
      (d == 64 ==> h[sq.x1][sq.y1] == 0.0 && h[sq.x2][sq.y2] == 0.0 && h[sq.x3][sq.y3] == 0.0 && h[sq.x4][sq.y4] == 0.0)
    ensures
      var h := Run(g, n, Zeroing(sq, d));
      var f := Fill(g, n, sq, d, r);
      var cx, cy := sq.CenterX(), sq.CenterY();
      var c1, c2, c3, c4 := h[sq.x1][sq.y1], h[sq.x2][sq.y2], h[sq.x3][sq.y3], h[sq.x4][sq.y4];
      var centre := randomNum + rough + c1 + c2 + c3 + c4;
      f[cx][cy] == centre &&
      f[cx][sq.y2] == c2 + c2 + centre + 0.1 * randomNum &&
      f[cx][sq.y1] == c1 + c2 + centre + 0.1 * randomNum &&
      f[sq.x1][cy] == c1 + c2 + centre + 0.1 * randomNum &&
      f[sq.x4][cy] == c4 + c2 + centre + 0.1 * randomNum &&
      f[sq.x1][sq.y1] == c1 && f[sq.x2][sq.y2] == c2 && f[sq.x3][sq.y3] == c3 &&
      (sq.y4 != cy ==> f[sq.x4][sq.y4] == c4)
  {
    BodyFits(sq, n, d, r);
    WritesAt(sq, d, r, rough, randomNum);
    RunAppend(g, n, Zeroing(sq, d), Writes(sq, rough, randomNum));
    ZeroingValues(g, n, sq, d);
    WritesValues(Run(g, n, Zeroing(sq, d)), n, sq, rough, randomNum, e);
  }

  /** The writes of a call whose amplitude and scaled draw are rough and
      randomNum. */
  lemma WritesAt(sq: Square, d: int, r: real, rough: real, randomNum: real)
    requires rough == Roughness(d) && randomNum == r * rough
    ensures Body(sq, d, r) == Zeroing(sq, d) + Writes(sq, rough, randomNum)
  {
    // Unfolding Body and equating the two products are kept in separate
    // lemmas: a single proof that does both leaves the solver with nonlinear
    // real arithmetic it gives up on.
    BodyIs(sq, d, r);
    WritesArguments(sq, Roughness(d), r * Roughness(d), rough, randomNum);
  }

  lemma BodyIs(sq: Square, d: int, r: real)
    ensures Body(sq, d, r) == Zeroing(sq, d) + Writes(sq, Roughness(d), r * Roughness(d))
  {
  }

  lemma WritesArguments(sq: Square, rough: real, randomNum: real, rough': real, randomNum': real)
    requires rough == rough' && randomNum == randomNum'
    ensures Writes(sq, rough, randomNum) == Writes(sq, rough', randomNum')
  {
  }

  /** One call's own writes leave every cell that is not interior to its
      square as it was, except that with d == 64 such a cell may become 0. */
  lemma {:induction false} FillKeeps(g: Grid, n: int, sq: Square, d: int, r: real, e: nat, i: int, j: int)
    requires WellFormed(g, n) && Shaped(sq, n) && Level(sq, e) && e >= 1
    requires 0 <= i <= n && 0 <= j <= n && !Interior(sq, i, j)
    ensures
      var f := Fill(g, n, sq, d, r);
      f[i][j] == g[i][j] || (f[i][j] == 0.0 && d == 64)
  {
    BodyFits(sq, n, d, r);
    ChildrenLevel(sq, n, e);
    var w := Writes(sq, Roughness(d), r * Roughness(d));
    assert forall a :: a in w ==> a.x != i || a.y != j;
    RunKeeps(g, n, Body(sq, d, r), i, j);
    if d != 64 {
      assert Body(sq, d, r) == w;
    }
  }

  /** A cell interior to a quarter is interior to the parent. */
  lemma {:induction false} ChildrenInside(sq: Square, n: int, e: nat, i: int, j: int)
    requires Shaped(sq, n) && Level(sq, e) && e >= 1
    ensures InQuarter(sq, i, j) ==> Interior(sq, i, j)
  {
    ChildrenLevel(sq, n, e);
  }

  /** A whole call on a 2^e square leaves every cell that is not interior to
      its square as it was, except that it may set it to 0 when d or n is 64:
      a call reached from it with `div == 64` zeroes its own corner arguments. */
  lemma {:induction false} SubdivideKeeps(g: Grid, n: int, sq: Square, d: int, rs: Draws, k: nat, e: nat, i: int, j: int)
    requires WellFormed(g, n) && Shaped(sq, n) && Level(sq, e)
    requires 0 <= i <= n && 0 <= j <= n && !Interior(sq, i, j)
    ensures
      var r := Subdivide(g, n, sq, d, rs, k).grid;
      r[i][j] == g[i][j] || (r[i][j] == 0.0 && (d == 64 || n == 64))
    decreases sq.Side(), 3
  {
    if sq.Side() > 1 {
      DivideKeeps(g, n, sq, d, rs, k, e, i, j);
    }
  }

  lemma {:induction false} DivideKeeps(g: Grid, n: int, sq: Square, d: int, rs: Draws, k: nat, e: nat, i: int, j: int)
    requires WellFormed(g, n) && Shaped(sq, n) && Level(sq, e) && sq.Side() > 1
    requires 0 <= i <= n && 0 <= j <= n && !Interior(sq, i, j)
    ensures
      var r := Divide(g, n, sq, d, rs, k).grid;
      r[i][j] == g[i][j] || (r[i][j] == 0.0 && (d == 64 || n == 64))
    decreases sq.Side(), 2
  {
    SplitKeeps(g, n, sq, d, rs(k), rs, k + 1, e, i, j);
  }

  lemma {:induction false} SplitKeeps(g: Grid, n: int, sq: Square, d: int, r: real, rs: Draws, k: nat, e: nat, i: int, j: int)
    requires WellFormed(g, n) && Shaped(sq, n) && Level(sq, e) && sq.Side() > 1
    requires 0 <= i <= n && 0 <= j <= n && !Interior(sq, i, j)
    ensures
      var f := Split(g, n, sq, d, r, rs, k).grid;
      f[i][j] == g[i][j] || (f[i][j] == 0.0 && (d == 64 || n == 64))
    decreases sq.Side(), 1
  {
    ChildrenInside(sq, n, e, i, j);
    FillKeeps(g, n, sq, d, r, e, i, j);
    QuartersKeeps(Fill(g, n, sq, d, r), n, sq, rs, k, e, i, j);
  }

  /** The four recursive calls leave every cell that is interior to none of
      the quarters as it was, except that when n is 64 it may become 0. */
  lemma {:induction false} QuartersKeeps(g: Grid, n: int, sq: Square, rs: Draws, k: nat, e: nat, i: int, j: int)
    requires WellFormed(g, n) && Shaped(sq, n) && Level(sq, e) && e >= 1
    requires 0 <= i <= n && 0 <= j <= n && !InQuarter(sq, i, j)
    ensures
      var r := Quarters(g, n, sq, rs, k).grid;
      r[i][j] == g[i][j] || (r[i][j] == 0.0 && n == 64)
    decreases sq.Side(), 0
  {
    ChildrenShaped(sq, n);
    ChildrenLevel(sq, n, e);
    var o1 := Subdivide(g, n, sq.BottomLeft(), n, rs, k);
    SubdivideKeeps(g, n, sq.BottomLeft(), n, rs, k, e - 1, i, j);
    var o2 := Subdivide(o1.grid, n, sq.TopLeft(), n, rs, o1.next);
    SubdivideKeeps(o1.grid, n, sq.TopLeft(), n, rs, o1.next, e - 1, i, j);
    var o3 := Subdivide(o2.grid, n, sq.BottomRight(), n, rs, o2.next);
    SubdivideKeeps(o2.grid, n, sq.BottomRight(), n, rs, o2.next, e - 1, i, j);
    SubdivideKeeps(o3.grid, n, sq.TopRight(), n, rs, o3.next, e - 1, i, j);
  }

  /** A call on a square of side 2^e draws exactly Calls(e) random values:
      one for itself when it is not a base case, then those of its quarters. */
  lemma {:induction false} SubdivideDraws(g: Grid, n: int, sq: Square, d: int, rs: Draws, k: nat, e: nat)
    requires WellFormed(g, n) && Shaped(sq, n) && Level(sq, e)
    ensures Subdivide(g, n, sq, d, rs, k).next == k + Calls(e)
    decreases sq.Side(), 3
  {
    if e > 0 {
      DivideDraws(g, n, sq, d, rs, k, e);
    }
  }

  lemma {:induction false} DivideDraws(g: Grid, n: int, sq: Square, d: int, rs: Draws, k: nat, e: nat)
    requires WellFormed(g, n) && Shaped(sq, n) && Level(sq, e) && e >= 1
    ensures Divide(g, n, sq, d, rs, k).next == k + Calls(e)
    decreases sq.Side(), 2
  {
    SplitDraws(g, n, sq, d, rs(k), rs, k + 1, e);
  }

  lemma {:induction false} SplitDraws(g: Grid, n: int, sq: Square, d: int, r: real, rs: Draws, k: nat, e: nat)
    requires WellFormed(g, n) && Shaped(sq, n) && Level(sq, e) && e >= 1
    ensures Split(g, n, sq, d, r, rs, k).next + 1 == k + Calls(e)
    decreases sq.Side(), 1
  {
    QuartersDraws(Fill(g, n, sq, d, r), n, sq, rs, k, e);
  }

  lemma {:induction false} QuartersDraws(g: Grid, n: int, sq: Square, rs: Draws, k: nat, e: nat)
    requires WellFormed(g, n) && Shaped(sq, n) && Level(sq, e) && e >= 1
    ensures Quarters(g, n, sq, rs, k).next + 1 == k + Calls(e)
    decreases sq.Side(), 0
  {
    ChildrenLevel(sq, n, e);
    ChildrenShaped(sq, n);
    var o1 := Subdivide(g, n, sq.BottomLeft(), n, rs, k);
    SubdivideDraws(g, n, sq.BottomLeft(), n, rs, k, e - 1);
    var o2 := Subdivide(o1.grid, n, sq.TopLeft(), n, rs, o1.next);
    SubdivideDraws(o1.grid, n, sq.TopLeft(), n, rs, o1.next, e - 1);
    var o3 := Subdivide(o2.grid, n, sq.BottomRight(), n, rs, o2.next);
    SubdivideDraws(o2.grid, n, sq.BottomRight(), n, rs, o2.next, e - 1);
    SubdivideDraws(o3.grid, n, sq.TopRight(), n, rs, o3.next, e - 1);
  }

  /** On a grid of side n == 2^e the top-level call draws (n^2 - 1) / 3 values. */
  lemma {:induction false} GenerateDraws(n: int, rs: Draws, e: nat, o: Outcome)
    requires n >= 1 && Pow2(e) == n && Shaped(Top(n), n)
    requires o == Subdivide(Zeros(n), n, Top(n), n, rs, 0)
    ensures o.next == Calls(e) && 3 * o.next + 1 == n * n
  {
    SubdivideDraws(Zeros(n), n, Top(n), n, rs, 0, e);
    CallsPow2(e);
  }

  /** What generateTriangles leaves from a zero height map and no draws: the
      height map Generate describes, after Calls(e) draws when n == 2^e. */
  lemma {:induction false} GenerateOutcome(n: int, rs: Draws, o: Outcome)
    requires n >= 1 && Shaped(Top(n), n)
    requires o == Subdivide(Zeros(n), n, Top(n), n, rs, 0)
    ensures o.grid == Generate(n, rs)
    ensures forall e: nat :: Pow2(e) == n ==> o.next == Calls(e)
  {
    forall e: nat | Pow2(e) == n
      ensures o.next == Calls(e)
    {
      GenerateDraws(n, rs, e, o);
    }
  }

  /** The centre, the four edge midpoints and the four corners of a call are
      interior to none of its quarters: its recursive calls can at most zero them. */
  lemma {:induction false} LatticeOutside(sq: Square, n: int, e: nat)
    requires Shaped(sq, n) && Level(sq, e) && e >= 1
    ensures
      var cx, cy := sq.CenterX(), sq.CenterY();
      !InQuarter(sq, cx, cy) && !InQuarter(sq, cx, sq.y2) && !InQuarter(sq, cx, sq.y1) &&
      !InQuarter(sq, sq.x1, cy) && !InQuarter(sq, sq.x3, cy) &&
      !InQuarter(sq, sq.x1, sq.y1) && !InQuarter(sq, sq.x1, sq.y2) &&
      !InQuarter(sq, sq.x3, sq.y1) && !InQuarter(sq, sq.x3, sq.y2)
  {
    ChildrenLevel(sq, n, e);
  }

  /** The recursive calls of a call leave its centre and edge midpoints as its
      own writes set them, unless n is 64. */
  lemma {:induction false} SplitLattice(g: Grid, n: int, sq: Square, d: int, r: real, rs: Draws, k: nat, e: nat)
    requires WellFormed(g, n) && Shaped(sq, n) && Level(sq, e) && e >= 1 && n != 64
    ensures
      var s, f := Split(g, n, sq, d, r, rs, k).grid, Fill(g, n, sq, d, r);
      var cx, cy := sq.CenterX(), sq.CenterY();
      s[cx][cy] == f[cx][cy] && s[cx][sq.y2] == f[cx][sq.y2] && s[cx][sq.y1] == f[cx][sq.y1] &&
      s[sq.x1][cy] == f[sq.x1][cy] && s[sq.x3][cy] == f[sq.x3][cy]
  {
    ChildrenLevel(sq, n, e);
    LatticeOutside(sq, n, e);
    var f := Fill(g, n, sq, d, r);
    var cx, cy := sq.CenterX(), sq.CenterY();
    QuartersKeeps(f, n, sq, rs, k, e, cx, cy);
    QuartersKeeps(f, n, sq, rs, k, e, cx, sq.y2);
    QuartersKeeps(f, n, sq, rs, k, e, cx, sq.y1);
    QuartersKeeps(f, n, sq, rs, k, e, sq.x1, cy);
    QuartersKeeps(f, n, sq, rs, k, e, sq.x3, cy);
  }

  /** The top-level call on a grid of side above 1 is not a base case: it
      draws the first value and recurses. */
  lemma {:induction false} GenerateSplits(n: int, rs: Draws)
    requires n >= 2
    ensures Shaped(Top(n), n)
    ensures Generate(n, rs) == Split(Zeros(n), n, Top(n), n, rs(0), rs, 1).grid
  {
    TopShaped(n);
    var z := Zeros(n);
    assert Generate(n, rs) == Subdivide(z, n, Top(n), n, rs, 0).grid;
    assert Subdivide(z, n, Top(n), n, rs, 0) == Divide(z, n, Top(n), n, rs, 0);
  }

  /** On a 2^m grid the four grid corners end at 0: no call has them inside
      its square, and the only writes to them are zeroings. */
  lemma {:induction false} GenerateCorners(n: int, m: nat, rs: Draws)
    requires n == Pow2(m)
    ensures
      var g := Generate(n, rs);
      g[0][0] == 0.0 && g[0][n] == 0.0 && g[n][0] == 0.0 && g[n][n] == 0.0
  {
    TopShaped(n);
    var z := Zeros(n);
    SubdivideKeeps(z, n, Top(n), n, rs, 0, m, 0, 0);
    SubdivideKeeps(z, n, Top(n), n, rs, 0, m, 0, n);
    SubdivideKeeps(z, n, Top(n), n, rs, 0, m, n, 0);
    SubdivideKeeps(z, n, Top(n), n, rs, 0, m, n, n);
  }

  /** On a 2^m grid with n other than 64 (and above 1), the top-level call's
      own writes are final. With randomNum = rs(0) * rough, where rough is n
      and rs(0) the first value drawn, the centre is randomNum + rough and
      each edge midpoint that plus 0.1 * randomNum, since the corners it
      reads are all 0. */
  lemma {:induction false} GenerateCentre(n: int, m: nat, rs: Draws)
    requires n == Pow2(m) && m >= 1 && n != 64
    ensures Roughness(n) == n as real
    ensures
      var g := Generate(n, rs);
      var h := n / 2;
      var randomNum := rs(0) * Roughness(n);
      var centre := randomNum + Roughness(n);
      g[h][h] == centre &&
      g[h][0] == centre + 0.1 * randomNum && g[h][n] == centre + 0.1 * randomNum &&
      g[0][h] == centre + 0.1 * randomNum && g[n][h] == centre + 0.1 * randomNum
  {
    TopShaped(n);
    GenerateSplits(n, rs);
    TopFill(n, m, rs, Roughness(n), rs(0) * Roughness(n));
    SplitLattice(Zeros(n), n, Top(n), n, rs(0), rs, 1, m);
  }

  /** The top-level call's own writes, on the all-zero grid. */
  lemma {:induction false} TopFill(n: int, m: nat, rs: Draws, rough: real, randomNum: real)
    requires n == Pow2(m) && m >= 1 && n != 64
    requires rough == Roughness(n) && randomNum == rs(0) * rough
    ensures Shaped(Top(n), n)
    ensures
      var f := Fill(Zeros(n), n, Top(n), n, rs(0));
      var h := n / 2;
      var centre := randomNum + rough;
      f[h][h] == centre &&
      f[h][0] == centre + 0.1 * randomNum && f[h][n] == centre + 0.1 * randomNum &&
      f[0][h] == centre + 0.1 * randomNum && f[n][h] == centre + 0.1 * randomNum
  {
    TopShaped(n);
    var z := Zeros(n);
    FillValues(z, n, Top(n), n, rs(0), rough, randomNum, m);
    assert Run(z, n, Zeroing(Top(n), n)) == z;
    assert z[0][0] == 0.0 && z[0][n] == 0.0 && z[n][n] == 0.0;
  }

  /** With n == 64, a call's recursive calls leave its centre at 0: the last
      of them has the centre as its corner (x2, y2), zeroes it, and nothing
      after that writes it except to zero it. */
  lemma {:induction false} QuartersZeroCentre(g: Grid, n: int, sq: Square, rs: Draws, k: nat, e: nat)
    requires WellFormed(g, n) && Shaped(sq, n) && Level(sq, e) && e >= 2 && n == 64
    ensures Quarters(g, n, sq, rs, k).grid[sq.CenterX()][sq.CenterY()] == 0.0
  {
    ChildrenShaped(sq, n);
    ChildrenLevel(sq, n, e);
    var o1 := Subdivide(g, n, sq.BottomLeft(), n, rs, k);
    var o2 := Subdivide(o1.grid, n, sq.TopLeft(), n, rs, o1.next);
    var o3 := Subdivide(o2.grid, n, sq.BottomRight(), n, rs, o2.next);
    var tr := sq.TopRight();
    assert Quarters(g, n, sq, rs, k) == Subdivide(o3.grid, n, tr, n, rs, o3.next);
    TopRightZero(o3.grid, n, tr, rs, o3.next, e - 1);
  }

  lemma {:induction false} TopRightZero(g: Grid, n: int, sq: Square, rs: Draws, k: nat, e: nat)
    requires WellFormed(g, n) && Shaped(sq, n) && Level(sq, e) && e >= 1 && n == 64
    ensures Subdivide(g, n, sq, n, rs, k).grid[sq.x2][sq.y2] == 0.0
  {
    ChildrenLevel(sq, n, e);
    assert Subdivide(g, n, sq, n, rs, k) == Divide(g, n, sq, n, rs, k);
    FillValues(g, n, sq, n, rs(k), Roughness(n), rs(k) * Roughness(n), e);
    LatticeOutside(sq, n, e);
    QuartersKeeps(Fill(g, n, sq, n, rs(k)), n, sq, rs, k + 1, e, sq.x2, sq.y2);
  }

  lemma {:induction false} SplitZeroCentre(g: Grid, n: int, sq: Square, d: int, r: real, rs: Draws, k: nat, e: nat)
    requires WellFormed(g, n) && Shaped(sq, n) && Level(sq, e) && e >= 2 && n == 64
    ensures Split(g, n, sq, d, r, rs, k).grid[sq.CenterX()][sq.CenterY()] == 0.0
  {
    QuartersZeroCentre(Fill(g, n, sq, d, r), n, sq, rs, k, e);
  }
}
