/** The contents of the memory map as a value: `grid[x][y]` is the belief about cell (x, y). */
module BeliefGrid {
  import opened Wrappers
  import opened Tiles

  type Grid = seq<seq<TileValue>>

  /** Why an operation on the memory map fails (the source throws or stores `null`). */
  datatype Error =
    | MalformedFrame                 // the tokenizer ran out of tokens
    | ShortContentToken              // a content token has no second character
    | UnrecognizedTileCode(code: char)
    | OutOfBounds(at: Point)

  /** `g` has `w` columns of height `h`. */
  predicate IsGrid(g: Grid, w: nat, h: nat)
  {
    |g| == w && forall i :: 0 <= i < |g| ==> |g[i]| == h
  }

  predicate InBounds(g: Grid, x: int, y: int)
  {
    0 <= x < |g| && 0 <= y < |g[x]|
  }

  /** The state at (x, y), or `None` outside the grid. */
  function CellAt(g: Grid, x: int, y: int): Option<TileValue>
  {
    if InBounds(g, x, y) then Some(g[x][y]) else None
  }

  /** Two grids of the same shape that agree on every cell are equal. */
  lemma GridExt(g: Grid, h: Grid)
    requires |g| == |h|
    requires forall i :: 0 <= i < |g| ==> |g[i]| == |h[i]|
    requires forall i, j :: 0 <= i < |g| && 0 <= j < |g[i]| ==> g[i][j] == h[i][j]
    ensures g == h
  {
    forall i | 0 <= i < |g| ensures g[i] == h[i] {
      assert forall j :: 0 <= j < |g[i]| ==> g[i][j] == h[i][j];
    }
  }

  /** The grid of width `w` and height `h` with every cell `v`. */
  function Uniform(w: nat, h: nat, v: TileValue): (g: Grid)
    ensures IsGrid(g, w, h)
    ensures forall i, j :: 0 <= i < w && 0 <= j < h ==> g[i][j] == v
  {
    seq(w, _ => seq(h, _ => v))
  }

  /** The grid with cell (x, y) set to `v`: it keeps its shape, (x, y) reads `v`, and every
      other cell is as before. */
  function SetCell(g: Grid, x: int, y: int, v: TileValue): (g': Grid)
    requires InBounds(g, x, y)
    ensures |g'| == |g| && forall i :: 0 <= i < |g| ==> |g'[i]| == |g[i]|
    ensures g'[x][y] == v
    ensures forall i, j :: InBounds(g, i, j) && (i != x || j != y) ==> g'[i][j] == g[i][j]
  {
    g[x := g[x][y := v]]
  }

  /** Reading back after a write: the written cell reads `v`, every other cell reads its old state. */
  lemma SetThenGet(g: Grid, x: int, y: int, v: TileValue, i: int, j: int)
    requires InBounds(g, x, y)
    ensures CellAt(SetCell(g, x, y, v), i, j) == if i == x && j == y then Some(v) else CellAt(g, i, j)
  {
  }

  /** The grid of the same shape with every cell reset to `Unknown`. */
  function Cleared(g: Grid): (c: Grid)
    ensures |c| == |g| && forall i :: 0 <= i < |g| ==> |c[i]| == |g[i]|
    ensures forall i, j :: InBounds(g, i, j) ==> c[i][j] == Unknown
  {
    seq(|g|, i requires 0 <= i < |g| => seq(|g[i]|, _ => Unknown))
  }

  /** Clearing forgets everything: any two grids of one shape clear to the same grid. */
  lemma {:induction false} ClearedForgets(g: Grid, h: Grid, w: nat, ht: nat)
    requires IsGrid(g, w, ht) && IsGrid(h, w, ht)
    ensures Cleared(g) == Cleared(h) == Uniform(w, ht, Unknown)
  {
    GridExt(Cleared(g), Uniform(w, ht, Unknown));
    GridExt(Cleared(h), Uniform(w, ht, Unknown));
  }

  /** Clearing twice is clearing once. */
  lemma {:induction false} ClearedIdempotent(g: Grid)
    ensures Cleared(Cleared(g)) == Cleared(g)
  {
    GridExt(Cleared(Cleared(g)), Cleared(g));
  }

  /** The tiles of column `a`, for y ascending. */
  function Column(g: Grid, a: nat): seq<Tile>
    requires a < |g|
  {
    seq(|g[a]|, b requires 0 <= b < |g[a]| => Tile(a, b, g[a][b]))
  }

  /** The tiles of columns 0 .. n-1, x-major then y. */
  function TilesUpTo(g: Grid, n: nat): seq<Tile>
    requires n <= |g|
  {
    if n == 0 then [] else TilesUpTo(g, n - 1) + Column(g, n - 1)
  }

  /** Every tile of the grid, in the order `getAllTiles` lists them. */
  function AllTiles(g: Grid): seq<Tile>
  {
    TilesUpTo(g, |g|)
  }

  /** Position of tile (a, b) in the list for a grid of height `h`. */
  function TileIndex(h: nat, a: int, b: int): int
  {
    a * h + b
  }

  /** The tiles of the first `n` columns number `n * h`. */
  lemma {:induction false} TilesUpToLength(g: Grid, w: nat, h: nat, n: nat)
    requires IsGrid(g, w, h) && n <= w
    ensures |TilesUpTo(g, n)| == n * h
  {
    if n > 0 {
      TilesUpToLength(g, w, h, n - 1);
      assert (n - 1) * h + h == n * h;
    }
  }

  /** Tile (a, b) of the first `n` columns sits at index `a * h + b`. */
  lemma {:induction false} TilesUpToAt(g: Grid, w: nat, h: nat, n: nat, a: nat, b: nat)
    requires IsGrid(g, w, h) && n <= w && a < n && b < h
    ensures |TilesUpTo(g, n)| == n * h
    ensures TileIndex(h, a, b) < n * h && TilesUpTo(g, n)[TileIndex(h, a, b)] == Tile(a, b, g[a][b])
  {
    TilesUpToLength(g, w, h, n);
    TilesUpToLength(g, w, h, n - 1);
    var prev := TilesUpTo(g, n - 1);
    if a < n - 1 {
      TilesUpToAt(g, w, h, n - 1, a, b);
      assert TilesUpTo(g, n)[TileIndex(h, a, b)] == prev[TileIndex(h, a, b)];
    } else {
      assert TileIndex(h, a, b) == |prev| + b;
      assert TilesUpTo(g, n)[TileIndex(h, a, b)] == Column(g, n - 1)[b];
    }
  }

  /** Entry `k` of the tiles of the first `n` columns is an in-bounds cell of one of them,
      carrying that cell's state. */
  lemma {:induction false} TilesUpToEntry(g: Grid, w: nat, h: nat, n: nat, k: nat)
    requires IsGrid(g, w, h) && n <= w && k < |TilesUpTo(g, n)|
    ensures var t := TilesUpTo(g, n)[k]; InBounds(g, t.x, t.y) && t.x < n && t.value == g[t.x][t.y]
  {
    var prev := TilesUpTo(g, n - 1);
    if k < |prev| {
      TilesUpToEntry(g, w, h, n - 1, k);
      assert TilesUpTo(g, n)[k] == prev[k];
    } else {
      assert TilesUpTo(g, n)[k] == Column(g, n - 1)[k - |prev|];
    }
  }

  /** `getAllTiles` lists exactly `w * h` tiles, tile (a, b) at index `a * h + b`, each carrying its
      cell's state. */
  lemma AllTilesLayout(g: Grid, w: nat, h: nat)
    requires IsGrid(g, w, h)
    ensures |AllTiles(g)| == w * h
    ensures forall a, b :: 0 <= a < w && 0 <= b < h ==>
              0 <= TileIndex(h, a, b) < w * h && AllTiles(g)[TileIndex(h, a, b)] == Tile(a, b, g[a][b])
    ensures forall k :: 0 <= k < |AllTiles(g)| ==>
              var t := AllTiles(g)[k]; InBounds(g, t.x, t.y) && t.value == g[t.x][t.y]
  {
    TilesUpToLength(g, w, h, w);
    forall a, b | 0 <= a < w && 0 <= b < h
      ensures 0 <= TileIndex(h, a, b) < w * h && AllTiles(g)[TileIndex(h, a, b)] == Tile(a, b, g[a][b])
    {
      TilesUpToAt(g, w, h, w, a, b);
    }
    forall k | 0 <= k < |AllTiles(g)|
      ensures var t := AllTiles(g)[k]; InBounds(g, t.x, t.y) && t.value == g[t.x][t.y]
    {
      TilesUpToEntry(g, w, h, w, k);
    }
  }
}
