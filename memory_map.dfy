/** The class `MemoryMap`: the agent's belief grid, updated in place. */
module Memory {
  import opened Wrappers
  import opened Tiles
  import opened FrameTransform
  import opened Tokenizer
  import opened BeliefGrid
  import opened SightField
  import opened Perception

  /** A method left state `now` (from `before`) and returned `res` as the pure `step` says:
      on success the new grid and `Pass`, on failure the old grid and the error. */
  ghost predicate Leaves(step: Result<Grid, Error>, res: Outcome<Error>, now: Grid, before: Grid)
  {
    match step
    case Success(g) => res == Pass && now == g
    case Failure(e) => res == Fail(e) && now == before
  }

  class MemoryMap {
    const xDomain: nat
    const yDomain: nat
    const cells: array2<TileValue>

    /** The array has the domains' dimensions. */
    ghost predicate Valid()
    {
      cells.Length0 == xDomain && cells.Length1 == yDomain
    }

    /** The contents of the array as a grid value. */
    ghost function Contents(): (g: Grid)
      reads cells
      ensures IsGrid(g, cells.Length0, cells.Length1)
      ensures forall i, j :: 0 <= i < cells.Length0 && 0 <= j < cells.Length1 ==> g[i][j] == cells[i, j]
    {
      seq(cells.Length0, i requires 0 <= i < cells.Length0 reads cells =>
        seq(cells.Length1, j requires 0 <= j < cells.Length1 reads cells => cells[i, j]))
    }

    predicate InRange(x: int, y: int)
    {
      0 <= x < xDomain && 0 <= y < yDomain
    }

    /** A map of `x` by `y` cells, all `Unknown`. */
    constructor (x: nat, y: nat)
      ensures Valid() && xDomain == x && yDomain == y && fresh(cells)
      ensures Contents() == Uniform(x, y, Unknown)
    {
      xDomain, yDomain := x, y;
      cells := new TileValue[x, y];
      new;
      SetMapUnknown();
    }

    /** `setMapUnknown`: writes `Unknown` at every tile that `getAllTiles` lists. */
    method SetMapUnknown()
      requires Valid()
      modifies cells
      ensures Contents() == Uniform(xDomain, yDomain, Unknown)
    {
      var tiles := GetAllTiles();
      AllTilesLayout(old(Contents()), xDomain, yDomain);
      for i := 0 to |tiles|
        invariant forall k :: 0 <= k < i ==> cells[tiles[k].x, tiles[k].y] == Unknown
      {
        var t := tiles[i];
        var _ := SetTile(t.x, t.y, Unknown);
      }
      forall a, b | 0 <= a < xDomain && 0 <= b < yDomain ensures cells[a, b] == Unknown {
        assert tiles[TileIndex(yDomain, a, b)] == Tile(a, b, old(Contents())[a][b]);
      }
      GridExt(Contents(), Uniform(xDomain, yDomain, Unknown));
    }

    /** `clearMemory`: every cell becomes `Unknown`, whatever it held; the shape stays. */
    method ClearMemory()
      requires Valid()
      modifies cells
      ensures Contents() == Cleared(old(Contents()))
    {
      for x := 0 to xDomain
        invariant forall a, b :: 0 <= a < x && 0 <= b < yDomain ==> cells[a, b] == Unknown
      {
        for y := 0 to yDomain
          invariant forall a, b :: 0 <= a < x && 0 <= b < yDomain ==> cells[a, b] == Unknown
          invariant forall b :: 0 <= b < y ==> cells[x, b] == Unknown
        {
          var _ := SetTile(x, y, Unknown);
        }
      }
      GridExt(Contents(), Cleared(old(Contents())));
    }

    /** `setTile(x, y, v)`: writes `v` at (x, y) and changes nothing else; out of range it fails
      and writes nothing (the source's array index exception). */
    method SetTile(x: int, y: int, v: TileValue) returns (res: Outcome<Error>)
      requires Valid()
      modifies cells
      ensures Leaves(WriteCell(old(Contents()), Point(x, y), v), res, Contents(), old(Contents()))
      ensures res.Pass? <==> InRange(x, y)
      ensures res.Pass? ==> cells[x, y] == v
      ensures forall i, j :: 0 <= i < xDomain && 0 <= j < yDomain && (i != x || j != y) ==> cells[i, j] == old(cells[i, j])
    {
      if !InRange(x, y) {
        return Fail(OutOfBounds(Point(x, y)));
      }
      cells[x, y] := v;
      res := Pass;
      GridExt(Contents(), SetCell(old(Contents()), x, y, v));
    }

    /** `setTile(x, y, c)`: decodes `c` and writes it; an unmapped code fails and writes nothing. */
    method SetTileFromChar(x: int, y: int, c: char) returns (res: Outcome<Error>)
      requires Valid()
      modifies cells
      ensures Leaves(WriteChar(old(Contents()), Point(x, y), c), res, Contents(), old(Contents()))
    {
      var v := ValueFromChar(c);
      if v.None? {
        return Fail(if InRange(x, y) then UnrecognizedTileCode(c) else OutOfBounds(Point(x, y)));
      }
      res := SetTile(x, y, v.value);
    }

    /** `getTileValue(x, y)`: the state at (x, y), `None` out of range. */
    function GetTileValue(x: int, y: int): (r: Option<TileValue>)
      requires Valid()
      reads cells
      ensures r == CellAt(Contents(), x, y)
    {
      if InRange(x, y) then Some(cells[x, y]) else None
    }

    /** `getTile(x, y)`: the snapshot of (x, y), `None` out of range. */
    function GetTile(x: int, y: int): (r: Option<Tile>)
      requires Valid()
      reads cells
      ensures r.Some? <==> CellAt(Contents(), x, y).Some?
      ensures r.Some? ==> r.value == Tile(x, y, CellAt(Contents(), x, y).value)
    {
      match GetTileValue(x, y)
      case None => None
      case Some(v) => Some(Tile(x, y, v))
    }

    /** `getNumTiles`: as many as `getAllTiles` lists. */
    function GetNumTiles(): (n: nat)
      requires Valid()
      reads cells
      ensures n == |AllTiles(Contents())|
    {
      AllTilesLayout(Contents(), xDomain, yDomain);
      xDomain * yDomain
    }

    /** `getAllTiles`: every tile, x-major then y, each with its cell's current state. */
    method GetAllTiles() returns (tiles: seq<Tile>)
      requires Valid()
      ensures tiles == AllTiles(Contents())
    {
      tiles := [];
      for x := 0 to xDomain
        invariant tiles == TilesUpTo(Contents(), x)
      {
        for y := 0 to yDomain
          invariant tiles == TilesUpTo(Contents(), x) + Column(Contents(), x)[..y]
        {
          assert Column(Contents(), x)[..y + 1] == Column(Contents(), x)[..y] + [Tile(x, y, cells[x, y])];
          tiles := tiles + [Tile(x, y, cells[x, y])];
        }
        assert Column(Contents(), x)[..yDomain] == Column(Contents(), x);
      }
    }

    /** `updateSightField`: writes what content token `visChars` reports at the absolute cell of
      local cell `visTile`. */
    method UpdateSightField(ax: int, ay: int, dir: Direction, visTile: Point, visChars: seq<char>)
      returns (res: Outcome<Error>)
      requires Valid()
      modifies cells
      ensures Leaves(ApplyToken(old(Contents()), VisualToActual(ax, ay, dir, visTile), visChars), res, Contents(), old(Contents()))
    {
      var actual := VisualToActual(ax, ay, dir, visTile);
      if |visChars| > 0 && visChars[0] == ')' {
        res := SetTile(actual.x, actual.y, Nothing);
        return;
      }
      if |visChars| < 2 {
        return Fail(ShortContentToken);
      }
      res := SetTileFromChar(actual.x, actual.y, visChars[1]);
    }
 
    /** `updateMemoryMap`: splits the reading on `(` and scans the tokens: skips the header, then
      for rows 6 down to 0 skips the row's delimiter and, for columns 0 to 4, skips a delimiter
      and applies the next token to the cell. The result and the grid are those of `RunFrame`: running out of tokens
      fails as a malformed reading, any failure stops the scan, earlier writes stay. */
    method UpdateMemoryMap(ax: int, ay: int, dir: Direction, visualInformation: seq<char>)
      returns (res: Outcome<Error>)
      requires Valid()
      modifies cells
      ensures (Contents(), res) == RunFrame(old(Contents()), ax, ay, dir, Tokenize(visualInformation))
    {
      var tokens := Tokenize(visualInformation);
      res := ScanTokens(ax, ay, dir, tokens);
    }

    /** The loops of `updateMemoryMap`, driving the tokenizer over the token list `tokens`: the
      header, then the row groups from row 6 down to row 0. */
    method ScanTokens(ax: int, ay: int, dir: Direction, tokens: seq<seq<char>>) returns (res: Outcome<Error>)
      requires Valid()
      modifies cells
      ensures (Contents(), res) == RunFrame(old(Contents()), ax, ay, dir, tokens)
    {
      ghost var g0 := Contents();
      var tok, pos := NextToken(tokens, 0);
      if tok.None? {
        MalformedStops(g0, ax, ay, dir, tokens, 0);
        return Fail(MalformedFrame);
      }
      ghost var k: nat := 0;
      for r := VisualRows downto 0
        invariant RowsDone(VisualRows - r, k, pos)
        invariant Run(g0, ax, ay, dir, tokens, k) == (Contents(), Pass)
      {
        NextRow(VisualRows - 1 - r, k, pos);
        res, pos := ScanRow(ax, ay, dir, tokens, r, pos, g0, k);
        if res.Fail? {
          return;
        }
        k := k + VisualColumns;
      }
      AllRowsDone(k, pos);
      res := Pass;
    }

    /** One row group: the row's delimiter, then for columns 0 to 4 a delimiter and a content
      token, applied with `updateSightField`. Row `r` is steps `k0 = 5 * (6 - r)` to `k0 + 4`
      of the scan. */
    method ScanRow(ax: int, ay: int, dir: Direction, tokens: seq<seq<char>>, r: nat, pos: nat,
                   ghost g0: Grid, ghost k0: nat)
      returns (res: Outcome<Error>, next: nat)
      requires Valid() && RowStart(r, k0, pos)
      requires Run(g0, ax, ay, dir, tokens, k0) == (Contents(), Pass)
      modifies cells
      ensures res.Pass? ==>
                next == pos + GroupTokens &&
                Run(g0, ax, ay, dir, tokens, k0 + VisualColumns) == (Contents(), Pass)
      ensures res.Fail? ==> RunFrame(g0, ax, ay, dir, tokens) == (Contents(), res)
    {
      var tok;
      tok, next := NextToken(tokens, pos);
      if tok.None? {
        RowColumn(r, k0, pos, 0);
        MalformedStops(g0, ax, ay, dir, tokens, k0);
        return Fail(MalformedFrame), next;
      }
      for c := 0 to VisualColumns
        invariant next == pos + 1 + 2 * c
        invariant Run(g0, ax, ay, dir, tokens, k0 + c) == (Contents(), Pass)
      {
        RowColumn(r, k0, pos, c);
        res, next := ScanColumn(ax, ay, dir, tokens, Point(r, c), next, g0, k0 + c);
        if res.Fail? {
          return;
        }
      }
      res := Pass;
    }

    /** One column of a row group: a delimiter, then the content token of step `k`, applied with
      `updateSightField` to local cell `vis`. */
    method ScanColumn(ax: int, ay: int, dir: Direction, tokens: seq<seq<char>>, vis: Point, pos: nat,
                      ghost g0: Grid, ghost k: nat)
      returns (res: Outcome<Error>, next: nat)
      requires Valid() && k < ScanLength
      requires ScanCell(k) == vis && ContentIndex(k) == pos + 1
      requires Run(g0, ax, ay, dir, tokens, k) == (Contents(), Pass)
      modifies cells
      ensures res.Pass? ==> next == pos + 2 && Run(g0, ax, ay, dir, tokens, k + 1) == (Contents(), Pass)
      ensures res.Fail? ==> RunFrame(g0, ax, ay, dir, tokens) == (Contents(), res)
    {
      var tok;
      tok, next := NextToken(tokens, pos);
      if tok.None? {
        MalformedStops(g0, ax, ay, dir, tokens, k);
        return Fail(MalformedFrame), next;
      }
      var visChars;
      visChars, next := NextToken(tokens, next);
      if visChars.None? {
        MalformedStops(g0, ax, ay, dir, tokens, k);
        return Fail(MalformedFrame), next;
      }
      ghost var before := Contents();
      res := UpdateSightField(ax, ay, dir, vis, visChars.value);
      StepTaken(g0, ax, ay, dir, tokens, k, before, Contents(), res);
    }
  }

  /** `nextToken` on the token list at cursor `pos`: the token there and the advanced cursor,
      or `None` (the source's `NoSuchElementException`) once the list is used up. */
  method NextToken(tokens: seq<seq<char>>, pos: nat) returns (tok: Option<seq<char>>, next: nat)
    ensures pos < |tokens| ==> tok == Some(tokens[pos]) && next == pos + 1
    ensures |tokens| <= pos ==> tok == None && next == pos
  {
    if pos < |tokens| {
      tok, next := Some(tokens[pos]), pos + 1;
    } else {
      tok, next := None, pos;
    }
  }

  /** The scan step at which row group `rows` (counted from 0) starts. */
  function GroupStep(rows: nat): nat
  {
    if rows == 0 then 0 else GroupStep(rows - 1) + VisualColumns
  }

  /** The token at which row group `rows` (counted from 0) starts: after the header and the
      earlier groups. */
  function GroupToken(rows: nat): nat
  {
    if rows == 0 then 1 else GroupToken(rows - 1) + GroupTokens
  }

  /** Row group `rows` starts at step `5 * rows` and token `1 + 11 * rows`. */
  lemma {:induction false} GroupOffsets(rows: nat)
    ensures GroupStep(rows) == rows * VisualColumns
    ensures GroupToken(rows) == 1 + rows * GroupTokens
  {
    if rows > 0 {
      GroupOffsets(rows - 1);
    }
  }

  /** After the header and `rows` row groups the scan is at step `k` and token `pos`. */
  ghost predicate RowsDone(rows: nat, k: nat, pos: nat)
  {
    rows <= VisualRows && k <= ScanLength && k == GroupStep(rows) && pos == GroupToken(rows)
  }

  /** Row `r` of the scan starts at step `k0`, with its delimiter at token `pos`. */
  ghost predicate RowStart(r: nat, k0: nat, pos: nat)
  {
    r < VisualRows && k0 + VisualColumns <= ScanLength && RowsDone(VisualRows - 1 - r, k0, pos)
  }

  /** After `rows` row groups the next row group is row `6 - rows`, and after it `rows + 1`
      groups are done. */
  lemma NextRow(rows: nat, k: nat, pos: nat)
    requires rows < VisualRows && RowsDone(rows, k, pos)
    ensures RowStart(VisualRows - 1 - rows, k, pos)
    ensures RowsDone(rows + 1, k + VisualColumns, pos + GroupTokens)
  {
    GroupOffsets(rows + 1);
  }

  /** Once every row group is done the whole scan is. */
  lemma AllRowsDone(k: nat, pos: nat)
    requires RowsDone(VisualRows, k, pos)
    ensures k == ScanLength
  {
    GroupOffsets(VisualRows);
  }

  /** Column `c` of the row that starts at step `k0` and token `pos` is step `k0 + c`, with its
      content token at `pos + 2 + 2 * c`. */
  lemma RowColumn(r: nat, k0: nat, pos: nat, c: nat)
    requires RowStart(r, k0, pos) && c < VisualColumns
    ensures k0 + c < ScanLength && ScanCell(k0 + c) == Point(r, c)
    ensures ContentIndex(k0 + c) == pos + 2 + 2 * c
  {
    GroupOffsets(VisualRows - 1 - r);
    ScanStep(r, c);
  }

  /** The content token of step `k` is missing: the reading fails there, keeping the grid the
      earlier steps left. */
  lemma MalformedStops(g: Grid, ax: int, ay: int, dir: Direction, tokens: seq<seq<char>>, k: nat)
    requires k < ScanLength && |tokens| <= ContentIndex(k)
    requires Run(g, ax, ay, dir, tokens, k).1.Pass?
    ensures RunFrame(g, ax, ay, dir, tokens) == (Run(g, ax, ay, dir, tokens, k).0, Fail(MalformedFrame))
  {
    var plan := Plan(ax, ay, dir, tokens);
    RunUnfold(g, plan, k + 1);
    RunFailureSticks(g, plan, k + 1, ScanLength);
  }

  /** `updateSightField` on the content token of step `k` extends the scan by one step; after a
      failure no later step changes anything. */
  lemma StepTaken(g: Grid, ax: int, ay: int, dir: Direction, tokens: seq<seq<char>>, k: nat,
                  before: Grid, after: Grid, res: Outcome<Error>)
    requires k < ScanLength && ContentIndex(k) < |tokens|
    requires Run(g, ax, ay, dir, tokens, k) == (before, Pass)
    requires Leaves(ApplyToken(before, Target(ax, ay, dir, k), tokens[ContentIndex(k)]), res, after, before)
    ensures Run(g, ax, ay, dir, tokens, k + 1) == (after, res)
    ensures res.Fail? ==> RunFrame(g, ax, ay, dir, tokens) == (after, res)
  {
    var plan := Plan(ax, ay, dir, tokens);
    RunUnfold(g, plan, k + 1);
    assert plan[k] == Step(Target(ax, ay, dir, k), Some(tokens[ContentIndex(k)]));
    if res.Fail? {
      RunFailureSticks(g, plan, k + 1, ScanLength);
    }
  }
}
