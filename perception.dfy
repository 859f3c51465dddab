/** `updateMemoryMap` on grid values: the fixed scan of one sensor reading, placed by the
    frame transform and written into the belief grid. */
module Perception {
  import opened Wrappers
  import opened Tiles
  import opened FrameTransform
  import opened BeliefGrid
  import opened SightField

  /** The scan: `ScanLength` cells of the field, rows from last to first, columns ascending. */
  const ScanLength: nat := VisualRows * VisualColumns

  /** Tokens per row group: its delimiter, then a delimiter and a content token per column. */
  const GroupTokens: nat := 1 + 2 * VisualColumns

  /** Tokens a complete reading has: the header and the row groups. */
  const FrameTokens: nat := 1 + VisualRows * GroupTokens

  /** The local cell visited at step `k` of the scan: the first row group is the last row,
      and each group walks its columns in ascending order. */
  function ScanCell(k: nat): Point
  {
    if k < VisualColumns then Point(VisualRows - 1, k)
    else var p := ScanCell(k - VisualColumns); Point(p.x - 1, p.y)
  }

  /** The index of the content token read at step `k`: the header, then per earlier row group
      `GroupTokens` tokens, then this group's delimiter and two tokens per earlier column, and
      the column's own delimiter. */
  function ContentIndex(k: nat): nat
  {
    if k < VisualColumns then 1 + 1 + 2 * k + 1
    else ContentIndex(k - VisualColumns) + GroupTokens
  }

  /** The absolute cell written at step `k`. */
  function Target(ax: int, ay: int, dir: Direction, k: nat): Point
  {
    VisualToActual(ax, ay, dir, ScanCell(k))
  }

  /** In row `r`, column `c` the scan is at step `5 * (6 - r) + c`, reading content token
      `1 + 11 * (6 - r) + 2 + 2 * c`. */
  lemma {:induction false} ScanStep(r: nat, c: nat)
    requires r < VisualRows && c < VisualColumns
    ensures var k := (VisualRows - 1 - r) * VisualColumns + c;
            k < ScanLength && ScanCell(k) == Point(r, c) &&
            ContentIndex(k) == 1 + (VisualRows - 1 - r) * GroupTokens + 2 + 2 * c
    decreases VisualRows - r
  {
    if r < VisualRows - 1 {
      ScanStep(r + 1, c);
      var k := (VisualRows - 1 - r) * VisualColumns + c;
      assert k - VisualColumns == (VisualRows - 1 - (r + 1)) * VisualColumns + c;
    }
  }

  /** Step `k` visits row `6 - k / 5`, column `k % 5`. */
  lemma {:induction false} ScanCellAt(k: nat)
    ensures ScanCell(k) == Point(VisualRows - 1 - k / VisualColumns, k % VisualColumns)
    ensures ContentIndex(k) == 3 + GroupTokens * (k / VisualColumns) + 2 * (k % VisualColumns)
  {
    if k >= VisualColumns {
      ScanCellAt(k - VisualColumns);
      assert (k - VisualColumns) / VisualColumns == k / VisualColumns - 1;
      assert (k - VisualColumns) % VisualColumns == k % VisualColumns;
    }
  }

  /** The scan reads its content tokens in increasing order, all before `FrameTokens`, and
      visits every local cell once. */
  lemma ScanOrder(k: nat, k': nat)
    requires k < k' < ScanLength
    ensures ContentIndex(k) < ContentIndex(k') < FrameTokens
    ensures InField(ScanCell(k)) && ScanCell(k) != ScanCell(k')
  {
    ScanCellAt(k);
    ScanCellAt(k');
  }

  /** Distinct scan steps write distinct absolute cells, so no write of a reading overwrites an
      earlier one. */
  lemma TargetsDistinct(ax: int, ay: int, dir: Direction, k: nat, k': nat)
    requires k < ScanLength && k' < ScanLength && k != k'
    ensures Target(ax, ay, dir, k) != Target(ax, ay, dir, k')
  {
    if k < k' { ScanOrder(k, k'); } else { ScanOrder(k', k); }
    VisualToActualInjective(ax, ay, dir, ScanCell(k), ScanCell(k'));
  }

  /** The steps `updateMemoryMap` takes for a reading split into `tokens`, for an agent at
      (`ax`, `ay`) facing `dir`: step `k` writes `Target(k)` from token `ContentIndex(k)`, if the
      reading is that long. */
  function Plan(ax: int, ay: int, dir: Direction, tokens: seq<seq<char>>): seq<Step>
  {
    seq(ScanLength, k requires 0 <= k < ScanLength =>
      Step(Target(ax, ay, dir, k), if ContentIndex(k) < |tokens| then Some(tokens[ContentIndex(k)]) else None))
  }

  /** The first `n` steps of `updateMemoryMap`. */
  function Run(g: Grid, ax: int, ay: int, dir: Direction, tokens: seq<seq<char>>, n: nat): (Grid, Outcome<Error>)
    requires n <= ScanLength
  {
    RunSteps(g, Plan(ax, ay, dir, tokens), n)
  }

  /** The whole reading. */
  function RunFrame(g: Grid, ax: int, ay: int, dir: Direction, tokens: seq<seq<char>>): (Grid, Outcome<Error>)
  {
    Run(g, ax, ay, dir, tokens, ScanLength)
  }

  /** No two steps of a reading write the same absolute cell. */
  lemma PlanDistinct(ax: int, ay: int, dir: Direction, tokens: seq<seq<char>>)
    ensures DistinctTargets(Plan(ax, ay, dir, tokens))
  {
    var plan := Plan(ax, ay, dir, tokens);
    forall k, k' | 0 <= k < |plan| && 0 <= k' < |plan| && k != k'
      ensures plan[k].target != plan[k'].target
    {
      TargetsDistinct(ax, ay, dir, k, k');
    }
  }

  /** A complete reading needs all its tokens: the last content token is token 77. */
  lemma {:induction false} ContentIndexBound(k: nat)
    requires k < ScanLength
    ensures ContentIndex(k) < FrameTokens
    ensures k == ScanLength - 1 ==> ContentIndex(k) == FrameTokens - 1
  {
    ScanCellAt(k);
  }

  /** A reading goes through exactly when it has all `FrameTokens` tokens, every content token
      reports a state, and every target cell is in the grid. */
  lemma FramePassIff(g: Grid, w: nat, h: nat, ax: int, ay: int, dir: Direction, tokens: seq<seq<char>>)
    requires IsGrid(g, w, h)
    ensures RunFrame(g, ax, ay, dir, tokens).1.Pass? <==>
            && FrameTokens <= |tokens|
            && forall k :: 0 <= k < ScanLength ==>
                 ContentIndex(k) < |tokens| &&
                 Observation(tokens[ContentIndex(k)]).Some? &&
                 InBounds(g, Target(ax, ay, dir, k).x, Target(ax, ay, dir, k).y)
  {
    var plan := Plan(ax, ay, dir, tokens);
    RunPassIff(g, w, h, plan, ScanLength);
    ContentIndexBound(ScanLength - 1);
    if FrameTokens <= |tokens| {
      forall k | 0 <= k < ScanLength
        ensures ContentIndex(k) < |tokens|
        ensures Acceptable(g, plan[k]) <==>
                  Observation(tokens[ContentIndex(k)]).Some? &&
                  InBounds(g, Target(ax, ay, dir, k).x, Target(ax, ay, dir, k).y)
      {
        ContentIndexBound(k);
        assert plan[k] == Step(Target(ax, ay, dir, k), Some(tokens[ContentIndex(k)]));
      }
    } else {
      assert !Acceptable(g, plan[ScanLength - 1]);
    }
  }

  /** Fewer than `FrameTokens` tokens always fail. */
  lemma ShortReadingFails(g: Grid, w: nat, h: nat, ax: int, ay: int, dir: Direction, tokens: seq<seq<char>>)
    requires IsGrid(g, w, h)
    requires |tokens| < FrameTokens
    ensures RunFrame(g, ax, ay, dir, tokens).1.Fail?
  {
    FramePassIff(g, w, h, ax, ay, dir, tokens);
  }

  /** The effect of a reading that goes through: each of the `ScanLength` target cells holds the
      observation of its content token, and every other cell is as before. */
  lemma FrameEffect(g: Grid, w: nat, h: nat, ax: int, ay: int, dir: Direction, tokens: seq<seq<char>>)
    requires IsGrid(g, w, h)
    requires RunFrame(g, ax, ay, dir, tokens).1.Pass?
    ensures var g' := RunFrame(g, ax, ay, dir, tokens).0;
            && IsGrid(g', w, h)
            && (forall k :: 0 <= k < ScanLength ==>
                  var p := Target(ax, ay, dir, k);
                  ContentIndex(k) < |tokens| && InBounds(g', p.x, p.y) &&
                  Observation(tokens[ContentIndex(k)]) == Some(g'[p.x][p.y]))
            && (forall i, j ::
                  (0 <= i < w && 0 <= j < h &&
                   forall k :: 0 <= k < ScanLength ==> Target(ax, ay, dir, k) != Point(i, j)) ==>
                  g'[i][j] == g[i][j])
  {
    var plan := Plan(ax, ay, dir, tokens);
    PlanDistinct(ax, ay, dir, tokens);
    RunRecords(g, w, h, plan, ScanLength);
    RunTouchesOnlyTargets(g, w, h, plan, ScanLength);
    var g' := RunFrame(g, ax, ay, dir, tokens).0;
    forall k | 0 <= k < ScanLength
      ensures var p := Target(ax, ay, dir, k);
              ContentIndex(k) < |tokens| && InBounds(g', p.x, p.y) &&
              Observation(tokens[ContentIndex(k)]) == Some(g'[p.x][p.y])
    {
      assert Recorded(g', plan[k]);
    }
    forall i, j | 0 <= i < w && 0 <= j < h &&
                  (forall k :: 0 <= k < ScanLength ==> Target(ax, ay, dir, k) != Point(i, j))
      ensures g'[i][j] == g[i][j]
    {
      assert Untargeted(plan, ScanLength, i, j);
    }
  }

  /** A content token starting with `)` leaves its target cell `Nothing` after the reading. */
  lemma CloseMarkerWritesNothing(g: Grid, w: nat, h: nat, ax: int, ay: int, dir: Direction, tokens: seq<seq<char>>, k: nat)
    requires IsGrid(g, w, h) && k < ScanLength
    requires RunFrame(g, ax, ay, dir, tokens).1.Pass?
    requires ContentIndex(k) < |tokens| && StartsWithClose(tokens[ContentIndex(k)])
    ensures var g' := RunFrame(g, ax, ay, dir, tokens).0;
            var p := Target(ax, ay, dir, k);
            InBounds(g', p.x, p.y) && g'[p.x][p.y] == Nothing
  {
    FrameEffect(g, w, h, ax, ay, dir, tokens);
  }

  /** Tokens after the first `FrameTokens` are never read. */
  lemma TrailingTokensIgnored(g: Grid, ax: int, ay: int, dir: Direction, tokens: seq<seq<char>>)
    requires FrameTokens <= |tokens|
    ensures RunFrame(g, ax, ay, dir, tokens) == RunFrame(g, ax, ay, dir, tokens[..FrameTokens])
  {
    var p1 := Plan(ax, ay, dir, tokens);
    var p2 := Plan(ax, ay, dir, tokens[..FrameTokens]);
    forall k | 0 <= k < ScanLength ensures p1[k] == p2[k] {
      ContentIndexBound(k);
    }
    assert p1 == p2;
  }
}
