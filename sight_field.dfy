/** `updateSightField` after the frame transform, and the scan of `updateMemoryMap` over a list
    of steps: how content tokens are decoded and written into the belief grid. */
module SightField {
  import opened Wrappers
  import opened Tiles
  import opened BeliefGrid

  /** The content token marks an empty cell: it starts with `)`. */
  predicate StartsWithClose(tok: seq<char>)
  {
    |tok| > 0 && tok[0] == ')'
  }

  /** The belief state a content token reports, if it reports one: `Nothing` for the `)` marker,
      otherwise the decoded second character. Only the marker yields `Nothing`. */
  function Observation(tok: seq<char>): (r: Option<TileValue>)
    ensures r == Some(Nothing) <==> StartsWithClose(tok)
  {
    if StartsWithClose(tok) then Some(Nothing)
    else if |tok| < 2 then None
    else ValueFromChar(tok[1])
  }

  /** Writes `v` at `p`, failing outside the grid (the source's array index exception). */
  function WriteCell(g: Grid, p: Point, v: TileValue): Result<Grid, Error>
  {
    if InBounds(g, p.x, p.y) then Success(SetCell(g, p.x, p.y, v)) else Failure(OutOfBounds(p))
  }

  /** `setTile(x, y, c)`: decodes `c` and writes it at `p`. It succeeds exactly when `c` is a code
      character and `p` is in the grid; an unmapped character fails, as out-of-bounds when `p` is
      outside the grid, and otherwise as an unrecognized code. */
  function WriteChar(g: Grid, p: Point, c: char): (r: Result<Grid, Error>)
    ensures r.Success? <==> ValueFromChar(c).Some? && InBounds(g, p.x, p.y)
    ensures r.Success? ==> r.value == SetCell(g, p.x, p.y, ValueFromChar(c).value)
    ensures r.Failure? ==> r.error == if InBounds(g, p.x, p.y) then UnrecognizedTileCode(c) else OutOfBounds(p)
  {
    match ValueFromChar(c)
    case None => Failure(if InBounds(g, p.x, p.y) then UnrecognizedTileCode(c) else OutOfBounds(p))
    case Some(v) => WriteCell(g, p, v)
  }

  /** `updateSightField` once the absolute cell `p` is known. It succeeds exactly when the token
      reports a state and `p` is in the grid, and then changes that one cell to the reported
      state. A too-short token fails before the bounds are looked at; an unmapped code fails as
      out-of-bounds when `p` is outside the grid. */
  function ApplyToken(g: Grid, p: Point, tok: seq<char>): (r: Result<Grid, Error>)
    ensures r.Success? <==> Observation(tok).Some? && InBounds(g, p.x, p.y)
    ensures r.Success? ==> r.value == SetCell(g, p.x, p.y, Observation(tok).value)
    ensures r.Failure? && !StartsWithClose(tok) && |tok| < 2 ==> r.error == ShortContentToken
    ensures r.Failure? && (StartsWithClose(tok) || |tok| >= 2) && !InBounds(g, p.x, p.y) ==> r.error == OutOfBounds(p)
    ensures r.Failure? && |tok| >= 2 && InBounds(g, p.x, p.y) ==>
              !StartsWithClose(tok) && r.error == UnrecognizedTileCode(tok[1])
  {
    if StartsWithClose(tok) then WriteCell(g, p, Nothing)
    else if |tok| < 2 then Failure(ShortContentToken)
    else WriteChar(g, p, tok[1])
  }

  /** One step of a scan: the absolute cell it writes and its content token, or `None` when
      the token stream ran out before it. */
  datatype Step = Step(target: Point, token: Option<seq<char>>)

  /** A step on the grid the earlier steps left. */
  function StepAt(g: Grid, s: Step): (Grid, Outcome<Error>)
  {
    match s.token
    case None => (g, Fail(MalformedFrame))
    case Some(tok) =>
      match ApplyToken(g, s.target, tok)
      case Failure(e) => (g, Fail(e))
      case Success(g') => (g', Pass)
  }

  /** The first `n` steps of a scan: the grid they leave and whether they all went through.
      A failing step stops the scan, keeping the writes already made. */
  function RunSteps(g: Grid, plan: seq<Step>, n: nat): (Grid, Outcome<Error>)
    requires n <= |plan|
  {
    if n == 0 then (g, Pass)
    else
      var prev := RunSteps(g, plan, n - 1);
      if prev.1.Fail? then prev else StepAt(prev.0, plan[n - 1])
  }

  /** Step `s` can go through on a grid shaped like `g`. */
  predicate Acceptable(g: Grid, s: Step)
  {
    s.token.Some? && Observation(s.token.value).Some? && InBounds(g, s.target.x, s.target.y)
  }

  /** Step `s`'s observation is what `g'` holds at its target. */
  predicate Recorded(g': Grid, s: Step)
  {
    s.token.Some? && InBounds(g', s.target.x, s.target.y) &&
    Observation(s.token.value) == Some(g'[s.target.x][s.target.y])
  }

  /** No step before `n` targets cell (i, j). */
  predicate Untargeted(plan: seq<Step>, n: nat, i: int, j: int)
    requires n <= |plan|
  {
    forall k :: 0 <= k < n ==> plan[k].target != Point(i, j)
  }

  /** No two steps of the plan write the same cell. */
  predicate DistinctTargets(plan: seq<Step>)
  {
    forall k, k' :: 0 <= k < |plan| && 0 <= k' < |plan| && k != k' ==> plan[k].target != plan[k'].target
  }

  /** A step goes through exactly when it is acceptable; it keeps the grid's shape and changes at
      most its target, which then holds its observation. */
  lemma StepAtSpec(g: Grid, w: nat, h: nat, s: Step)
    requires IsGrid(g, w, h)
    ensures StepAt(g, s).1.Pass? <==> Acceptable(g, s)
    ensures Acceptable(g, s) ==>
              StepAt(g, s).0 == SetCell(g, s.target.x, s.target.y, Observation(s.token.value).value)
    ensures StepAt(g, s).1.Pass? ==> Recorded(StepAt(g, s).0, s)
    ensures IsGrid(StepAt(g, s).0, w, h)
    ensures forall i, j :: 0 <= i < w && 0 <= j < h && s.target != Point(i, j) ==> StepAt(g, s).0[i][j] == g[i][j]
  {
  }

  /** One more step of the scan. */
  lemma RunUnfold(g: Grid, plan: seq<Step>, n: nat)
    requires 0 < n <= |plan|
    ensures var prev := RunSteps(g, plan, n - 1);
            RunSteps(g, plan, n) == if prev.1.Fail? then prev else StepAt(prev.0, plan[n - 1])
  {
  }

  /** Once a step fails, later steps change nothing. */
  lemma {:induction false} RunFailureSticks(g: Grid, plan: seq<Step>, n: nat, m: nat)
    requires n <= m <= |plan|
    requires RunSteps(g, plan, n).1.Fail?
    ensures RunSteps(g, plan, m) == RunSteps(g, plan, n)
  {
    if n < m {
      RunFailureSticks(g, plan, n, m - 1);
      RunUnfold(g, plan, m);
    }
  }

  /** The scan keeps the grid's shape and changes only cells that some step so far targets,
      whether or not it went through: the writes of a failed scan persist. */
  lemma {:induction false} RunTouchesOnlyTargets(g: Grid, w: nat, h: nat, plan: seq<Step>, n: nat)
    requires IsGrid(g, w, h) && n <= |plan|
    ensures IsGrid(RunSteps(g, plan, n).0, w, h)
    ensures forall i, j :: 0 <= i < w && 0 <= j < h && Untargeted(plan, n, i, j) ==>
              RunSteps(g, plan, n).0[i][j] == g[i][j]
  {
    if n > 0 {
      RunTouchesOnlyTargets(g, w, h, plan, n - 1);
      RunUnfold(g, plan, n);
      var prev := RunSteps(g, plan, n - 1);
      if prev.1.Pass? {
        StepAtSpec(prev.0, w, h, plan[n - 1]);
        forall i, j | 0 <= i < w && 0 <= j < h && Untargeted(plan, n, i, j)
          ensures RunSteps(g, plan, n).0[i][j] == g[i][j]
        {
          assert plan[n - 1].target != Point(i, j);
          assert Untargeted(plan, n - 1, i, j);
        }
      }
    }
  }

  /** The first `n` steps go through exactly when each of them is acceptable. */
  lemma {:induction false} RunPassIff(g: Grid, w: nat, h: nat, plan: seq<Step>, n: nat)
    requires IsGrid(g, w, h) && n <= |plan|
    ensures RunSteps(g, plan, n).1.Pass? <==> forall k :: 0 <= k < n ==> Acceptable(g, plan[k])
  {
    if n > 0 {
      RunPassIff(g, w, h, plan, n - 1);
      RunTouchesOnlyTargets(g, w, h, plan, n - 1);
      RunUnfold(g, plan, n);
      var prev := RunSteps(g, plan, n - 1);
      StepAtSpec(prev.0, w, h, plan[n - 1]);
      assert Acceptable(prev.0, plan[n - 1]) == Acceptable(g, plan[n - 1]);
    }
  }

  /** A recorded observation survives a change that leaves its target alone. */
  lemma RecordedKept(g: Grid, g': Grid, w: nat, h: nat, s: Step, changed: Point)
    requires IsGrid(g, w, h) && IsGrid(g', w, h) && Recorded(g, s) && s.target != changed
    requires forall i, j :: 0 <= i < w && 0 <= j < h && changed != Point(i, j) ==> g'[i][j] == g[i][j]
    ensures Recorded(g', s)
  {
    assert g'[s.target.x][s.target.y] == g[s.target.x][s.target.y];
  }

  /** When the first `n` steps of a plan without repeated targets go through, every one of them
      has its observation in the grid at its target. */
  lemma {:induction false} RunRecords(g: Grid, w: nat, h: nat, plan: seq<Step>, n: nat)
    requires IsGrid(g, w, h) && n <= |plan| && DistinctTargets(plan)
    requires RunSteps(g, plan, n).1.Pass?
    ensures forall k :: 0 <= k < n ==> Recorded(RunSteps(g, plan, n).0, plan[k])
  {
    if n > 0 {
      RunUnfold(g, plan, n);
      var prev := RunSteps(g, plan, n - 1);
      assert prev.1.Pass?;
      RunRecords(g, w, h, plan, n - 1);
      RunTouchesOnlyTargets(g, w, h, plan, n - 1);
      StepAtSpec(prev.0, w, h, plan[n - 1]);
      var g' := RunSteps(g, plan, n).0;
      forall k | 0 <= k < n ensures Recorded(g', plan[k]) {
        if k < n - 1 {
          RecordedKept(prev.0, g', w, h, plan[k], plan[n - 1].target);
        }
      }
    }
  }
}
