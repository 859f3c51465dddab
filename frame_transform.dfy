/** `visualToActual`: from a cell of the 7 x 5 local sensor field to an absolute grid coordinate. */
module FrameTransform {
  import opened Tiles

  /** The agent's compass direction. */
  datatype Direction = North | East | South | West

  /** The sensor field has `VisualRows` rows and `VisualColumns` columns. */
  const VisualRows: nat := 7
  const VisualColumns: nat := 5

  /** The agent's own cell in the sensor field, as (row, column). */
  const VisLocation: Point := Point(5, 2)

  function Abs(n: int): nat { if n < 0 then -n else n }

  /** Is `vis` a cell of the sensor field? */
  predicate InField(vis: Point)
  {
    0 <= vis.x < VisualRows && 0 <= vis.y < VisualColumns
  }

  /** Absolute position of local cell `vis` = (row, column) for an agent at (`ax`, `ay`) facing
      `dir`: the offset from the agent's own cell, rotated to the direction. */
  function VisualToActual(ax: int, ay: int, dir: Direction, vis: Point): Point
  {
    var columnDistance := vis.x - VisLocation.x;
    var rowDistance := vis.y - VisLocation.y;
    match dir
    case North => Point(ax + columnDistance, ay - rowDistance)
    case East => Point(ax + rowDistance, ay + columnDistance)
    case South => Point(ax - columnDistance, ay + rowDistance)
    case West => Point(ax - rowDistance, ay - columnDistance)
  }

  /** The inverse rotation: which local cell an absolute coordinate comes from. */
  function ActualToVisual(ax: int, ay: int, dir: Direction, p: Point): Point
  {
    var dx := p.x - ax;
    var dy := p.y - ay;
    match dir
    case North => Point(VisLocation.x + dx, VisLocation.y - dy)
    case East => Point(VisLocation.x + dy, VisLocation.y + dx)
    case South => Point(VisLocation.x - dx, VisLocation.y + dy)
    case West => Point(VisLocation.x - dy, VisLocation.y - dx)
  }

  /** The transform is undone by `ActualToVisual`. */
  lemma VisualToActualInverse(ax: int, ay: int, dir: Direction, vis: Point)
    ensures ActualToVisual(ax, ay, dir, VisualToActual(ax, ay, dir, vis)) == vis
  {
  }

  /** The transform keeps the Manhattan distance from the agent. */
  lemma VisualToActualKeepsDistance(ax: int, ay: int, dir: Direction, vis: Point)
    ensures var p := VisualToActual(ax, ay, dir, vis);
            Abs(p.x - ax) + Abs(p.y - ay) == Abs(vis.x - VisLocation.x) + Abs(vis.y - VisLocation.y)
  {
  }

  /** The transform is onto: every absolute coordinate is the image of its local cell. */
  lemma ActualToVisualInverse(ax: int, ay: int, dir: Direction, p: Point)
    ensures VisualToActual(ax, ay, dir, ActualToVisual(ax, ay, dir, p)) == p
  {
  }

  /** For a fixed direction, distinct local cells land on distinct absolute cells. */
  lemma VisualToActualInjective(ax: int, ay: int, dir: Direction, v1: Point, v2: Point)
    requires v1 != v2
    ensures VisualToActual(ax, ay, dir, v1) != VisualToActual(ax, ay, dir, v2)
  {
    VisualToActualInverse(ax, ay, dir, v1);
    VisualToActualInverse(ax, ay, dir, v2);
  }

  /** The agent's own local cell maps to the agent's position, whatever the direction. */
  lemma OriginIsAgent(ax: int, ay: int, dir: Direction)
    ensures VisualToActual(ax, ay, dir, VisLocation) == Point(ax, ay)
  {
  }

  /** The next compass direction clockwise. */
  function TurnRight(dir: Direction): Direction
  {
    match dir
    case North => East
    case East => South
    case South => West
    case West => North
  }

  /** Turning right rotates every absolute offset by a quarter turn: (dx, dy) becomes (-dy, dx). */
  lemma TurnRightRotates(ax: int, ay: int, dir: Direction, vis: Point)
    ensures var p := VisualToActual(ax, ay, dir, vis);
            var q := VisualToActual(ax, ay, TurnRight(dir), vis);
            q.x - ax == -(p.y - ay) && q.y - ay == p.x - ax
  {
  }

  /** The two worked cases: agent at (5, 5), local cell (6, 2), facing North and facing East. */
  lemma OneAheadExamples()
    ensures VisualToActual(5, 5, North, Point(6, 2)) == Point(6, 5)
    ensures VisualToActual(5, 5, East, Point(6, 2)) == Point(5, 6)
  {
  }
}
