/**
 * Positions, the cell grid and the four moves between neighbouring cells.
 * Rows may have different lengths, as a JavaScript array of arrays may.
 */
module Grid {
  import opened Optional
  import opened Cells

  datatype Pos = Pos(row: int, col: int)

  /** No element occurs twice. */
  predicate Distinct<T(==)>(s: seq<T>)
  {
    forall i, j :: 0 <= i < j < |s| ==> s[i] != s[j]
  }

  type Map = seq<seq<Cell>>

  /** `p` names a cell of `g`: its row exists and the column exists in that row. */
  predicate InMap(g: Map, p: Pos)
  {
    0 <= p.row < |g| && 0 <= p.col < |g[p.row]|
  }

  /**
   * The cell at `p`. Off the grid this answers Wall: a missing column reads as
   * `undefined`, which the source treats exactly like a non-passable cell.
   */
  function CellAt(g: Map, p: Pos): (c: Cell)
    ensures InMap(g, p) ==> c == g[p.row][p.col]
    ensures !InMap(g, p) ==> !SafeToReach(c)
  {
    if InMap(g, p) then g[p.row][p.col] else Wall
  }

  /** All positions of the grid. */
  function AllPositions(g: Map): (s: set<Pos>)
    ensures forall p :: p in s <==> InMap(g, p)
  {
    var s := set r, c | 0 <= r < |g| && 0 <= c < |g[r]| :: Pos(r, c);
    assert forall p | InMap(g, p) :: p == Pos(p.row, p.col) && p in s;
    s
  }

  /** The four moves, numbered 1..4 in this order. */
  datatype Direction = Left | Right | Up | Down

  /** The cell `i` steps from `p` in direction `d`; Left/Right move the row, Up/Down the column. */
  function StepBy(p: Pos, d: Direction, i: int): Pos
  {
    match d
    case Left => Pos(p.row - i, p.col)
    case Right => Pos(p.row + i, p.col)
    case Up => Pos(p.row, p.col - i)
    case Down => Pos(p.row, p.col + i)
  }

  function Step(p: Pos, d: Direction): Pos
  {
    StepBy(p, d, 1)
  }

  /** The direction that leads from `a` to `b` in one step, if there is one. */
  function DirectionTo(a: Pos, b: Pos): (r: Option<Direction>)
    ensures r.Some? ==> Step(a, r.value) == b
    ensures r.None? ==> forall d :: Step(a, d) != b
  {
    if b == Pos(a.row - 1, a.col) then Some(Left)
    else if b == Pos(a.row + 1, a.col) then Some(Right)
    else if b == Pos(a.row, a.col - 1) then Some(Up)
    else if b == Pos(a.row, a.col + 1) then Some(Down)
    else None
  }

  predicate Adjacent(a: Pos, b: Pos)
  {
    DirectionTo(a, b).Some?
  }

  /** A step and `DirectionTo` undo each other. */
  lemma DirectionToStep(a: Pos, d: Direction)
    ensures DirectionTo(a, Step(a, d)) == Some(d)
  {
  }

  /** Adjacent cells differ by exactly one unit in exactly one coordinate. */
  lemma AdjacentIsUnitDistance(a: Pos, b: Pos)
    ensures Adjacent(a, b) <==>
      (a.row == b.row && (a.col - b.col == 1 || b.col - a.col == 1)) ||
      (a.col == b.col && (a.row - b.row == 1 || b.row - a.row == 1))
  {
  }

  /** The digit a direction is numbered with, used as its letter in a move command. */
  function Letter(d: Direction): char
  {
    match d
    case Left => '1'
    case Right => '2'
    case Up => '3'
    case Down => '4'
  }

  function FromLetter(ch: char): (r: Option<Direction>)
    ensures r.Some? ==> Letter(r.value) == ch
  {
    if ch == '1' then Some(Left)
    else if ch == '2' then Some(Right)
    else if ch == '3' then Some(Up)
    else if ch == '4' then Some(Down)
    else None
  }

  /** The move string for a sequence of directions. */
  function Letters(ds: seq<Direction>): (s: string)
    ensures |s| == |ds|
    ensures forall i :: 0 <= i < |ds| ==> FromLetter(s[i]) == Some(ds[i])
  {
    if |ds| == 0 then "" else [Letter(ds[0])] + Letters(ds[1..])
  }

  /** The positions visited by following `ds` from `p`, `p` included. */
  function Walk(p: Pos, ds: seq<Direction>): (w: seq<Pos>)
    ensures |w| == |ds| + 1 && w[0] == p
    ensures forall i :: 0 <= i < |ds| ==> w[i + 1] == Step(w[i], ds[i])
    decreases |ds|
  {
    if |ds| == 0 then [p] else [p] + Walk(Step(p, ds[0]), ds[1..])
  }
}
