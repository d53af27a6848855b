/**
 * Blast geometry: the cross-shaped danger set of one bomb, the number of
 * Balk cells a bomb would destroy, and whether a bomb would reach one of a
 * list of positions. All three walk outward along the four axes in the
 * order Left, Right, Up, Down and stop at the first cell that is not
 * Empty or GodBadge.
 */
module Blast {
  import opened Cells
  import opened Grid

  /** Cells 1..i steps from `p` along `d` are all passable. */
  ghost predicate ClearUpTo(g: Map, p: Pos, d: Direction, i: int)
  {
    forall j :: 1 <= j <= i ==> PassThrough(CellAt(g, StepBy(p, d, j)))
  }

  // ---------------------------------------------------------------------
  // Danger set (MapState.getDangerPositions)
  // ---------------------------------------------------------------------

  /**
   * One arm of the cross from distance `i` on: consecutive passable cells,
   * at most up to distance `power`.
   */
  function ArmFrom(g: Map, p: Pos, d: Direction, i: int, power: int): (r: seq<Pos>)
    requires i >= 1
    ensures |r| == 0 || i + |r| <= power + 1
    ensures forall k :: 0 <= k < |r| ==> r[k] == StepBy(p, d, i + k) && PassThrough(CellAt(g, r[k]))
    decreases power - i + 1
  {
    if i > power then []
    else if !PassThrough(CellAt(g, StepBy(p, d, i))) then []
    else [StepBy(p, d, i)] + ArmFrom(g, p, d, i + 1, power)
  }

  /** An arm ends at the power limit or just before the first blocking cell. */
  lemma {:induction false} ArmFromStops(g: Map, p: Pos, d: Direction, i: int, power: int)
    requires i >= 1
    ensures var r := ArmFrom(g, p, d, i, power);
      i + |r| > power || !PassThrough(CellAt(g, StepBy(p, d, i + |r|)))
    decreases power - i + 1
  {
    if i <= power && PassThrough(CellAt(g, StepBy(p, d, i))) {
      ArmFromStops(g, p, d, i + 1, power);
    }
  }

  function Arm(g: Map, p: Pos, d: Direction, power: int): seq<Pos>
  {
    ArmFrom(g, p, d, 1, power)
  }

  /** `getDangerPositions`: the bomb cell followed by the four arms. */
  function DangerPositions(g: Map, p: Pos, power: int): (r: seq<Pos>)
    ensures |r| >= 1 && r[0] == p
    ensures |r| <= 1 + 4 * (if power > 0 then power else 0)
  {
    [p] + Arm(g, p, Left, power) + Arm(g, p, Right, power) + Arm(g, p, Up, power) + Arm(g, p, Down, power)
  }

  /**
   * The blast reaches the cell `i` steps along `d` exactly when `i` is within
   * the power and every cell up to and including it is passable: each arm is
   * a contiguous run from distance 1 that never crosses a blocking cell.
   */
  lemma {:induction false} ArmReaches(g: Map, p: Pos, d: Direction, power: int, x: Pos)
    ensures x in Arm(g, p, d, power) <==>
      exists i :: 1 <= i <= power && x == StepBy(p, d, i) && ClearUpTo(g, p, d, i)
  {
    var a := Arm(g, p, d, power);
    if x in a {
      var k :| 0 <= k < |a| && a[k] == x;
      assert ClearUpTo(g, p, d, k + 1) by {
        forall j | 1 <= j <= k + 1 ensures PassThrough(CellAt(g, StepBy(p, d, j))) {
          assert a[j - 1] == StepBy(p, d, j);
        }
      }
    }
    if exists i :: 1 <= i <= power && x == StepBy(p, d, i) && ClearUpTo(g, p, d, i) {
      var i :| 1 <= i <= power && x == StepBy(p, d, i) && ClearUpTo(g, p, d, i);
      ArmFromStops(g, p, d, 1, power);
      assert |a| < i ==> PassThrough(CellAt(g, StepBy(p, d, |a| + 1)));
      assert a[i - 1] == x;
    }
  }

  /** Membership in the danger set of one bomb, in both directions. */
  lemma DangerCross(g: Map, p: Pos, power: int, x: Pos)
    ensures x in DangerPositions(g, p, power) <==>
      x == p || exists d, i :: 1 <= i <= power && x == StepBy(p, d, i) && ClearUpTo(g, p, d, i)
  {
    ArmReaches(g, p, Left, power, x);
    ArmReaches(g, p, Right, power, x);
    ArmReaches(g, p, Up, power, x);
    ArmReaches(g, p, Down, power, x);
    if exists d, i :: 1 <= i <= power && x == StepBy(p, d, i) && ClearUpTo(g, p, d, i) {
      var d, i :| 1 <= i <= power && x == StepBy(p, d, i) && ClearUpTo(g, p, d, i);
      assert x in Arm(g, p, d, power);
    }
  }

  /** A grid whose every row has the same length and whose outer ring is Wall. */
  ghost predicate WallBordered(g: Map)
  {
    |g| >= 1 &&
    (forall r :: 0 <= r < |g| ==> |g[r]| == |g[0]|) &&
    (forall r, c :: 0 <= r < |g| && 0 <= c < |g[r]| && (r == 0 || r == |g| - 1 || c == 0 || c == |g[r]| - 1) ==> g[r][c] == Wall)
  }

  /**
   * Each of the three probes reads the cell `i` steps out only after the
   * cells before it proved passable. On a wall-bordered grid, starting from a
   * passable cell, such a read never leaves the grid: reading off-grid cells
   * as Wall is then never exercised.
   */
  lemma ReadsStayInMap(g: Map, p: Pos, d: Direction, i: int)
    requires WallBordered(g) && PassThrough(CellAt(g, p))
    requires i >= 1 && ClearUpTo(g, p, d, i - 1)
    ensures InMap(g, StepBy(p, d, i))
  {
    var prev := StepBy(p, d, i - 1);
    assert PassThrough(CellAt(g, prev)) by {
      if i == 1 {
        assert prev == p;
      }
    }
  }

  // ---------------------------------------------------------------------
  // Balk count (MapScanner.countBoxHit)
  // ---------------------------------------------------------------------

  /** One axis of `countBoxHit`: stops at the first Balk (a hit) or blocking cell. */
  function AxisHitFrom(g: Map, p: Pos, d: Direction, i: int, power: int): bool
    requires i >= 1
    decreases power - i + 1
  {
    if i > power then false
    else if CellAt(g, StepBy(p, d, i)) == Balk then true
    else if !PassThrough(CellAt(g, StepBy(p, d, i))) then false
    else AxisHitFrom(g, p, d, i + 1, power)
  }

  function AxisHit(g: Map, p: Pos, d: Direction, power: int): bool
  {
    AxisHitFrom(g, p, d, 1, power)
  }

  function Indicator(b: bool): int
  {
    if b then 1 else 0
  }

  /** `countBoxHit`: the number of axes on which a bomb at `p` would hit a Balk. */
  function CountBoxHit(g: Map, p: Pos, power: int): (n: int)
    ensures 0 <= n <= 4
    ensures !PassThrough(CellAt(g, p)) ==> n == 0
  {
    if !PassThrough(CellAt(g, p)) then 0
    else
      Indicator(AxisHit(g, p, Left, power)) + Indicator(AxisHit(g, p, Right, power)) +
      Indicator(AxisHit(g, p, Up, power)) + Indicator(AxisHit(g, p, Down, power))
  }

  /**
   * An axis scores exactly when a Balk lies within `power` steps and every
   * cell before it is passable.
   */
  lemma {:induction false} AxisHitFromIff(g: Map, p: Pos, d: Direction, i: int, power: int)
    requires i >= 1
    ensures AxisHitFrom(g, p, d, i, power) <==>
      exists k :: i <= k <= power && CellAt(g, StepBy(p, d, k)) == Balk &&
        forall j :: i <= j < k ==> PassThrough(CellAt(g, StepBy(p, d, j)))
    decreases power - i + 1
  {
    if i <= power && CellAt(g, StepBy(p, d, i)) != Balk && PassThrough(CellAt(g, StepBy(p, d, i))) {
      AxisHitFromIff(g, p, d, i + 1, power);
      if exists k :: i <= k <= power && CellAt(g, StepBy(p, d, k)) == Balk &&
                     forall j :: i <= j < k ==> PassThrough(CellAt(g, StepBy(p, d, j))) {
        var k :| i <= k <= power && CellAt(g, StepBy(p, d, k)) == Balk &&
          forall j :: i <= j < k ==> PassThrough(CellAt(g, StepBy(p, d, j)));
        assert k != i;
      }
    }
  }

  lemma AxisHitIff(g: Map, p: Pos, d: Direction, power: int)
    ensures AxisHit(g, p, d, power) <==>
      exists k :: 1 <= k <= power && CellAt(g, StepBy(p, d, k)) == Balk && ClearUpTo(g, p, d, k - 1)
  {
    AxisHitFromIff(g, p, d, 1, power);
  }

  /**
   * A bomb at `p` counts some Balk exactly when it stands on a passable cell
   * and some axis has a Balk within `power` steps behind passable cells.
   */
  lemma CountBoxHitPositive(g: Map, p: Pos, power: int)
    ensures CountBoxHit(g, p, power) > 0 <==>
      PassThrough(CellAt(g, p)) &&
      exists d, k :: 1 <= k <= power && CellAt(g, StepBy(p, d, k)) == Balk && ClearUpTo(g, p, d, k - 1)
  {
    if CountBoxHit(g, p, power) > 0 {
      var d :=
        if AxisHit(g, p, Left, power) then Left
        else if AxisHit(g, p, Right, power) then Right
        else if AxisHit(g, p, Up, power) then Up
        else Down;
      AxisHitIff(g, p, d, power);
    }
    if PassThrough(CellAt(g, p)) &&
       exists d, k :: 1 <= k <= power && CellAt(g, StepBy(p, d, k)) == Balk && ClearUpTo(g, p, d, k - 1) {
      var d, k :| 1 <= k <= power && CellAt(g, StepBy(p, d, k)) == Balk && ClearUpTo(g, p, d, k - 1);
      AxisHitIff(g, p, d, power);
    }
  }

  /**
   * The Balk an axis counts is the cell right past the end of the blast arm:
   * the box count and the danger set stop at the same cell.
   */
  lemma {:induction false} AxisHitFromIsPastArm(g: Map, p: Pos, d: Direction, i: int, power: int)
    requires i >= 1
    ensures var a := ArmFrom(g, p, d, i, power);
      AxisHitFrom(g, p, d, i, power) <==> i + |a| <= power && CellAt(g, StepBy(p, d, i + |a|)) == Balk
    decreases power - i + 1
  {
    if i <= power && PassThrough(CellAt(g, StepBy(p, d, i))) {
      AxisHitFromIsPastArm(g, p, d, i + 1, power);
    }
  }

  lemma AxisHitIsPastArm(g: Map, p: Pos, d: Direction, power: int)
    ensures AxisHit(g, p, d, power) <==>
      |Arm(g, p, d, power)| < power && CellAt(g, StepBy(p, d, |Arm(g, p, d, power)| + 1)) == Balk
  {
    AxisHitFromIsPastArm(g, p, d, 1, power);
  }

  /** A bomb of power 0 or less counts nothing. */
  lemma NoPowerNoHit(g: Map, p: Pos, power: int)
    requires power <= 0
    ensures CountBoxHit(g, p, power) == 0
  {
  }

  // ---------------------------------------------------------------------
  // Target reach (MapScanner.hasHitTarget)
  // ---------------------------------------------------------------------

  /** One axis of `hasHitTarget`: distances below `power`, target check before the block check. */
  function AxisTargetFrom(g: Map, p: Pos, d: Direction, i: int, power: int, targets: seq<Pos>): bool
    requires i >= 1
    decreases power - i
  {
    if i >= power then false
    else if StepBy(p, d, i) in targets then true
    else if !PassThrough(CellAt(g, StepBy(p, d, i))) then false
    else AxisTargetFrom(g, p, d, i + 1, power, targets)
  }

  /** `hasHitTarget`: whether a bomb at `p` would reach one of `targets`. */
  function HasHitTarget(p: Pos, g: Map, power: int, targets: seq<Pos>): bool
  {
    if |targets| == 0 then false
    else
      AxisTargetFrom(g, p, Left, 1, power, targets) || AxisTargetFrom(g, p, Right, 1, power, targets) ||
      AxisTargetFrom(g, p, Up, 1, power, targets) || AxisTargetFrom(g, p, Down, 1, power, targets)
  }

  lemma {:induction false} AxisTargetFromIff(g: Map, p: Pos, d: Direction, i: int, power: int, targets: seq<Pos>)
    requires i >= 1
    ensures AxisTargetFrom(g, p, d, i, power, targets) <==>
      exists k :: i <= k < power && StepBy(p, d, k) in targets &&
        forall j :: i <= j < k ==> PassThrough(CellAt(g, StepBy(p, d, j)))
    decreases power - i
  {
    if i < power && StepBy(p, d, i) !in targets && PassThrough(CellAt(g, StepBy(p, d, i))) {
      AxisTargetFromIff(g, p, d, i + 1, power, targets);
      if exists k :: i <= k < power && StepBy(p, d, k) in targets &&
                     forall j :: i <= j < k ==> PassThrough(CellAt(g, StepBy(p, d, j))) {
        var k :| i <= k < power && StepBy(p, d, k) in targets &&
          forall j :: i <= j < k ==> PassThrough(CellAt(g, StepBy(p, d, j)));
        assert k != i;
      }
    }
  }

  /**
   * A bomb at `p` reaches a target exactly when, on some axis, a target lies
   * 1..power-1 steps away with only passable cells before it; the target's
   * own cell need not be passable.
   */
  lemma HasHitTargetIff(p: Pos, g: Map, power: int, targets: seq<Pos>)
    ensures HasHitTarget(p, g, power, targets) <==>
      exists d, k :: 1 <= k < power && StepBy(p, d, k) in targets && ClearUpTo(g, p, d, k - 1)
  {
    AxisTargetFromIff(g, p, Left, 1, power, targets);
    AxisTargetFromIff(g, p, Right, 1, power, targets);
    AxisTargetFromIff(g, p, Up, 1, power, targets);
    AxisTargetFromIff(g, p, Down, 1, power, targets);
    if exists d, k :: 1 <= k < power && StepBy(p, d, k) in targets && ClearUpTo(g, p, d, k - 1) {
      var d, k :| 1 <= k < power && StepBy(p, d, k) in targets && ClearUpTo(g, p, d, k - 1);
      assert AxisTargetFrom(g, p, d, 1, power, targets);
    }
  }

  /** With power 1 or less, or no targets, nothing is hit. */
  lemma WeakBombHitsNothing(p: Pos, g: Map, power: int, targets: seq<Pos>)
    requires power <= 1 || |targets| == 0
    ensures !HasHitTarget(p, g, power, targets)
  {
  }
}
