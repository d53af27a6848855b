/**
 * Cell, weapon and event-tag encodings of one game snapshot ("ticktack").
 * The server sends cells as small integers; `FromCode` and `Code` are the
 * two directions of that encoding.
 */
module Cells {
  import opened Optional

  /** The cell kinds a snapshot grid can hold. */
  datatype Cell = Empty | Wall | Balk | BrickWall | PrisonPlace | GodBadge | Destroyed

  /** The integer the server uses for each cell kind. */
  function Code(c: Cell): int
  {
    match c
    case Empty => 0
    case Wall => 1
    case Balk => 2
    case BrickWall => 3
    case PrisonPlace => 5
    case GodBadge => 6
    case Destroyed => 7
  }

  /** Decodes a server cell code; codes outside the enumeration decode to None. */
  function FromCode(n: int): (r: Option<Cell>)
    ensures r.Some? ==> Code(r.value) == n
    ensures n !in {0, 1, 2, 3, 5, 6, 7} ==> r.None?
  {
    if n == 0 then Some(Empty)
    else if n == 1 then Some(Wall)
    else if n == 2 then Some(Balk)
    else if n == 3 then Some(BrickWall)
    else if n == 5 then Some(PrisonPlace)
    else if n == 6 then Some(GodBadge)
    else if n == 7 then Some(Destroyed)
    else None
  }

  /** Every cell kind survives an encode/decode round trip. */
  lemma CodeRoundTrip(c: Cell)
    ensures FromCode(Code(c)) == Some(c)
  {
  }

  /** A cell a scan may step through: only Empty and GodBadge. */
  predicate PassThrough(c: Cell)
  {
    c == Empty || c == GodBadge
  }

  /** A cell a scan may evaluate as a destination (but not necessarily cross). */
  predicate SafeToReach(c: Cell)
  {
    c == Empty || c == BrickWall || c == GodBadge || c == Balk
  }

  /**
   * Passable cells are a strict subset of reachable ones; BrickWall and Balk
   * are reachable but not passable; Wall, PrisonPlace and Destroyed are neither.
   */
  lemma PassThroughWithinSafeToReach()
    ensures forall c: Cell :: PassThrough(c) ==> SafeToReach(c)
    ensures SafeToReach(Balk) && !PassThrough(Balk)
    ensures SafeToReach(BrickWall) && !PassThrough(BrickWall)
    ensures forall c: Cell :: c in {Wall, PrisonPlace, Destroyed} ==> !SafeToReach(c) && !PassThrough(c)
  {
  }

  /** The two weapons, coded 1 and 2 by the server. */
  datatype Weapon = WoodenPestle | PhachThan

  /** The closed set of event tags a snapshot can carry. */
  datatype Tag =
    | MovingBanned | StartMoving | StopMoving | BeIsolated | BackToPlayground
    | PickSpoil | StunByWeapon | StunTimeout
    | BombExploded | BombSetup
    | StartGame | UpdateData
    | IntoWeddingRoom | OuttoWeddingRoom | CompleteWedding
    | HammerExploded | WoodenPestleSetup | WindExploded
}
