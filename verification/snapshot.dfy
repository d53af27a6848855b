/**
 * One game snapshot ("ticktack") as the server sends it, reduced to the
 * fields the agent reads.
 */
module Snapshot {
  import opened Cells
  import opened Grid

  /** A player as listed in a snapshot. */
  datatype PlayerInfo = PlayerInfo(
    id: string,
    currentPosition: Pos,
    lives: int,
    power: int,
    currentWeapon: Weapon,
    hasTransform: bool)

  /** A bomb on the grid, with its blast power and the id of the player who set it. */
  datatype Bomb = Bomb(pos: Pos, power: int, playerId: string)

  /**
   * A snapshot: the event tag, the id of the player the event is about, the
   * grid, the bombs, the spoil positions and the players.
   */
  datatype Ticktack = Ticktack(
    tag: Tag,
    playerId: string,
    grid: Map,
    bombs: seq<Bomb>,
    spoils: seq<Pos>,
    players: seq<PlayerInfo>)
}
