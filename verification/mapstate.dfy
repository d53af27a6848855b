/**
 * `MapState`: what one engine derives from a snapshot before deciding —
 * where the bombs are, which cells their blasts cover, where teammates and
 * opponents stand, and whether a Balk can be reached.
 */
module MapStates {
  import opened Optional
  import opened Cells
  import opened Grid
  import opened Draws
  import opened Blast
  import opened SearchTree
  import opened Scanner
  import opened Snapshot

  datatype MapState = MapState(
    reachBalk: bool,
    bombPositions: seq<Pos>,
    dangerPositions: seq<Pos>,
    spoilPositions: seq<Pos>,
    memberPositions: seq<Pos>,
    opponentPositions: seq<Pos>)

  /** The cells some bomb's blast covers. */
  ghost predicate Endangered(g: Map, bombs: seq<Bomb>, x: Pos)
  {
    exists j :: 0 <= j < |bombs| && x in DangerPositions(g, bombs[j].pos, bombs[j].power)
  }

  /** The parts joined in order. */
  function Concat(parts: seq<seq<Pos>>): (r: seq<Pos>)
    ensures (forall j :: 0 <= j < |parts| ==> |parts[j]| >= 1) ==> |r| >= |parts|
    decreases |parts|
  {
    if |parts| == 0 then []
    else
      var init := parts[..|parts| - 1];
      assert forall j :: 0 <= j < |init| ==> init[j] == parts[j];
      Concat(init) + parts[|parts| - 1]
  }

  /** A position is in the concatenation exactly when it is in one of the parts. */
  lemma {:induction false} ConcatIff(parts: seq<seq<Pos>>, x: Pos)
    ensures x in Concat(parts) <==> exists j :: 0 <= j < |parts| && x in parts[j]
    decreases |parts|
  {
    if |parts| > 0 {
      var init := parts[..|parts| - 1];
      var last := parts[|parts| - 1];
      ConcatIff(init, x);
      assert Concat(parts) == Concat(init) + last;
      if exists j :: 0 <= j < |parts| && x in parts[j] {
        var j :| 0 <= j < |parts| && x in parts[j];
        if j < |init| {
          assert init[j] == parts[j];
        }
      }
      if x in Concat(init) {
        var j :| 0 <= j < |init| && x in init[j];
        assert init[j] == parts[j];
      }
    }
  }

  /** The blast set of every bomb, in bomb order. */
  function Blasts(g: Map, bombs: seq<Bomb>): (r: seq<seq<Pos>>)
    ensures |r| == |bombs|
    ensures forall j :: 0 <= j < |bombs| ==> r[j] == DangerPositions(g, bombs[j].pos, bombs[j].power)
  {
    seq(|bombs|, j requires 0 <= j < |bombs| => DangerPositions(g, bombs[j].pos, bombs[j].power))
  }

  /** The blast sets of all bombs, concatenated in bomb order. */
  function AllDanger(g: Map, bombs: seq<Bomb>): (r: seq<Pos>)
    ensures |r| >= |bombs|
  {
    Concat(Blasts(g, bombs))
  }

  /** A cell is in the aggregated list exactly when some bomb's blast covers it. */
  lemma AllDangerIff(g: Map, bombs: seq<Bomb>, x: Pos)
    ensures x in AllDanger(g, bombs) <==> Endangered(g, bombs, x)
  {
    var parts := Blasts(g, bombs);
    ConcatIff(parts, x);
    if exists j :: 0 <= j < |parts| && x in parts[j] {
      var j :| 0 <= j < |parts| && x in parts[j];
      assert x in DangerPositions(g, bombs[j].pos, bombs[j].power);
    }
  }

  /** Every bomb's own cell is dangerous. */
  lemma BombCellsAreDangerous(g: Map, bombs: seq<Bomb>)
    ensures forall j :: 0 <= j < |bombs| ==> bombs[j].pos in AllDanger(g, bombs)
  {
    forall j | 0 <= j < |bombs|
      ensures bombs[j].pos in AllDanger(g, bombs)
    {
      AllDangerIff(g, bombs, bombs[j].pos);
      assert DangerPositions(g, bombs[j].pos, bombs[j].power)[0] == bombs[j].pos;
    }
  }

  /** A teammate other than the engine's own player. */
  predicate IsMember(teamIds: seq<string>, selfId: string, p: PlayerInfo)
  {
    p.id in teamIds && p.id != selfId
  }

  /** Anyone whose id is not on the team. */
  predicate IsOpponent(teamIds: seq<string>, p: PlayerInfo)
  {
    p.id !in teamIds
  }

  /** The positions of the teammates, in snapshot order. */
  function MemberPositions(players: seq<PlayerInfo>, teamIds: seq<string>, selfId: string): (r: seq<Pos>)
    ensures |r| <= |players|
    ensures forall x :: x in r <==>
      exists j :: 0 <= j < |players| && IsMember(teamIds, selfId, players[j]) && players[j].currentPosition == x
    decreases |players|
  {
    if |players| == 0 then []
    else
      var rest := MemberPositions(players[1..], teamIds, selfId);
      assert forall j :: 0 <= j < |players| - 1 ==> players[1..][j] == players[j + 1];
      if IsMember(teamIds, selfId, players[0]) then [players[0].currentPosition] + rest else rest
  }

  /** Without a team there are no teammates. */
  lemma {:induction false} NoTeamNoMembers(players: seq<PlayerInfo>, selfId: string)
    ensures MemberPositions(players, [], selfId) == []
    decreases |players|
  {
    if |players| > 0 {
      NoTeamNoMembers(players[1..], selfId);
    }
  }

  /** The positions of the opponents, in snapshot order. */
  function OpponentPositions(players: seq<PlayerInfo>, teamIds: seq<string>): (r: seq<Pos>)
    ensures |r| <= |players|
    ensures forall x :: x in r <==>
      exists j :: 0 <= j < |players| && IsOpponent(teamIds, players[j]) && players[j].currentPosition == x
    decreases |players|
  {
    if |players| == 0 then []
    else
      var rest := OpponentPositions(players[1..], teamIds);
      assert forall j :: 0 <= j < |players| - 1 ==> players[1..][j] == players[j + 1];
      if IsOpponent(teamIds, players[0]) then [players[0].currentPosition] + rest else rest
  }

  /** Everyone except the engine's own player stands in one of the two lists. */
  lemma OthersAreSplit(players: seq<PlayerInfo>, teamIds: seq<string>, selfId: string)
    ensures forall j :: 0 <= j < |players| && players[j].id != selfId ==>
      players[j].currentPosition in MemberPositions(players, teamIds, selfId) + OpponentPositions(players, teamIds)
  {
    forall j | 0 <= j < |players| && players[j].id != selfId
      ensures players[j].currentPosition in MemberPositions(players, teamIds, selfId) + OpponentPositions(players, teamIds)
    {
      if players[j].id in teamIds {
        assert IsMember(teamIds, selfId, players[j]);
      } else {
        assert IsOpponent(teamIds, players[j]);
      }
    }
  }

  function BombPositions(bombs: seq<Bomb>): (r: seq<Pos>)
    ensures |r| == |bombs| && forall j :: 0 <= j < |bombs| ==> r[j] == bombs[j].pos
  {
    seq(|bombs|, j requires 0 <= j < |bombs| => bombs[j].pos)
  }

  /**
   * The `MapState` constructor: bomb and blast lists, the team split, and a
   * scan from `nextPosition` (teammates and opponents blocking, every
   * probed cell accepted) that notes whether a Balk was probed.
   */
  method BuildMapState(t: Ticktack, teamIds: seq<string>, selfId: string, power: int, nextPosition: Pos,
                       dirs: nat -> DirDraw)
    returns (ms: MapState, r: ScanResult)
    ensures ms.bombPositions == BombPositions(t.bombs)
    ensures ms.dangerPositions == AllDanger(t.grid, t.bombs)
    ensures ms.spoilPositions == t.spoils
    ensures ms.memberPositions == MemberPositions(t.players, teamIds, selfId)
    ensures ms.opponentPositions == OpponentPositions(t.players, teamIds)
    ensures |r.expanded| >= 1 && r.expanded[0] == nextPosition
    ensures Saturated(t.grid, nextPosition, ms.dangerPositions, ms.memberPositions + ms.opponentPositions, r.expanded)
    ensures ProbesNeighbors(t.grid, ms.memberPositions + ms.opponentPositions, r.expanded, r.probed)
    ensures Grown(t.grid, nextPosition, ms.dangerPositions, ms.memberPositions + ms.opponentPositions, r.tree, r.expanded)
    ensures forall x :: x in r.expanded <==>
      Reachable(t.grid, nextPosition, ms.dangerPositions, ms.memberPositions + ms.opponentPositions, x)
    ensures ms.reachBalk <==> exists p :: p in r.probed && CellAt(t.grid, p) == Balk
    ensures ms.reachBalk <==> exists x ::
      Frontier(t.grid, nextPosition, ms.dangerPositions, ms.memberPositions + ms.opponentPositions, x) &&
      CellAt(t.grid, x) == Balk
  {
    var danger := AllDanger(t.grid, t.bombs);
    var members := MemberPositions(t.players, teamIds, selfId);
    var opponents := OpponentPositions(t.players, teamIds);
    r := Scan(t.grid, nextPosition, power, danger, members + opponents, (m: Map, p: Pos) => true, dirs);
    assert Grown(t.grid, nextPosition, danger, members + opponents, r.tree, r.expanded);
    ExpandedIffReachable(t.grid, nextPosition, danger, members + opponents, r.tree, r.expanded);
    ProbedIffFrontier(t.grid, nextPosition, danger, members + opponents, r.tree, r.expanded, r.probed);
    var reachBalk := exists p :: p in r.probed && CellAt(t.grid, p) == Balk;
    ms := MapState(reachBalk, BombPositions(t.bombs), danger, t.spoils, members, opponents);
  }

  /** `addDangerPositions`: the positions go to `bombPositions`; the blast list stays as it is. */
  function AddDangerPositions(ms: MapState, positions: seq<Pos>): (r: MapState)
    ensures r.bombPositions == ms.bombPositions + positions
    ensures r.dangerPositions == ms.dangerPositions
    ensures r.(bombPositions := ms.bombPositions) == ms
  {
    ms.(bombPositions := ms.bombPositions + positions)
  }
}
