/**
 * `PlayerAction`: the per-player decision engine. Each snapshot first goes
 * through `ConsumeTicktack` (pending-path bookkeeping and a fresh
 * `MapState`), then `NextAction` picks an action and composes the command
 * the client sends.
 */
module PlayerActions {
  import opened Optional
  import opened Cells
  import opened Grid
  import opened Draws
  import opened Blast
  import opened SearchTree
  import opened Selection
  import opened Scanner
  import opened Snapshot
  import opened MapStates

  datatype Action = GoAround | TakeBrickWall | Wait | SwitchWeapon | GoSafe | Attack

  /** The client calls an engine makes: drive along a move string, switch weapon, marry. */
  datatype Command = Drive(steps: string, isChild: bool) | Switch | Marry

  /** The random draws one `NextAction` call consumes. */
  datatype Entropy = Entropy(dirs: nat -> DirDraw, pick: Fraction)

  /** The engine's state; times are milliseconds on the caller's clock. */
  datatype PlayerAction = PlayerAction(
    info: PlayerInfo,
    ticktack: Ticktack,
    isChild: bool,
    expected: seq<Pos>,
    lastPosition: Option<Pos>,
    lastPositionTime: int,
    lastStop: Option<int>,
    gameStart: bool,
    counting: int,
    nextAttack: bool,
    takeBrickWall: bool,
    nextPosition: Pos,
    mapState: MapState,
    teamIds: seq<string>,
    timeToMarry: int,
    enableRandomSelector: bool,
    delaySwitchingWeaponTime: int)

  // ---- Queries ----

  predicate IsGod(e: PlayerAction)
  {
    e.info.hasTransform || e.isChild
  }

  /** The snapshot reports that this engine's own player started moving. */
  predicate IsStartMoving(e: PlayerAction)
  {
    e.ticktack.playerId == e.info.id && e.ticktack.tag == StartMoving
  }

  predicate InDanger(e: PlayerAction)
  {
    e.nextPosition in e.mapState.dangerPositions
  }

  predicate IsAtGodBadge(e: PlayerAction)
  {
    CellAt(e.ticktack.grid, e.info.currentPosition) == GodBadge
  }

  predicate HasBombsOnMap(e: PlayerAction)
  {
    exists j :: 0 <= j < |e.ticktack.bombs| && e.ticktack.bombs[j].playerId == e.info.id
  }

  /** `shouldWait` (its delay clause is constant false): a pending path and no start-moving event. */
  predicate ShouldWait(e: PlayerAction)
  {
    !IsStartMoving(e) && |e.expected| > 0
  }

  /** A bomb here would hit a Balk or an opponent. */
  predicate HasTargetToHit(e: PlayerAction)
  {
    CountBoxHit(e.ticktack.grid, e.info.currentPosition, e.info.power) > 0 ||
    HasHitTarget(e.info.currentPosition, e.ticktack.grid, e.info.power, e.mapState.opponentPositions)
  }

  /**
   * A bomb here has something to hit exactly when, standing on a passable
   * cell, some axis has a Balk within `power` steps behind passable cells,
   * or some axis has an opponent 1..power-1 steps away behind passable
   * cells.
   */
  lemma HasTargetToHitIff(e: PlayerAction)
    ensures HasTargetToHit(e) <==>
      var g, p, power := e.ticktack.grid, e.info.currentPosition, e.info.power;
      || (PassThrough(CellAt(g, p)) &&
          exists d, k :: 1 <= k <= power && CellAt(g, StepBy(p, d, k)) == Balk && ClearUpTo(g, p, d, k - 1))
      || (exists d, k :: 1 <= k < power && StepBy(p, d, k) in e.mapState.opponentPositions && ClearUpTo(g, p, d, k - 1))
  {
    CountBoxHitPositive(e.ticktack.grid, e.info.currentPosition, e.info.power);
    HasHitTargetIff(e.info.currentPosition, e.ticktack.grid, e.info.power, e.mapState.opponentPositions);
  }

  /** A bomb here would hit a teammate. */
  predicate HitMembers(e: PlayerAction)
  {
    HasHitTarget(e.info.currentPosition, e.ticktack.grid, e.info.power, e.mapState.memberPositions)
  }

  /** A bomb here would hit a teammate only if one stands in the blast's reach. */
  lemma HitMembersNeedsMember(e: PlayerAction)
    requires e.info.power <= 1 || |e.mapState.memberPositions| == 0
    ensures !HitMembers(e)
  {
    WeakBombHitsNothing(e.info.currentPosition, e.ticktack.grid, e.info.power, e.mapState.memberPositions);
  }

  // ---- getNextAction ----

  /** Safe, standing on a GodBadge and not yet god: wait to be transformed. */
  predicate BadgeWait(e: PlayerAction)
  {
    !InDanger(e) && IsAtGodBadge(e) && !IsGod(e)
  }

  /** PhachThan with no reachable Balk, at least 500 ms after the last switch. */
  predicate SwitchToPestle(e: PlayerAction, now: int)
  {
    e.delaySwitchingWeaponTime + 500 < now && e.info.currentWeapon == PhachThan && !e.mapState.reachBalk
  }

  /** WoodenPestle, god and no own bomb down, at least 1000 ms after the last switch. */
  predicate SwitchToPhachThan(e: PlayerAction, now: int)
  {
    e.delaySwitchingWeaponTime + 1000 < now && e.info.currentWeapon == WoodenPestle && IsGod(e) && !HasBombsOnMap(e)
  }

  /**
   * `getNextAction`: the first rule that applies wins. Each action is
   * characterised by the rules that must fail before it and its own rule;
   * only the consumed flag or the switch timestamp changes.
   */
  function GetNextAction(e: PlayerAction, now: int): (r: (Action, PlayerAction))
    ensures r.0 == TakeBrickWall <==> e.takeBrickWall && !BadgeWait(e)
    ensures r.0 == GoSafe <==> InDanger(e) && !e.takeBrickWall
    ensures r.0 == Wait <==> BadgeWait(e) || (!e.takeBrickWall && !InDanger(e) && |e.expected| > 0)
    ensures r.0 == SwitchWeapon <==>
              && !BadgeWait(e) && !e.takeBrickWall && !InDanger(e) && |e.expected| == 0
              && (SwitchToPestle(e, now) || SwitchToPhachThan(e, now))
    ensures r.0 == Attack <==>
              && !BadgeWait(e) && !e.takeBrickWall && !InDanger(e) && |e.expected| == 0
              && !SwitchToPestle(e, now) && !SwitchToPhachThan(e, now) && e.nextAttack
    ensures r.0 == GoAround <==>
              && !BadgeWait(e) && !e.takeBrickWall && !InDanger(e) && |e.expected| == 0
              && !SwitchToPestle(e, now) && !SwitchToPhachThan(e, now) && !e.nextAttack
    ensures r.1.takeBrickWall == (e.takeBrickWall && r.0 != TakeBrickWall)
    ensures r.1.nextAttack == (e.nextAttack && r.0 != Attack)
    ensures r.1.delaySwitchingWeaponTime == if r.0 == SwitchWeapon then now else e.delaySwitchingWeaponTime
    ensures r.1 == e.(takeBrickWall := r.1.takeBrickWall, nextAttack := r.1.nextAttack,
                      delaySwitchingWeaponTime := r.1.delaySwitchingWeaponTime)
  {
    if !InDanger(e) && IsAtGodBadge(e) && !IsGod(e) then (Wait, e)
    else if e.takeBrickWall then (TakeBrickWall, e.(takeBrickWall := false))
    else if InDanger(e) then (GoSafe, e)
    else if |e.expected| > 0 then (Wait, e)
    else if e.delaySwitchingWeaponTime + 500 < now && e.info.currentWeapon == PhachThan && !e.mapState.reachBalk then
      (SwitchWeapon, e.(delaySwitchingWeaponTime := now))
    else if e.delaySwitchingWeaponTime + 1000 < now && e.info.currentWeapon == WoodenPestle && IsGod(e) && !HasBombsOnMap(e) then
      (SwitchWeapon, e.(delaySwitchingWeaponTime := now))
    else if e.nextAttack && |e.expected| == 0 then (Attack, e.(nextAttack := false))
    else (GoAround, e)
  }

  // ---- handleUnexpectedStop ----

  /** How this player's own movement events move the counter. */
  function Delta(t: Ticktack, id: string): int
  {
    if t.playerId == id && t.tag == StartMoving then 1
    else if t.playerId == id && t.tag == StopMoving then -1
    else 0
  }

  /**
   * `handleUnexpectedStop`: the movement-confirmation counter after one
   * snapshot, and whether the callback fires (the counter would go negative).
   */
  function Recount(counting: int, t: Ticktack, id: string): (r: (int, bool))
    ensures counting >= 0 ==> r.0 >= 0
    ensures counting >= 0 ==> (r.1 <==> t.playerId == id && t.tag == StopMoving && counting == 0)
    ensures r.1 ==> r.0 == 0
    ensures !r.1 ==> r.0 == counting + Delta(t, id)
    ensures counting >= 0 && t.playerId != id ==> r == (counting, false)
  {
    var c := if t.playerId == id && t.tag == StartMoving then counting + 1 else counting;
    var c' := if t.playerId == id && t.tag == StopMoving then c - 1 else c;
    if c' < 0 then (0, true) else (c', false)
  }

  function Starts(evs: seq<Ticktack>, id: string): nat
  {
    if |evs| == 0 then 0 else (if evs[0].playerId == id && evs[0].tag == StartMoving then 1 else 0) + Starts(evs[1..], id)
  }

  function Stops(evs: seq<Ticktack>, id: string): nat
  {
    if |evs| == 0 then 0 else (if evs[0].playerId == id && evs[0].tag == StopMoving then 1 else 0) + Stops(evs[1..], id)
  }

  /** The counter after a run of snapshots, and how many times the callback fired. */
  function CountThrough(counting: int, evs: seq<Ticktack>, id: string): (int, nat)
    decreases |evs|
  {
    if |evs| == 0 then (counting, 0)
    else
      var step := Recount(counting, evs[0], id);
      var rest := CountThrough(step.0, evs[1..], id);
      (rest.0, rest.1 + if step.1 then 1 else 0)
  }

  /**
   * Over any run of snapshots the counter stays non-negative and balances:
   * final = initial + own starts - own stops + callbacks fired.
   */
  lemma {:induction false} CountingBalance(counting: int, evs: seq<Ticktack>, id: string)
    requires counting >= 0
    ensures CountThrough(counting, evs, id).0 >= 0
    ensures CountThrough(counting, evs, id).0 ==
      counting + Starts(evs, id) - Stops(evs, id) + CountThrough(counting, evs, id).1
    decreases |evs|
  {
    if |evs| > 0 {
      var step := Recount(counting, evs[0], id);
      CountingBalance(step.0, evs[1..], id);
    }
  }

  // ---- consumeTicktack ----

  /** The player has not moved since `lastPositionTime`, which is over a second ago. */
  predicate Stale(e: PlayerAction, now: int)
  {
    e.lastPosition == Some(e.info.currentPosition) && e.lastPositionTime + 1000 < now
  }

  /** Pops the head of the pending path when the player stands on it. */
  function Shift(expected: seq<Pos>, current: Pos): (r: seq<Pos>)
    ensures |expected| > 0 && expected[0] == current ==> r == expected[1..]
    ensures !(|expected| > 0 && expected[0] == current) ==> r == expected
    ensures |r| <= |expected| && r == expected[|expected| - |r|..]
  {
    if |expected| > 0 && expected[0] == current then expected[1..] else expected
  }

  /**
   * When the path goes stale: the clock restarts on a move or on an
   * unexpected stop, so only an unmoved player past its second times out.
   */
  function LastPositionTime(e: PlayerAction, fired: bool, now: int): (t: int)
    ensures t + 1000 < now <==> !fired && Stale(e, now)
  {
    var moved := e.lastPosition.None? || e.lastPosition.value != e.info.currentPosition;
    if moved || fired then now else e.lastPositionTime
  }

  /**
   * `consumeTicktack` apart from rebuilding the map state: pop the reached
   * head of the pending path, note movement, count start/stop events, drop
   * the path after an unexpected stop or a second without moving, and
   * choose the position the next decision is made from.
   */
  function Advance(e: PlayerAction, payload: Ticktack, now: int): (r: PlayerAction)
    ensures r.ticktack == payload && r.info == e.info && r.mapState == e.mapState
  {
    var current := e.info.currentPosition;
    var recount := Recount(e.counting, payload, e.info.id);
    var clock := LastPositionTime(e, recount.1, now);
    var timedOut := clock + 1000 < now;
    var expected := if recount.1 || timedOut then [] else Shift(e.expected, current);
    var lastStop := if e.gameStart && |expected| == 0 && (e.lastStop.None? || e.lastStop.value == 0) then Some(now) else e.lastStop;
    var startMoving := payload.playerId == e.info.id && payload.tag == StartMoving;
    var nextPosition := if startMoving && |expected| > 0 then expected[0] else current;
    var nextAttack := if startMoving && |expected| > 0 then true else e.nextAttack;
    e.(ticktack := payload, expected := expected, lastPosition := Some(current),
       lastPositionTime := if timedOut then now else clock,
       counting := recount.0, lastStop := lastStop, nextPosition := nextPosition, nextAttack := nextAttack)
  }

  /**
   * The pending path only shrinks: it loses its head when the player stands
   * on it, and is dropped entirely after an unexpected stop or a stale
   * second; otherwise it stays as it was.
   */
  lemma AdvancePath(e: PlayerAction, payload: Ticktack, now: int)
    ensures |Advance(e, payload, now).expected| <= |e.expected|
    ensures var r := Advance(e, payload, now); r.expected == e.expected[|e.expected| - |r.expected|..]
    ensures Recount(e.counting, payload, e.info.id).1 || Stale(e, now) ==> Advance(e, payload, now).expected == []
    ensures !Recount(e.counting, payload, e.info.id).1 && !Stale(e, now) ==>
      Advance(e, payload, now).expected == Shift(e.expected, e.info.currentPosition)
  {
  }

  /**
   * The next decision is made from the head of the pending path on this
   * player's start-moving event (which also arms the attack flag), and from
   * the current position otherwise.
   */
  lemma AdvanceNextPosition(e: PlayerAction, payload: Ticktack, now: int)
    ensures var r := Advance(e, payload, now);
      IsStartMoving(r) && |r.expected| > 0 ==> r.nextPosition == r.expected[0] && r.nextAttack
    ensures var r := Advance(e, payload, now);
      !(IsStartMoving(r) && |r.expected| > 0) ==> r.nextPosition == e.info.currentPosition && r.nextAttack == e.nextAttack
  {
  }

  /** Consuming a snapshot touches only the bookkeeping fields. */
  lemma AdvanceFrame(e: PlayerAction, payload: Ticktack, now: int)
    ensures var r := Advance(e, payload, now);
      && r.counting == Recount(e.counting, payload, e.info.id).0
      && r.lastPosition == Some(e.info.currentPosition)
      && r == e.(ticktack := payload, expected := r.expected, lastPosition := r.lastPosition,
                 lastPositionTime := r.lastPositionTime, counting := r.counting, lastStop := r.lastStop,
                 nextPosition := r.nextPosition, nextAttack := r.nextAttack)
  {
  }

  /** `consumeTicktack`: `Advance`, then a map state built from the new snapshot. */
  method ConsumeTicktack(e: PlayerAction, payload: Ticktack, now: int, dirs: nat -> DirDraw) returns (e': PlayerAction)
    ensures e'.(mapState := e.mapState) == Advance(e, payload, now)
    ensures e'.info == e.info && e'.isChild == e.isChild && e'.teamIds == e.teamIds && e'.ticktack == payload
    ensures e'.mapState.dangerPositions == AllDanger(payload.grid, payload.bombs)
    ensures e'.mapState.memberPositions == MemberPositions(payload.players, e.teamIds, e.info.id)
    ensures e'.mapState.opponentPositions == OpponentPositions(payload.players, e.teamIds)
    ensures e'.mapState.spoilPositions == payload.spoils
    ensures e'.mapState.bombPositions == BombPositions(payload.bombs)
    ensures e'.mapState.reachBalk <==> exists x ::
      Frontier(payload.grid, e'.nextPosition, e'.mapState.dangerPositions, Blocked(e'), x) && CellAt(payload.grid, x) == Balk
  {
    var r := Advance(e, payload, now);
    var ms, _ := BuildMapState(payload, r.teamIds, r.info.id, r.info.power, r.nextPosition, dirs);
    e' := r.(mapState := ms);
  }

  /** The constructor: nothing pending, clocks started at `now`, a map state for the first snapshot. */
  method NewPlayerAction(info: PlayerInfo, ticktack: Ticktack, isChild: bool, now: int, dirs: nat -> DirDraw)
    returns (e: PlayerAction)
    ensures e.info == info && e.ticktack == ticktack && e.isChild == isChild
    ensures e.expected == [] && e.counting == 0 && !e.takeBrickWall && !e.nextAttack && !e.gameStart
    ensures e.nextPosition == info.currentPosition && e.teamIds == []
    ensures e.mapState.memberPositions == [] && e.mapState.opponentPositions == OpponentPositions(ticktack.players, [])
    ensures e.timeToMarry == now && e.delaySwitchingWeaponTime == now && !e.enableRandomSelector
  {
    var ms, _ := BuildMapState(ticktack, [], info.id, info.power, info.currentPosition, dirs);
    NoTeamNoMembers(ticktack.players, info.id);
    e := PlayerAction(info, ticktack, isChild, [], None, now, None, false, 0, false, false,
                      info.currentPosition, ms, [], now, false, now);
  }

  // ---- nextAction ----

  /** `findNextTarget`'s selector: random for a child, when enabled, or with fewer than 3 lives. */
  function NextTargetSelector(e: PlayerAction, pick: Fraction): (s: Selector)
    ensures s.RandomSelector? <==> e.isChild || e.enableRandomSelector || e.info.lives < 3
    ensures s.RandomSelector? ==> s.u == pick
    ensures s.PrioritySelector? ==>
      s.grid == e.ticktack.grid && s.god == IsGod(e) && s.spoils == e.mapState.spoilPositions
  {
    if e.isChild || e.enableRandomSelector || e.info.lives < 3 then RandomSelector(pick)
    else PrioritySelector(e.ticktack.grid, IsGod(e), e.mapState.spoilPositions)
  }

  /** `findSafePlace`'s selector: priority unless god with at most 3 lives. */
  function SafePlaceSelector(e: PlayerAction, pick: Fraction): (s: Selector)
    ensures s.RandomSelector? <==> IsGod(e) && e.info.lives <= 3
    ensures s.RandomSelector? ==> s.u == pick
    ensures s.PrioritySelector? ==>
      s.grid == e.ticktack.grid && s.god == IsGod(e) && s.spoils == e.mapState.spoilPositions
  {
    if !IsGod(e) then PrioritySelector(e.ticktack.grid, IsGod(e), e.mapState.spoilPositions)
    else if e.info.lives > 3 then PrioritySelector(e.ticktack.grid, IsGod(e), e.mapState.spoilPositions)
    else RandomSelector(pick)
  }

  /** The cells the engine's scans treat as occupied. */
  function Blocked(e: PlayerAction): seq<Pos>
  {
    e.mapState.memberPositions + e.mapState.opponentPositions
  }

  /** A traced path from `start`: its moves walk from `start` through its positions. */
  predicate PathFrom(start: Pos, p: Path)
  {
    && |p.positions| == |p.directions| + 1
    && p.positions[0] == start
    && p.positions[|p.positions| - 1] == p.target.pos
    && Walk(start, p.directions) == p.positions
  }

  /**
   * What a path search sees: the grid, where it starts, the bomb power its
   * Balk counts use, the blasts and the occupied cells.
   */
  datatype Scene = Scene(grid: Map, start: Pos, power: int, danger: seq<Pos>, blocked: seq<Pos>)

  /** The engine's searches start at `nextPosition`, avoid the blasts and treat teammates and opponents as occupied. */
  function SceneOf(e: PlayerAction): Scene
  {
    Scene(e.ticktack.grid, e.nextPosition, e.info.power, e.mapState.dangerPositions, Blocked(e))
  }

  /** A cell a path search may end at: on the scan's frontier and outside every blast. */
  ghost predicate SafeFrontier(sc: Scene, x: Pos)
  {
    Frontier(sc.grid, sc.start, sc.danger, sc.blocked, x) && x !in sc.danger
  }

  /** `ts` lists exactly the safe frontier cells, each annotated with its cell and Balk count. */
  ghost predicate Candidates(sc: Scene, ts: seq<Node>)
  {
    && (forall j :: 0 <= j < |ts| ==> SafeFrontier(sc, ts[j].pos) && Annotated(sc.grid, sc.power, ts[j]))
    && (forall x :: SafeFrontier(sc, x) ==> exists j :: 0 <= j < |ts| && ts[j].pos == x)
  }

  /**
   * A path the selector may pick: it walks from the start to a safe
   * frontier cell, and a priority selector picks a best-ranked candidate.
   */
  ghost predicate Picked(sc: Scene, sel: Selector, p: Path)
  {
    && PathFrom(sc.start, p)
    && SafeFrontier(sc, p.target.pos)
    && p.target.cell == CellAt(sc.grid, p.target.pos)
    && (sel.PrioritySelector? ==> exists ts :: Candidates(sc, ts) && PriorityChoice(ts, sel.grid, sel.god, sel.spoils, p.target))
  }

  /** A search outcome: nothing exactly when there is no safe frontier cell, otherwise a pick. */
  ghost predicate Found(sc: Scene, sel: Selector, p: Option<Path>)
  {
    && (p.None? <==> !exists x :: SafeFrontier(sc, x))
    && (p.Some? ==> Picked(sc, sel, p.value))
  }

  /** Every safe frontier cell is listed among the candidates, with its own Balk count. */
  lemma CandidateFor(sc: Scene, ts: seq<Node>, x: Pos) returns (j: nat)
    requires Candidates(sc, ts) && SafeFrontier(sc, x)
    ensures j < |ts| && ts[j].pos == x && ts[j].hitBox == CountBoxHit(sc.grid, x, sc.power)
  {
    j :| 0 <= j < |ts| && ts[j].pos == x;
    assert Annotated(sc.grid, sc.power, ts[j]);
  }

  /** With no preferred candidate, no safe frontier cell is preferred. */
  lemma NoPreferredCell(sc: Scene, ts: seq<Node>, g: Map, god: bool, spoils: seq<Pos>)
    requires Candidates(sc, ts)
    requires !exists i :: 0 <= i < |ts| && Preferred(g, god, spoils, ts[i])
    ensures !exists x :: SafeFrontier(sc, x) && PreferredPos(g, god, spoils, x)
  {
    forall x | SafeFrontier(sc, x)
      ensures !PreferredPos(g, god, spoils, x)
    {
      var j := CandidateFor(sc, ts, x);
      assert !Preferred(g, god, spoils, ts[j]);
    }
  }

  /** The best-count branch of `PriorityChoice`, read over the safe frontier. */
  lemma BestCountCell(sc: Scene, ts: seq<Node>, i: nat)
    requires Candidates(sc, ts) && i < |ts| && ts[i].hitBox != 0
    requires forall j :: 0 <= j < |ts| && ts[j].hitBox != 0 ==> ts[j].hitBox <= ts[i].hitBox
    ensures CountBoxHit(sc.grid, ts[i].pos, sc.power) == ts[i].hitBox
    ensures forall x :: SafeFrontier(sc, x) ==> CountBoxHit(sc.grid, x, sc.power) <= ts[i].hitBox
  {
    assert Annotated(sc.grid, sc.power, ts[i]);
    forall x | SafeFrontier(sc, x)
      ensures CountBoxHit(sc.grid, x, sc.power) <= ts[i].hitBox
    {
      var j := CandidateFor(sc, ts, x);
    }
  }

  /** With no candidate counting a Balk, no safe frontier cell counts one. */
  lemma NoCountCell(sc: Scene, ts: seq<Node>)
    requires Candidates(sc, ts)
    requires !exists i :: 0 <= i < |ts| && ts[i].hitBox != 0
    ensures forall x :: SafeFrontier(sc, x) ==> CountBoxHit(sc.grid, x, sc.power) == 0
  {
    forall x | SafeFrontier(sc, x)
      ensures CountBoxHit(sc.grid, x, sc.power) == 0
    {
      var j := CandidateFor(sc, ts, x);
    }
  }

  /**
   * The ranking `priorityCheck` promises, stated over the safe frontier
   * cells: `t` carries its own Balk count; it is preferred whenever some
   * safe frontier cell is; otherwise, when some safe frontier cell would hit
   * a Balk, `t`'s count is non-zero and the largest among them.
   */
  ghost predicate Ranked(sc: Scene, god: bool, spoils: seq<Pos>, t: Node)
  {
    && t.hitBox == CountBoxHit(sc.grid, t.pos, sc.power)
    && ((exists x :: SafeFrontier(sc, x) && PreferredPos(sc.grid, god, spoils, x)) ==>
          PreferredPos(sc.grid, god, spoils, t.pos))
    && ((!exists x :: SafeFrontier(sc, x) && PreferredPos(sc.grid, god, spoils, x)) &&
        (exists x :: SafeFrontier(sc, x) && CountBoxHit(sc.grid, x, sc.power) != 0) ==>
          && CountBoxHit(sc.grid, t.pos, sc.power) != 0
          && forall x :: SafeFrontier(sc, x) ==> CountBoxHit(sc.grid, x, sc.power) <= CountBoxHit(sc.grid, t.pos, sc.power))
  }

  /** `PriorityChoice` over a candidate list, read over the safe frontier cells it lists. */
  lemma RanksFrom(sc: Scene, ts: seq<Node>, god: bool, spoils: seq<Pos>, t: Node)
    requires Candidates(sc, ts) && PriorityChoice(ts, sc.grid, god, spoils, t)
    ensures Ranked(sc, god, spoils, t)
  {
    var g := sc.grid;
    if exists k :: 0 <= k < |ts| && Preferred(g, god, spoils, ts[k]) {
      var i := PreferredChoice(ts, g, god, spoils, t);
      assert Annotated(sc.grid, sc.power, ts[i]);
    } else {
      NoPreferredCell(sc, ts, g, god, spoils);
      if exists k :: 0 <= k < |ts| && ts[k].hitBox != 0 {
        var i := BestChoice(ts, g, god, spoils, t);
        BestCountCell(sc, ts, i);
      } else {
        assert Annotated(sc.grid, sc.power, ts[|ts| - 1]);
        NoCountCell(sc, ts);
      }
    }
  }

  /**
   * What a priority pick means for the cells themselves, whatever order the
   * scan met them in: a preferred cell whenever the safe frontier holds one;
   * otherwise, when some safe frontier cell would hit a Balk, a cell whose
   * Balk count is the largest on the safe frontier.
   */
  lemma PriorityPickRanks(sc: Scene, sel: Selector, p: Path)
    requires Picked(sc, sel, p) && sel.PrioritySelector? && sel.grid == sc.grid
    ensures Ranked(sc, sel.god, sel.spoils, p.target)
  {
    var ts: seq<Node> :| Candidates(sc, ts) && PriorityChoice(ts, sel.grid, sel.god, sel.spoils, p.target);
    RanksFrom(sc, ts, sel.god, sel.spoils, p.target);
  }

  /** Every target of a scan that keeps the cells outside every blast is on the safe frontier. */
  lemma TargetsAreSafeFrontier(sc: Scene, r: ScanResult)
    requires forall x :: x in r.probed <==> Frontier(sc.grid, sc.start, sc.danger, sc.blocked, x)
    requires forall j :: 0 <= j < |r.targets| ==> r.targets[j].pos in r.probed && r.targets[j].pos !in sc.danger
    ensures forall j :: 0 <= j < |r.targets| ==> SafeFrontier(sc, r.targets[j].pos)
  {
  }

  /** Every safe frontier cell is the position of a target of such a scan. */
  lemma SafeFrontierIsTarget(sc: Scene, r: ScanResult, x: Pos)
    requires forall x :: x in r.probed <==> Frontier(sc.grid, sc.start, sc.danger, sc.blocked, x)
    requires forall p :: p in r.probed && p !in sc.danger ==> exists t :: t in r.targets && t.pos == p
    requires SafeFrontier(sc, x)
    ensures exists j :: 0 <= j < |r.targets| && r.targets[j].pos == x
  {
    assert x in r.probed;
    var t :| t in r.targets && t.pos == x;
    var j :| 0 <= j < |r.targets| && r.targets[j] == t;
  }

  /** The targets of a scan that keeps the cells outside every blast are exactly its safe frontier. */
  lemma TargetsAreCandidates(sc: Scene, r: ScanResult)
    requires Grown(sc.grid, sc.start, sc.danger, sc.blocked, r.tree, r.expanded)
    requires Saturated(sc.grid, sc.start, sc.danger, sc.blocked, r.expanded)
    requires ProbesNeighbors(sc.grid, sc.blocked, r.expanded, r.probed)
    requires forall j :: 0 <= j < |r.targets| ==> r.targets[j].pos in r.probed && r.targets[j].pos !in sc.danger
    requires forall p :: p in r.probed && p !in sc.danger ==> exists t :: t in r.targets && t.pos == p
    requires forall j :: 0 <= j < |r.targets| ==> Annotated(sc.grid, sc.power, r.targets[j])
    ensures Candidates(sc, r.targets)
  {
    ProbedIffFrontier(sc.grid, sc.start, sc.danger, sc.blocked, r.tree, r.expanded, r.probed);
    TargetsAreSafeFrontier(sc, r);
    forall x | SafeFrontier(sc, x)
      ensures exists j :: 0 <= j < |r.targets| && r.targets[j].pos == x
    {
      SafeFrontierIsTarget(sc, r, x);
    }
  }

  /**
   * The scan both `findNextTarget` and `findSafePlace` run: from
   * `nextPosition`, around the blasts, with teammates and opponents
   * blocking, keeping the cells outside every blast. Its targets are
   * exactly the safe frontier.
   */
  method Search(e: PlayerAction, dirs: nat -> DirDraw) returns (r: ScanResult)
    ensures Grown(e.ticktack.grid, e.nextPosition, e.mapState.dangerPositions, Blocked(e), r.tree, r.expanded)
    ensures Saturated(e.ticktack.grid, e.nextPosition, e.mapState.dangerPositions, Blocked(e), r.expanded)
    ensures ProbesNeighbors(e.ticktack.grid, Blocked(e), r.expanded, r.probed)
    ensures WellFormed(r) && Candidates(SceneOf(e), r.targets)
    ensures forall j :: 0 <= j < |r.targets| ==> Annotated(e.ticktack.grid, e.info.power, r.targets[j])
  {
    var sc := SceneOf(e);
    r := Scan(sc.grid, sc.start, sc.power, sc.danger, sc.blocked, (m: Map, x: Pos) => x !in sc.danger, dirs);
    TargetsAreCandidates(sc, r);
  }

  /** `Search`, then the selector's pick among its targets. */
  method FindPath(e: PlayerAction, sel: Selector, dirs: nat -> DirDraw) returns (p: Option<Path>, r: ScanResult)
    ensures Grown(e.ticktack.grid, e.nextPosition, e.mapState.dangerPositions, Blocked(e), r.tree, r.expanded)
    ensures Saturated(e.ticktack.grid, e.nextPosition, e.mapState.dangerPositions, Blocked(e), r.expanded)
    ensures ProbesNeighbors(e.ticktack.grid, Blocked(e), r.expanded, r.probed)
    ensures Candidates(SceneOf(e), r.targets)
    ensures forall j :: 0 <= j < |r.targets| ==> Annotated(e.ticktack.grid, e.info.power, r.targets[j])
    ensures p.None? <==> |r.targets| == 0
    ensures p.Some? ==> p.value.target in r.targets
    ensures p.Some? ==> forall j :: 1 <= j < |p.value.positions| - 1 ==>
      Traversable(e.ticktack.grid, e.nextPosition, e.mapState.dangerPositions, Blocked(e), p.value.positions[j])
    ensures p.Some? && sel.PrioritySelector? ==>
      PriorityChoice(r.targets, sel.grid, sel.god, sel.spoils, p.value.target)
    ensures p.Some? && sel.PrioritySelector? && sel.grid == e.ticktack.grid ==>
      Ranked(SceneOf(e), sel.god, sel.spoils, p.value.target)
    ensures Found(SceneOf(e), sel, p)
  {
    r := Search(e, dirs);
    p := NextTarget(r, sel);
    if p.Some? {
      var t := p.value.target;
      var j :| 0 <= j < |r.targets| && r.targets[j] == t;
      assert SafeFrontier(SceneOf(e), r.targets[j].pos);
      PathInteriorTraversable(e.ticktack.grid, e.nextPosition, e.mapState.dangerPositions, Blocked(e), r.tree, t);
      if sel.PrioritySelector? {
        PriorityCheckChoice(r.targets, sel.grid, sel.god, sel.spoils);
        if sel.grid == e.ticktack.grid {
          RanksFrom(SceneOf(e), r.targets, sel.god, sel.spoils, t);
        }
      }
    } else {
      assert !exists x :: SafeFrontier(SceneOf(e), x);
    }
  }

  /** `FindPath` reduced to what command composition needs: the outcome, without the scan. */
  method Route(e: PlayerAction, sel: Selector, dirs: nat -> DirDraw) returns (p: Option<Path>)
    ensures Found(SceneOf(e), sel, p)
  {
    var r;
    p, r := FindPath(e, sel, dirs);
  }

  /** The move string of a path, after an optional bomb prefix. */
  predicate Spells(steps: string, bomb: bool, p: Path)
  {
    steps == (if bomb then "b" else "") + Letters(p.directions)
  }

  /** A move string never starts with the bomb letter on its own account. */
  lemma LettersAreMoves(ds: seq<Direction>)
    ensures forall i :: 0 <= i < |Letters(ds)| ==> Letters(ds)[i] != 'b'
  {
    forall i | 0 <= i < |Letters(ds)|
      ensures Letters(ds)[i] != 'b'
    {
      assert FromLetter(Letters(ds)[i]) == Some(ds[i]);
    }
  }

  /** Whether an Attack or TakeBrickWall drops a bomb first. */
  predicate DropsBomb(e: PlayerAction)
  {
    e.info.currentWeapon == WoodenPestle ||
    (e.info.currentWeapon == PhachThan && HasTargetToHit(e) && !HitMembers(e) && e.info.lives > 1)
  }

  /** The fields no decision changes: who the player is, the snapshot, the team, the decision point. */
  predicate SameIdentity(e: PlayerAction, e': PlayerAction)
  {
    && e'.info == e.info && e'.isChild == e.isChild && e'.teamIds == e.teamIds
    && e'.ticktack == e.ticktack && e'.nextPosition == e.nextPosition
  }

  /** The bomb decision depends only on the player, the snapshot and the map state. */
  lemma DropsBombFrame(e: PlayerAction, e': PlayerAction)
    requires e'.info == e.info && e'.ticktack == e.ticktack && e'.mapState == e.mapState
    ensures DropsBomb(e') == DropsBomb(e)
  {
  }

  /**
   * The bomb decision of the Attack / TakeBrickWall branch: WoodenPestle
   * always bombs; PhachThan bombs only with something to hit, no teammate in
   * reach and more than one life, and then records its own blast with
   * `addDangerPositions`.
   */
  function BombPlan(e: PlayerAction): (r: (bool, MapState))
    ensures r.0 == DropsBomb(e)
    ensures r.1.(bombPositions := e.mapState.bombPositions) == e.mapState
    ensures e.info.currentWeapon == PhachThan && r.0 ==>
      r.1.bombPositions == e.mapState.bombPositions + DangerPositions(e.ticktack.grid, e.info.currentPosition, e.info.power)
    ensures !(e.info.currentWeapon == PhachThan && r.0) ==> r.1 == e.mapState
  {
    var pestle := e.info.currentWeapon == WoodenPestle;
    if e.info.currentWeapon == PhachThan && HasTargetToHit(e) && !HitMembers(e) && e.info.lives > 1 then
      (true, AddDangerPositions(e.mapState, DangerPositions(e.ticktack.grid, e.info.currentPosition, e.info.power)))
    else (pestle, e.mapState)
  }

  /** What every action keeps: the identity fields, the clocks it does not own and the map state up to its bomb list. */
  predicate Settled(e: PlayerAction, e': PlayerAction)
  {
    && SameIdentity(e, e') && e'.timeToMarry == e.timeToMarry && e'.gameStart == e.gameStart
    && e'.mapState.(bombPositions := e.mapState.bombPositions) == e.mapState
  }

  /** The drive command that walks `path`, after a bomb letter when `bomb`. */
  predicate Drives(e: PlayerAction, e': PlayerAction, cmds: seq<Command>, bomb: bool, path: Option<Path>)
  {
    forall c :: c in cmds && c.Drive? ==>
      && path.Some? && c.isChild == e.isChild && PathFrom(e.nextPosition, path.value)
      && e'.expected == path.value.positions && Spells(c.steps, bomb, path.value)
  }

  /**
   * What a searching action sends: at most one drive command, exactly when
   * a path was found, walking it to a cell outside every blast; the pending
   * path is kept when nothing was found.
   */
  predicate Sends(e: PlayerAction, e': PlayerAction, cmds: seq<Command>, bomb: bool, path: Option<Path>)
  {
    && |cmds| <= 1 && (forall c :: c in cmds ==> c.Drive?)
    && (path.Some? <==> |cmds| == 1)
    && Drives(e, e', cmds, bomb, path)
    && (path.Some? ==> path.value.target.pos !in e.mapState.dangerPositions)
    && (path.None? ==> e'.expected == e.expected)
    && Settled(e, e')
  }

  /** GoAround: a drive to `findNextTarget`'s pick arms the attack; with no pick nothing changes. */
  ghost predicate Wandered(e: PlayerAction, pick: Fraction, e': PlayerAction, cmds: seq<Command>, path: Option<Path>)
  {
    && Found(SceneOf(e), NextTargetSelector(e, pick), path)
    && (path.None? ==> e' == e && cmds == [])
    && (path.Some? ==>
          && e' == e.(nextAttack := true, expected := path.value.positions, lastStop := None)
          && cmds == [Drive(Letters(path.value.directions), e.isChild)])
  }

  /** GoSafe: a drive to `findSafePlace`'s pick, noting a BrickWall there; with no pick nothing changes. */
  ghost predicate Fled(e: PlayerAction, pick: Fraction, e': PlayerAction, cmds: seq<Command>, path: Option<Path>)
  {
    && Found(SceneOf(e), SafePlaceSelector(e, pick), path)
    && (path.None? ==> e' == e && cmds == [])
    && (path.Some? ==>
          && e' == e.(expected := path.value.positions, lastStop := None,
                      takeBrickWall := e.takeBrickWall || path.value.target.cell == BrickWall)
          && cmds == [Drive(Letters(path.value.directions), e.isChild)])
  }

  /**
   * Attack / TakeBrickWall: the bomb decision, then a drive to
   * `findSafePlace`'s pick (after the bomb letter when bombing), noting a
   * BrickWall there; `lastStop` is stamped either way.
   */
  ghost predicate Bombed(e: PlayerAction, now: int, pick: Fraction, e': PlayerAction, cmds: seq<Command>, path: Option<Path>)
  {
    && Found(SceneOf(e), SafePlaceSelector(e, pick), path)
    && (path.None? ==> e' == e.(lastStop := Some(now), mapState := BombPlan(e).1) && cmds == [])
    && (path.Some? ==>
          && e' == e.(expected := path.value.positions, lastStop := Some(now), mapState := BombPlan(e).1,
                      takeBrickWall := e.takeBrickWall || path.value.target.cell == BrickWall)
          && cmds == [Drive((if DropsBomb(e) then "b" else "") + Letters(path.value.directions), e.isChild)])
  }

  /**
   * What `nextAction` composes for `action` taken in state `e`: Wait only
   * stamps `lastStop`; SwitchWeapon sends the switch and changes nothing;
   * the other actions search as above.
   */
  ghost predicate Composed(e: PlayerAction, action: Action, now: int, pick: Fraction,
                           e': PlayerAction, cmds: seq<Command>, path: Option<Path>)
  {
    match action
    case Wait => e' == e.(lastStop := Some(now)) && cmds == [] && path.None?
    case SwitchWeapon => e' == e && cmds == [Switch] && path.None?
    case GoAround => Wandered(e, pick, e', cmds, path)
    case GoSafe => Fled(e, pick, e', cmds, path)
    case Attack => Bombed(e, now, pick, e', cmds, path)
    case TakeBrickWall => Bombed(e, now, pick, e', cmds, path)
  }

  /** What `nextAction` composes for the chosen action: the drive command and the new state. */
  method Perform(e: PlayerAction, action: Action, now: int, ent: Entropy)
    returns (e': PlayerAction, cmds: seq<Command>, path: Option<Path>)
    ensures |cmds| <= 1 && forall c :: c in cmds ==> c != Marry
    ensures cmds == [Switch] <==> action == SwitchWeapon
    ensures Composed(e, action, now, ent.pick, e', cmds, path)
    ensures Drives(e, e', cmds, action in {Attack, TakeBrickWall} && DropsBomb(e), path)
    ensures path.Some? ==> path.value.target.pos !in e.mapState.dangerPositions && |cmds| == 1
    ensures path.None? ==> e'.expected == e.expected
    ensures Settled(e, e')
  {
    e', cmds, path := e, [], None;
    match action {
      case GoAround =>
        e', cmds, path := Wander(e, ent);
        WanderedSends(e, ent.pick, e', cmds, path);
      case TakeBrickWall =>
        e', cmds, path := Bomb(e, now, ent);
        BombedSends(e, now, ent.pick, e', cmds, path);
      case Attack =>
        e', cmds, path := Bomb(e, now, ent);
        BombedSends(e, now, ent.pick, e', cmds, path);
      case Wait =>
        e' := e.(lastStop := Some(now));
      case SwitchWeapon =>
        cmds := [Switch];
      case GoSafe =>
        e', cmds, path := Flee(e, ent);
        FledSends(e, ent.pick, e', cmds, path);
    }
  }

  /** The GoAround branch: a drive to `findNextTarget`'s pick, arming the attack. */
  method Wander(e: PlayerAction, ent: Entropy) returns (e': PlayerAction, cmds: seq<Command>, path: Option<Path>)
    ensures Wandered(e, ent.pick, e', cmds, path)
  {
    e', cmds := e, [];
    path := Route(e, NextTargetSelector(e, ent.pick), ent.dirs);
    if path.Some? {
      e' := e.(nextAttack := true, expected := path.value.positions, lastStop := None);
      cmds := [Drive(Letters(path.value.directions), e.isChild)];
    }
  }

  /** The GoSafe branch: a drive to `findSafePlace`'s pick, noting a BrickWall there. */
  method Flee(e: PlayerAction, ent: Entropy) returns (e': PlayerAction, cmds: seq<Command>, path: Option<Path>)
    ensures Fled(e, ent.pick, e', cmds, path)
  {
    e', cmds := e, [];
    path := Route(e, SafePlaceSelector(e, ent.pick), ent.dirs);
    if path.Some? {
      e' := e.(expected := path.value.positions, lastStop := None,
               takeBrickWall := e.takeBrickWall || path.value.target.cell == BrickWall);
      cmds := [Drive(Letters(path.value.directions), e.isChild)];
    }
  }

  /**
   * The Attack / TakeBrickWall branch: a bomb prefix when the weapon calls
   * for one (PhachThan only with something to hit, no teammate in reach and
   * a life to spare), then the way to a safe place.
   */
  method Bomb(e: PlayerAction, now: int, ent: Entropy)
    returns (e': PlayerAction, cmds: seq<Command>, path: Option<Path>)
    ensures Bombed(e, now, ent.pick, e', cmds, path)
  {
    cmds, path := [], None;
    var plan := BombPlan(e);
    var bomb, ms := plan.0, plan.1;
    var e1 := e.(mapState := ms);
    assert SceneOf(e1) == SceneOf(e) && SafePlaceSelector(e1, ent.pick) == SafePlaceSelector(e, ent.pick);
    var p := Route(e1, SafePlaceSelector(e1, ent.pick), ent.dirs);
    var expected, takeBrickWall := e.expected, e.takeBrickWall;
    if p.Some? {
      expected := p.value.positions;
      takeBrickWall := e.takeBrickWall || p.value.target.cell == BrickWall;
      cmds := [Drive((if bomb then "b" else "") + Letters(p.value.directions), e.isChild)];
      path := p;
    }
    e' := e.(expected := expected, takeBrickWall := takeBrickWall, lastStop := Some(now), mapState := ms);
  }

  /**
   * The outcome of a decision from state `e`: nothing while a pending path
   * is walked; otherwise the action `GetNextAction` picks (the game now
   * started) and what it composes from the state that rule leaves.
   */
  ghost predicate Decided(e: PlayerAction, now: int, pick: Fraction,
                          e': PlayerAction, cmds: seq<Command>, chosen: Option<Action>, path: Option<Path>)
  {
    && (ShouldWait(e) ==> chosen.None? && e' == e && cmds == [] && path.None?)
    && (!ShouldWait(e) ==>
          var d := GetNextAction(e.(gameStart := true), now);
          chosen == Some(d.0) && Composed(d.1, d.0, now, pick, e', cmds, path))
  }

  /**
   * What a decision from `e` guarantees whatever it chose: at most one
   * command and never a marriage request; nothing chosen exactly while a
   * pending path is walked; a drive walks the found path from
   * `nextPosition` to a cell outside every blast, after the bomb letter
   * only for an Attack or TakeBrickWall that bombs; who the player is, its
   * snapshot and its blasts stay as they were.
   */
  ghost predicate Acted(e: PlayerAction, e': PlayerAction, cmds: seq<Command>, chosen: Option<Action>, path: Option<Path>)
  {
    && |cmds| <= 1 && (forall c :: c in cmds ==> c != Marry)
    && (chosen.None? <==> ShouldWait(e))
    && (chosen.Some? ==> e'.gameStart)
    && (chosen == Some(Attack) ==> |e.expected| == 0)
    && (chosen == Some(GoAround) ==> !e'.takeBrickWall)
    && (forall c :: c in cmds && c.Drive? ==>
          && c.isChild == e.isChild && path.Some? && PathFrom(e.nextPosition, path.value)
          && e'.expected == path.value.positions
          && Spells(c.steps, (chosen == Some(Attack) || chosen == Some(TakeBrickWall)) && DropsBomb(e), path.value))
    && (path.Some? ==> path.value.target.pos !in e.mapState.dangerPositions)
    && SameIdentity(e, e') && e'.timeToMarry == e.timeToMarry
    && e'.mapState.dangerPositions == e.mapState.dangerPositions
  }

  /** `nextAction` after the marriage check: wait out a pending path, or decide and act. */
  method Decide(e: PlayerAction, now: int, ent: Entropy)
    returns (e': PlayerAction, cmds: seq<Command>, chosen: Option<Action>, path: Option<Path>)
    ensures Acted(e, e', cmds, chosen, path)
    ensures Decided(e, now, ent.pick, e', cmds, chosen, path)
  {
    if ShouldWait(e) {
      return e, [], None, None;
    }
    var decision := GetNextAction(e.(gameStart := true), now);
    assert decision.1.info == e.info && decision.1.ticktack == e.ticktack && decision.1.mapState == e.mapState;
    DropsBombFrame(e, decision.1);
    e', cmds, path := Perform(decision.1, decision.0, now, ent);
    chosen := Some(decision.0);
  }

  /**
   * The marriage check of `nextAction`: a non-child asks to marry once its
   * 30 s have passed, restarting that clock; nothing else changes.
   */
  function Wed(e: PlayerAction, now: int): (r: (PlayerAction, seq<Command>))
    ensures r.1 == [Marry] <==> !e.isChild && e.timeToMarry + 30000 < now
    ensures r.1 == [] || r.1 == [Marry]
    ensures r.0.timeToMarry == (if r.1 == [Marry] then now else e.timeToMarry)
    ensures r.0 == e.(timeToMarry := r.0.timeToMarry)
  {
    if !e.isChild && e.timeToMarry + 30000 < now then (e.(timeToMarry := now), [Marry]) else (e, [])
  }

  /**
   * `nextAction`: a marriage request every 30 s for a non-child, then —
   * unless a pending path is still being walked — the action
   * `GetNextAction` picks and the command it composes.
   */
  method NextAction(e: PlayerAction, now: int, ent: Entropy)
    returns (e': PlayerAction, cmds: seq<Command>, more: seq<Command>, chosen: Option<Action>, path: Option<Path>)
    ensures (|cmds| > 0 && cmds[0] == Marry) <==> !e.isChild && e.timeToMarry + 30000 < now
    ensures e'.timeToMarry == if !e.isChild && e.timeToMarry + 30000 < now then now else e.timeToMarry
    ensures cmds == Wed(e, now).1 + more && |more| <= 1 && Marry !in more
    ensures chosen.None? <==> ShouldWait(e)
    ensures SameIdentity(e, e')
    ensures Decided(Wed(e, now).0, now, ent.pick, e', more, chosen, path)
  {
    e', more, chosen, path := Decide(Wed(e, now).0, now, ent);
    cmds := Wed(e, now).1 + more;
  }

  /** A GoAround outcome sends what a search sends. */
  lemma WanderedSends(e: PlayerAction, pick: Fraction, e': PlayerAction, cmds: seq<Command>, path: Option<Path>)
    requires Wandered(e, pick, e', cmds, path)
    ensures Sends(e, e', cmds, false, path)
  {
  }

  /** A GoSafe outcome sends what a search sends. */
  lemma FledSends(e: PlayerAction, pick: Fraction, e': PlayerAction, cmds: seq<Command>, path: Option<Path>)
    requires Fled(e, pick, e', cmds, path)
    ensures Sends(e, e', cmds, false, path)
  {
  }

  /** An Attack / TakeBrickWall outcome sends what a search sends, after the bomb letter when it bombs. */
  lemma BombedSends(e: PlayerAction, now: int, pick: Fraction, e': PlayerAction, cmds: seq<Command>, path: Option<Path>)
    requires Bombed(e, now, pick, e', cmds, path)
    ensures Sends(e, e', cmds, DropsBomb(e), path)
  {
  }

  /**
   * Whatever the action, a composed outcome sends at most one command,
   * never a marriage request, and only drives that walk the found path to
   * a cell outside every blast; who the player is and its blasts stay.
   */
  lemma ComposedSends(e: PlayerAction, action: Action, now: int, pick: Fraction,
                      e': PlayerAction, cmds: seq<Command>, path: Option<Path>)
    requires Composed(e, action, now, pick, e', cmds, path)
    ensures |cmds| <= 1 && forall c :: c in cmds ==> c != Marry
    ensures Drives(e, e', cmds, action in {Attack, TakeBrickWall} && DropsBomb(e), path)
    ensures path.Some? ==> path.value.target.pos !in e.mapState.dangerPositions
    ensures Settled(e, e') && e'.mapState.dangerPositions == e.mapState.dangerPositions
    ensures action == GoAround ==> e'.takeBrickWall == e.takeBrickWall
  {
    match action
    case GoAround => WanderedSends(e, pick, e', cmds, path);
    case GoSafe => FledSends(e, pick, e', cmds, path);
    case Attack => BombedSends(e, now, pick, e', cmds, path);
    case TakeBrickWall => BombedSends(e, now, pick, e', cmds, path);
    case Wait =>
    case SwitchWeapon =>
  }

  /**
   * A decision's outcome carries its general guarantees: whatever action
   * was chosen, the composed commands and state satisfy `Acted`.
   */
  lemma DecidedActs(e: PlayerAction, now: int, pick: Fraction,
                    e': PlayerAction, cmds: seq<Command>, chosen: Option<Action>, path: Option<Path>)
    requires Decided(e, now, pick, e', cmds, chosen, path)
    ensures Acted(e, e', cmds, chosen, path)
  {
    if !ShouldWait(e) {
      var d := GetNextAction(e.(gameStart := true), now);
      DropsBombFrame(e, d.1);
      ComposedSends(d.1, d.0, now, pick, e', cmds, path);
    }
  }
}
