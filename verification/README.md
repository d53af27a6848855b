# Bomber agent core, modelled in Dafny

This project models the decision core of an autonomous agent for a tick-driven
grid bomber game. On every server snapshot ("ticktack") the agent:

- **`PlayerBag.run`** (`bag.dfy`, module `Bags`): works out which players
  of the snapshot it controls. An id counts when, with its first `_child`
  removed, it is a substring of the configured player id. It creates one
  decision engine per controlled id, the first time that id is seen. Unless
  halted, every active engine then consumes the snapshot and acts.
- **`PlayerAction`** (`engine.dfy`, module `PlayerActions`):
  - keeps the pending path up to date (`consumeTicktack`);
  - watches its own start/stop events for an unexpected stop
    (`handleUnexpectedStop`);
  - picks one action from a first-match rule chain (`getNextAction`);
  - composes the command string the client sends (`nextAction`).
- **`MapState`** (`mapstate.dfy`, module `MapStates`): the per-snapshot
  view of one engine, namely:
  - the bomb cells;
  - the concatenated blast crosses of all bombs;
  - the teammate/opponent split;
  - whether a Balk can be reached.
- **`MapScanner`** (`scanner.dfy`, module `Scanner`): a breadth-first scan
  from a start cell over passable, unblocked and (from a safe start)
  undangerous cells. It records candidate target nodes, and `nextTarget`
  traces the path to the node a selector picks.

The rest of the model:

- `blast.dfy` (module `Blast`) holds the three axis probes: the blast cross
  of `getDangerPositions`, `countBoxHit` and `hasHitTarget`.
- `draws.dfy` (module `Draws`) holds the randomised direction order
  (`randomDirections`, `getNeighbors`).
- `selection.dfy` (module `Selection`) holds the target selectors (the
  random default, `priorityCheck`, `firstSafePlace`).
- `tree.dfy` (module `SearchTree`) holds the parent-indexed node arena and
  path tracing.
- `cells.dfy`, `grid.dfy`, `snapshot.dfy`, `text.dfy` and `optional.dfy` hold
  the encodings, positions, snapshot records, the two string operations and
  `Option`.

Modelling choices:

- **Inputs made explicit.**
  - The clock is an explicit `now` parameter.
  - Every `Math.random()` value is an explicit draw in [0, 1) (`Fraction`).
  - Client calls become `Command` values returned to the caller.
  - The database log is the `log` field of the bag.
- **Off-grid cells read as Wall** (`Grid.CellAt`). In the source a missing
  column reads as `undefined`, which every probe treats like a blocking cell.
  A missing row would throw. `Blast.ReadsStayInMap` shows that on a
  wall-bordered grid, starting from a passable cell, the probes never read
  past the grid.
- **Direction numbering.** The module defining `Direction`, `TreeNode` and
  `tracePath` is not part of this model. Directions are numbered 1..4 in
  the order of the `getNeighbor` switch: Left, Right, Up, Down. Their move
  letters are the digits '1'..'4'. The node arena and `SearchTree.TracePath`
  are local equivalents. Paths include the start position.
- **The code, not the design description, decides** where the two disagree:
  - A Destroyed cell is neither reachable nor passable. It is not treated
    like Empty.
  - A WoodenPestle engine always prefixes the bomb letter on Attack and
    TakeBrickWall. Only PhachThan requires something to hit, no teammate in
    reach and more than one life.
  - `addDangerPositions` appends to `bombPositions`. The blast list the
    retreat scan avoids stays unchanged.

## Model

| member | source | states |
|---|---|---|
| Cells.FromCode | src/ticktack-info.ts:111-126 | decoding a cell code yields a cell whose code is that number; numbers outside {0,1,2,3,5,6,7} decode to nothing |
| Cells.CodeRoundTrip | src/ticktack-info.ts:111-126 | every cell kind survives encode then decode |
| Cells.PassThroughWithinSafeToReach | src/map-scanner.ts:169-197 | passable cells (Empty, GodBadge) are a strict subset of reachable ones; Balk and BrickWall are reachable but not passable; Wall, PrisonPlace and Destroyed are neither |
| Grid.CellAt | src/map-scanner.ts:158-167 | inside the grid the stored cell is read; outside it the result is never safe to reach |
| Grid.DirectionTo | src/map-scanner.ts:96-119 | the direction found leads from `a` to `b` in one step; when none is found, no step leads there |
| Grid.DirectionToStep | src/map-scanner.ts:96-119 | the step in direction `d` is recognised as direction `d` |
| Grid.AdjacentIsUnitDistance | src/map-scanner.ts:96-119 | two cells are one step apart exactly when they differ by one unit in exactly one coordinate |
| Grid.Letters | src/player-action.ts:115 | a move string has one letter per move, and each letter decodes back to its move |
| Draws.Roll | src/map-scanner.ts:123-137 | `floor(u * n) + 1` of a draw in [0, 1) lies in 1..n |
| Draws.Bump | src/map-scanner.ts:128-131 | the collision loop ends at the least value at or above its start that is not taken, so every value skipped is taken |
| Draws.Resolve | src/map-scanner.ts:127-135 | a drawn number that is free is kept; a taken one is moved up to the next free number, never down |
| Draws.ResolveAmongTwo | src/map-scanner.ts:137-146 | the third roll, resolved against two taken numbers, never passes 4 |
| Draws.FirstMissing | src/map-scanner.ts:148-153 | the final loop appends the least free number in 1..4, or nothing when all four are taken |
| Draws.RandomDirections | src/map-scanner.ts:121-156 | for any rolls first in 1..4, second in 1..3 and third in 1..2, the result is a permutation of 1..4: four distinct values, exactly 1..4, starting with the first roll |
| Draws.DrawDirections | src/map-scanner.ts:121-156 | one set of draws orders all four directions, each exactly once |
| Draws.Neighbors | src/map-scanner.ts:82-94 | the result holds exactly the in-map cells one step along a listed direction |
| Draws.DistinctNeighbors | src/map-scanner.ts:82-94 | distinct directions give distinct neighbours |
| Draws.GetNeighbors | src/map-scanner.ts:82-119 | at most four distinct cells, each in the map and one step from `p`; every in-map cell one step from `p` is among them |
| Blast.ArmFrom | src/player-action.ts:515-523 | an arm is a run of consecutive passable cells at increasing distances, ending no later than distance `power` |
| Blast.ArmFromStops | src/player-action.ts:516-521 | an arm stops only at the power limit or just before a cell that is neither Empty nor GodBadge |
| Blast.DangerPositions | src/player-action.ts:503-527 | the bomb cell comes first, and the set holds at most 1 + 4·power cells |
| Blast.ArmReaches | src/player-action.ts:515-523 | a cell is in an arm exactly when it lies 1..power steps out on that axis and every cell up to and including it is passable, so each arm is contiguous from distance 1 |
| Blast.DangerCross | src/player-action.ts:503-527 | a cell is in the danger set exactly when it is the bomb cell or is reached along some axis within power over passable cells only |
| Blast.ReadsStayInMap | src/player-action.ts:518 | on a wall-bordered grid, starting from a passable cell, a probe never reads a cell outside the grid |
| Blast.CountBoxHit | src/map-scanner.ts:214-239 | the count lies in 0..4, one per axis at most, and is 0 when the bomb cell is not passable |
| Blast.CountBoxHitPositive | src/map-scanner.ts:214-239 | the box count is positive exactly when the bomb cell is passable and some axis has a Balk within `power` steps with only passable cells before it |
| Blast.AxisHitFromIff | src/map-scanner.ts:226-236 | one axis scores exactly when a Balk lies within `power` steps with only passable cells before it |
| Blast.AxisHitIff | src/map-scanner.ts:225-237 | an axis counts a Balk exactly when the Balk is within power and every cell before it is passable |
| Blast.AxisHitIsPastArm | src/map-scanner.ts:225-237 | the Balk an axis counts is the cell right past the end of the blast arm, so the box count and the danger set stop at the same cell |
| Blast.NoPowerNoHit | src/map-scanner.ts:226 | a bomb of power 0 or less counts no Balk |
| Blast.AxisTargetFromIff | src/map-scanner.ts:258-266 | one axis reaches a target exactly when a target lies below `power` steps out with only passable cells before it |
| Blast.HasHitTargetIff | src/map-scanner.ts:241-269 | a bomb reaches a target exactly when on some axis a target lies 1..power-1 steps away with only passable cells before it; the target's own cell need not be passable |
| Blast.WeakBombHitsNothing | src/map-scanner.ts:247-249 | with no targets, or power 1 or less, nothing is hit |
| SearchTree.Ancestry | src/map-scanner.ts:41 | following parent links from a node reaches the root, each link pointing to the node's parent |
| SearchTree.Chain | src/map-scanner.ts:75 | the positions from the root to an attached node start at the root, end at the node, and are pairwise adjacent |
| SearchTree.Moves | src/map-scanner.ts:75 | the moves along a chain of adjacent cells walk from its first cell through exactly those cells |
| SearchTree.TracePath | src/map-scanner.ts:75 | a traced path runs from the root to the target, with one more position than moves, and its moves walk through its positions |
| SearchTree.WalkFollows | src/map-scanner.ts:75 | a walk is determined by its start and its moves |
| SearchTree.TraceThroughTree | src/map-scanner.ts:41 | between its ends a traced path visits only non-root tree nodes |
| SearchTree.TraceLength | src/map-scanner.ts:75 | a target below a node of depth D traces to D + 2 positions and D + 1 moves |
| Selection.PickIndex | src/map-scanner.ts:64-68 | `floor(u * n)` is a valid index of an n-element list |
| Selection.RandomPick | src/map-scanner.ts:64-68 | the default selector picks an element of the list; it picks nothing only for an empty list |
| Selection.PriorityFrom | src/player-action.ts:355-389 | the priority loop returns an element of the list, and nothing only for an empty list |
| Selection.PriorityFromChoice | src/player-action.ts:359-388 | from any loop position with the best-so-far invariant, the loop ends with the choice `PriorityChoice` describes |
| Selection.PriorityCheckChoice | src/player-action.ts:355-389 | on a non-empty list `priorityCheck` returns one of its nodes: the first preferred node (GodBadge or BrickWall when not god, a spoil when god); else the first node with the largest non-zero Balk count; else the last node |
| Selection.FirstSafeFrom | src/player-action.ts:391-402 | the first safe node from the index on, else the last node |
| Selection.FirstSafeIsFirst | src/player-action.ts:392-399 | when a safe node exists from the index on, the result is the first such node |
| Selection.FirstSafePlace | src/player-action.ts:391-402 | the first node out of danger and passable when one exists, else the last node; nothing only for an empty list |
| Selection.Select | src/map-scanner.ts:72-77 | both selectors the engine passes return an element of a non-empty list |
| Scanner.ProbedIff | src/map-scanner.ts:38-55 | a cell was offered to the filter exactly when it is in the map, safe to reach, unblocked and one step from an expanded cell |
| Scanner.Offer | src/map-scanner.ts:39-55 | a neighbour that is passable, unblocked and danger-permitted is queued, and only such nodes are queued; a probeable neighbour is offered to the filter; every recorded target is unblocked and accepted by the filter, and every accepted cell is recorded |
| Scanner.Expand | src/map-scanner.ts:37-57 | every traversable neighbour ends up queued and every probeable one probed, with the queue and target invariants kept |
| Scanner.Grow | src/map-scanner.ts:35-57 | expanding a node keeps the tree structured, the expanded cells distinct and the closure invariants true |
| Scanner.ClosedGrows | src/map-scanner.ts:35-49 | once a cell is expanded and its traversable neighbours are queued, every traversable neighbour of an expanded cell is expanded or queued |
| Scanner.SkipKeepsClosed | src/map-scanner.ts:31-34 | skipping an already visited node loses no pending neighbour |
| Scanner.Scan | src/map-scanner.ts:24-59 | the tree is rooted at the start and every other node is in the map, traversable and annotated with its cell and Balk count; expanded positions are distinct (each expanded once); the expanded set is closed under traversable steps; from a safe start no expanded node is in danger, and from an endangered start danger restricts nothing; every target hangs below the tree, is in the map, safe to reach, unblocked and accepted by the filter; the filter was applied exactly to the probeable neighbours of expanded cells, and every cell it accepted is a target |
| Scanner.WalkStaysExpanded | src/map-scanner.ts:24-59 | breadth-first completeness: a walk from an expanded cell through traversable cells stays among the expanded cells |
| Scanner.NextTarget | src/map-scanner.ts:61-80 | nothing exactly when there are no targets; otherwise the selected node is a target and the path runs from the root to it |
| Scanner.PathInteriorTraversable | src/map-scanner.ts:38-56 | between its ends a path crosses only traversable cells, so no Balk, no BrickWall and nothing blocked, and from a safe start no danger |
| Scanner.ExpandedReachable | src/map-scanner.ts:24-59 | every expanded cell is reached from the start by single steps over traversable cells |
| Scanner.ExpandedIffReachable | src/map-scanner.ts:24-59 | the expanded cells are exactly the cells reachable from the start over traversable cells |
| Scanner.ProbedIffFrontier | src/map-scanner.ts:38-55 | the cells offered to the filter are exactly the probeable cells one step from a reachable cell |
| Scanner.TargetsIffFrontier | src/map-scanner.ts:24-59 | a scan records some target exactly when some frontier cell passes the filter |
| MapStates.Concat | src/player-action.ts:455-458 | concatenating non-empty parts gives at least one element per part |
| MapStates.ConcatIff | src/player-action.ts:455-458 | a position is in the concatenation exactly when it is in one of the parts |
| MapStates.AllDangerIff | src/player-action.ts:453-459 | a cell is in the aggregated danger list exactly when some bomb's blast covers it |
| MapStates.BombCellsAreDangerous | src/player-action.ts:453-459 | every bomb's own cell is in the danger list |
| MapStates.MemberPositions | src/player-action.ts:463-467 | the list holds exactly the positions of players on the team other than the engine's own player |
| MapStates.NoTeamNoMembers | src/player-action.ts:463-467 | without a team there are no teammates |
| MapStates.OpponentPositions | src/player-action.ts:468-470 | the list holds exactly the positions of players not on the team |
| MapStates.OthersAreSplit | src/player-action.ts:463-471 | every player other than the engine's own stands in the member list or the opponent list |
| MapStates.BombPositions | src/player-action.ts:453-454 | one position per bomb, in bomb order |
| MapStates.BuildMapState | src/player-action.ts:451-485 | the bomb list, the blast list as the in-order concatenation of each bomb's cross, the spoils and the teammate/opponent split; the scan from `nextPosition` with every player blocking expands exactly the cells reachable from there over traversable cells, its tree is rooted there with every later node traversable, and it is saturated; `reachBalk` holds exactly when the filter was applied to a Balk, that is, exactly when some frontier cell of the reachable region is a Balk |
| MapStates.AddDangerPositions | src/player-action.ts:487-489 | the positions are appended to `bombPositions`; the danger list and every other field stay unchanged |
| PlayerActions.HitMembersNeedsMember | src/player-action.ts:424-431 | with power 1 or less, or no teammate positions, a bomb here hits no teammate |
| PlayerActions.HasTargetToHitIff | src/player-action.ts:404-422 | there is something to hit exactly when, on a passable cell, some axis has a Balk within `power` steps behind passable cells, or some axis has an opponent 1..power-1 steps away behind passable cells |
| PlayerActions.GetNextAction | src/player-action.ts:177-221 | first match in the source's order: each of Wait, TakeBrickWall, GoSafe, SwitchWeapon, Attack and GoAround is returned exactly when its own rule applies and every earlier rule fails (Attack on the armed flag, GoAround without it); TakeBrickWall clears its flag, Attack clears its flag, SwitchWeapon stamps `now`, and nothing else changes |
| PlayerActions.Recount | src/player-action.ts:300-318 | a non-negative counter stays non-negative; the callback fires exactly when this player's stop-moving arrives while the counter is 0, and the counter is then 0; otherwise the counter moves by this player's start (+1) or stop (−1); other players' events change nothing |
| PlayerActions.CountingBalance | src/player-action.ts:300-318 | over any run of snapshots the counter stays non-negative; final = initial + own starts − own stops + callbacks fired |
| PlayerActions.Shift | src/player-action.ts:48-51 | when the player stands on the head of the pending path the result is the path without its head; otherwise the path is unchanged; either way the result is a suffix of the path |
| PlayerActions.LastPositionTime | src/player-action.ts:62-81 | the path times out exactly when no callback fired and the player has not moved for over 1000 ms |
| PlayerActions.AdvancePath | src/player-action.ts:46-92 | the pending path is always a suffix of the old one; it is cleared after an unexpected stop or a stale second, and otherwise loses exactly its reached head |
| PlayerActions.AdvanceNextPosition | src/player-action.ts:87-92 | on this player's start-moving with a path pending, the next decision is made from the head of the path and the attack flag is set; otherwise it is made from the current position and the flag is unchanged |
| PlayerActions.AdvanceFrame | src/player-action.ts:46-92 | consuming a snapshot changes only the bookkeeping fields |
| PlayerActions.Advance | src/player-action.ts:46-92 | consuming a snapshot adopts it and leaves the player info and the map state to the rebuild that follows |
| PlayerActions.ConsumeTicktack | src/player-action.ts:46-94 | the bookkeeping update of `Advance`, and a map state rebuilt from the new snapshot: its bomb list, blast list, teammate and opponent lists and spoils; `reachBalk` holds exactly when a Balk lies on the frontier of the cells reachable from the new decision point |
| PlayerActions.NewPlayerAction | src/player-action.ts:15-44 | a new engine has nothing pending, a zero counter, cleared flags, decides from the player's position, and starts both timers at `now` |
| PlayerActions.NextTargetSelector | src/player-action.ts:241-246 | the random selector, with the given draw, exactly for a child, when enabled, or with fewer than 3 lives; otherwise `priorityCheck` over the snapshot's grid, god status and spoils |
| PlayerActions.SafePlaceSelector | src/player-action.ts:261-271 | the random selector, with the given draw, exactly for a god with at most 3 lives; otherwise `priorityCheck` over the snapshot's grid, god status and spoils |
| PlayerActions.Search | src/player-action.ts:249-260 | the scan from `nextPosition`, around the blasts with every player blocking, is rooted there and saturated, and its targets are exactly the frontier cells outside every blast, each annotated with its cell and Balk count |
| PlayerActions.SafeFrontierIsTarget | src/player-action.ts:257-259 | a frontier cell outside every blast is recorded as a target |
| PlayerActions.TargetsAreCandidates | src/player-action.ts:249-260 | the targets of the safe-place scan are exactly the frontier cells outside every blast, each carrying its own cell and Balk count |
| PlayerActions.FindPath | src/player-action.ts:223-275 | the scan is saturated and its targets are exactly the frontier cells outside every blast, each carrying its own cell and Balk count; no path exactly when there is no such cell; a path runs from `nextPosition` to a target over traversable cells only; with the priority selector the target is `priorityCheck`'s choice over the scan's targets in scan order, and so a preferred cell whenever the safe frontier holds one, otherwise (when some safe frontier cell would hit a Balk) a cell with the largest non-zero Balk count there |
| PlayerActions.Route | src/player-action.ts:223-275 | no path exactly when no frontier cell lies outside every blast; a path walks from `nextPosition` to such a cell; with the priority selector the cell is `priorityCheck`'s choice over some listing of exactly those cells, each with its own Balk count, so it ranks as `PriorityPickRanks` states |
| PlayerActions.PriorityPickRanks | src/player-action.ts:355-389 | whatever order the scan met the cells in, a priority pick is a preferred cell (GodBadge or BrickWall when not god, a spoil when god) whenever the safe frontier holds one; otherwise, when some safe frontier cell would hit a Balk, the pick's Balk count is non-zero and the largest on the safe frontier; the count the pick carries is its own `countBoxHit` |
| PlayerActions.LettersAreMoves | src/player-action.ts:125-145 | a move string never contains the bomb letter, so the prefix is the only `b` |
| PlayerActions.DropsBombFrame | src/player-action.ts:126-134 | the bomb decision depends only on the player, the snapshot and the map state |
| PlayerActions.BombPlan | src/player-action.ts:123-142 | WoodenPestle always bombs; PhachThan bombs exactly when there is something to hit, no teammate in reach and more than one life, and then appends its own blast cross to `bombPositions`; otherwise the map state is unchanged; the rest of the map state is unchanged in every case |
| PlayerActions.Perform | src/player-action.ts:107-175 | at most one command and never a marriage request; Switch exactly for SwitchWeapon; per action, the exact new state and command: Wait stamps `lastStop`; SwitchWeapon changes nothing; GoAround drives to the pick of `findNextTarget`'s selector and arms the attack flag; GoSafe, Attack and TakeBrickWall drive to the pick of `findSafePlace`'s selector and set the brick-wall flag when it is a BrickWall; Attack and TakeBrickWall stamp `lastStop` and apply the bomb plan; each search finds nothing exactly when no frontier cell is outside every blast; a drive spells the path's moves after a bomb letter exactly when the action bombs; identity, snapshot and decision point are unchanged; under the priority selector the pick ranks as `PriorityPickRanks` states |
| PlayerActions.Bomb | src/player-action.ts:123-156 | a drive command is sent exactly when a safe place is found, which happens exactly when some frontier cell lies outside every blast; it spells the bomb letter (when a bomb drops) and then the moves to `findSafePlace`'s pick; `lastStop` is always stamped and the bomb plan's map state adopted; the brick-wall flag is set when the safe place is a BrickWall; without a path the pending path and flag are kept; under the priority selector the pick ranks as `PriorityPickRanks` states |
| PlayerActions.Wander | src/player-action.ts:111-122 | with a pick of `findNextTarget`'s selector the engine drives there, takes the path as pending and arms the attack; without one nothing changes; the pick is nothing exactly when no frontier cell lies outside every blast; under the priority selector the pick ranks as `PriorityPickRanks` states |
| PlayerActions.Flee | src/player-action.ts:163-173 | with a pick of `findSafePlace`'s selector the engine drives there, takes the path as pending and notes a BrickWall target; without one nothing changes; under the priority selector the pick ranks as `PriorityPickRanks` states |
| PlayerActions.WanderedSends | src/player-action.ts:111-122 | a GoAround outcome sends one drive exactly when a path was found, walking from `nextPosition` to a cell outside every blast, and keeps identity and blasts |
| PlayerActions.FledSends | src/player-action.ts:163-173 | a GoSafe outcome sends one drive exactly when a path was found, walking from `nextPosition` to a cell outside every blast, and keeps identity and blasts |
| PlayerActions.BombedSends | src/player-action.ts:123-156 | an Attack or TakeBrickWall outcome sends one drive exactly when a path was found, with the bomb letter exactly when the engine bombs, and changes the map state only in its bomb list |
| PlayerActions.ComposedSends | src/player-action.ts:107-175 | whatever the action, the composed outcome has at most one command, no marriage request, only drives that walk the found path to a cell outside every blast, and leaves identity, clocks and blasts as they were |
| PlayerActions.Decide | src/player-action.ts:102-298 | nothing happens, and nothing is chosen, exactly when the player is not starting to move and a path is pending (`shouldWait`, with `needToDelay` always false); otherwise the action chosen is the one `GetNextAction` picks once the game counts as started, and the state and command are what `Perform` composes for it from the state that rule leaves; at most one command, never a marriage request; Attack is never chosen with a path pending; under the priority selector the pick ranks as `PriorityPickRanks` states |
| PlayerActions.DecidedActs | src/player-action.ts:102-175 | any outcome of the rule chain and command composition keeps the general guarantees: at most one command, no marriage request, drives that walk from `nextPosition` to a cell outside every blast, and unchanged identity and blasts |
| PlayerActions.NextAction | src/player-action.ts:96-175 | a marriage request comes first exactly when a non-child engine's timer is over 30 s old, and the timer is then reset to `now`; the remaining commands are at most one, never a marriage request, and are exactly what `Decide` composes from the state after the marriage check; identity, team and snapshot are unchanged; under the priority selector the pick ranks as `PriorityPickRanks` states |
| PlayerActions.Wed | src/player-action.ts:96-100 | a marriage request exactly when a non-child engine's timer is over 30 s old, the timer reset to `now` exactly then, and nothing else changed |
| Text.IndexFrom | src/player-bag.ts:22 | the first occurrence of the pattern at or after an index, or none when there is none |
| Text.Includes | src/player-bag.ts:21-23 | true exactly when the pattern occurs somewhere |
| Text.StripFirst | src/player-bag.ts:22 | without an occurrence the string is unchanged; otherwise it is one pattern shorter, and putting the pattern back at its first occurrence restores the input |
| Bags.ActiveIds | src/player-bag.ts:17-27 | an id is active exactly when it is in the snapshot and, with its first `_child` removed, occurs in the configured id |
| Bags.NoConfigNoActive | src/player-bag.ts:23-25 | with no configuration or no configured id, no id is active |
| Bags.Enroll | src/player-bag.ts:20-40 | an unselected player changes nothing; a selected new id gets an engine holding the player's info and marked a child exactly when its id contains `_child`; a selected known id changes only in its player info; no other engine changes |
| Bags.Register | src/player-bag.ts:17-40 | the active ids are exactly `ActiveIds`; engines are added only for active ids; existing engines change only in their player info, which comes from the snapshot; child markings and key/id agreement are kept; with no configured id nothing is active |
| Bags.Act | src/player-bag.ts:46-48 | the engine keeps its player info and child flag, takes the run's ids as its team and holds the new snapshot; a marriage request comes first exactly when a non-child engine's timer is over 30 s old, the timer is then reset, and at most one further command follows, never a marriage request |
| Bags.ActAll | src/player-bag.ts:42-49 | only active engines change; each gets this run's active ids as its team; player info and child flags are kept; every command is tagged with an active id, and none is sent when no id is active |
| Bags.Dispatch | src/player-bag.ts:42-49 | a halted bag sends nothing and leaves every engine as registered |
| Bags.Run | src/player-bag.ts:16-50 | the active ids are rebuilt from scratch and the snapshot is always logged; engines are added only for active ids and inactive engines are untouched; while halted no engine acts and nothing is sent; with no configured id nothing is active or sent; otherwise every active engine's team is this run's active ids; every active engine holds a player of the snapshot; commands come only from active engines; child markings are preserved |
| Bags.ConsumeConfig | src/player-bag.ts:52-54 | the new configuration replaces the old one and nothing else changes |
| Bags.ToggleStop | src/player-bag.ts:56-58 | the halt switch flips and nothing else changes |
| Bags.ToggleTwice | src/player-bag.ts:56-58 | two toggles restore the bag |

## Left out

- Network and client calls (`drivePlayer`, `switchWeapon`, `marryWife`) are returned as `Command` values instead of being performed; the socket plumbing in src/client-connection.ts and the CLI loop in src/index.ts are not part of this model.
- `db.insertTicktackLog` is modelled as appending the snapshot to the bag's `log`; the database itself is not part of this model.
- `console.log` output is omitted throughout.
- `PaceMeasurement` is not part of this model: it only feeds logging, and no decision reads it.
- `Date.now()` is read several times in the source within one call; the model takes one `now` per call, so all reads within a call see the same time.
- Randomness: `Math.random()` values are explicit draws in [0, 1). No claim is made about their distribution.
- Within one turn, the scan `ConsumeTicktack` runs for its map state uses the same direction draws as the scans of `NextAction`; the k-th active engine uses the k-th entry of the per-run draws, and the registration loop uses the draws of the snapshot player's index. Which draws the runtime would supply is not modelled.
- `needToDelay` always answers false (its body is commented out), so `ShouldWait` leaves it out.
- Bomb ownership: the source declares `Bomb.playerId` a number and compares it with `===` against the string player id. The model stores it as a string, so `hasBombsOnMap` can be true; under the declared types it would always be false.
- A grid row index outside the map throws in the source; the model reads every off-grid cell as Wall, as stated above.
- The module providing `TreeNode`, `tracePath`, `inPosArray`, `samePosition` and `Direction` is not part of this model; local equivalents are defined in `SearchTree` and `Grid`.
- Player snapshots are reduced to the fields the core reads (id, position, lives, power, weapon, transform flag); spoil types, bomb fuse times and the other snapshot fields are not modelled.
- PlayerActions.FindPath: the order of the scan's targets follows the direction draws and is not characterised, so the contract does not say which of several preferred cells, or of several cells with the same largest Balk count, is the one `priorityCheck` meets first.
- PlayerActions.Route: states the priority pick over some listing of the safe frontier cells, not over the scan's own order; among equally ranked cells (several preferred, several with the same largest count, or all counts zero) any one may be the pick.
- PlayerActions.Wander: inherits the ranking of `Route`, without the scan order among equally ranked cells.
- PlayerActions.Flee: inherits the ranking of `Route`, without the scan order among equally ranked cells.
- PlayerActions.Bomb: inherits the ranking of `Route`, without the scan order among equally ranked cells.
- PlayerActions.Perform: inherits the ranking of `Route`, without the scan order among equally ranked cells.
- PlayerActions.Decide: inherits the ranking of `Route` through `Perform`, without the scan order among equally ranked cells.
- PlayerActions.NextAction: inherits the ranking of `Route` through `Decide`, without the scan order among equally ranked cells.
- Bags.Act: states the marriage request, the timer and the bound on the commands, but not the full `Decided` outcome of `NextAction`, which would have to be restated for the engine `ConsumeTicktack` produces.
