/**
 * The target selectors a scan's caller can apply to its candidate list:
 * the default random pick, the deterministic `priorityCheck`, and the
 * (unused) `firstSafePlace`.
 */
module Selection {
  import opened Optional
  import opened Cells
  import opened Grid
  import opened Draws
  import opened SearchTree

  /** `Math.floor(u * n)`: a uniform index into a list of `n` elements. */
  function PickIndex(u: Fraction, n: nat): (i: int)
    requires n > 0
    ensures 0 <= i < n
  {
    var x := u * n as real;
    assert x < n as real by {
      assert (1.0 - u) * (n as real) > 0.0;
      assert (1.0 - u) * (n as real) == n as real - x;
    }
    x.Floor
  }

  /** The default selector of `nextTarget`: a random element; nothing for an empty list. */
  function RandomPick(u: Fraction, nodes: seq<Node>): (r: Option<Node>)
    ensures |nodes| == 0 <==> r.None?
    ensures r.Some? ==> r.value in nodes
  {
    if |nodes| == 0 then None else Some(nodes[PickIndex(u, |nodes|)])
  }

  /**
   * The nodes `priorityCheck` returns as soon as it meets them: a GodBadge or
   * BrickWall cell while not god, a spoil position while god.
   */
  predicate Preferred(g: Map, god: bool, spoils: seq<Pos>, n: Node)
  {
    PreferredPos(g, god, spoils, n.pos)
  }

  /** The cell test behind `Preferred`: it depends on the node's position only. */
  predicate PreferredPos(g: Map, god: bool, spoils: seq<Pos>, p: Pos)
  {
    (!god && (CellAt(g, p) == GodBadge || CellAt(g, p) == BrickWall)) ||
    (god && p in spoils)
  }

  /**
   * The loop of `priorityCheck` from index `i` on; `best` is the index of the
   * best non-zero Balk count seen so far (a later node replaces it only with
   * a strictly higher count).
   */
  function PriorityFrom(nodes: seq<Node>, g: Map, god: bool, spoils: seq<Pos>, i: nat, best: Option<nat>): (r: Option<Node>)
    requires i <= |nodes|
    requires best.Some? ==> best.value < i
    ensures |nodes| == 0 <==> r.None?
    ensures r.Some? ==> r.value in nodes
    decreases |nodes| - i
  {
    if i == |nodes| then
      if best.Some? then Some(nodes[best.value])
      else if |nodes| > 0 then Some(nodes[|nodes| - 1])
      else None
    else
      var n := nodes[i];
      if !god && CellAt(g, n.pos) == GodBadge then Some(n)
      else if !god && CellAt(g, n.pos) == BrickWall then Some(n)
      else if god && n.pos in spoils then Some(n)
      else
        var best' := if n.hitBox != 0 && (best.None? || nodes[best.value].hitBox < n.hitBox) then Some(i) else best;
        PriorityFrom(nodes, g, god, spoils, i + 1, best')
  }

  /** `priorityCheck`; an empty list yields nothing, as `nodes[-1]` does. */
  function PriorityCheck(nodes: seq<Node>, g: Map, god: bool, spoils: seq<Pos>): Option<Node>
  {
    PriorityFrom(nodes, g, god, spoils, 0, None)
  }

  /** `b` is the first index among `nodes[..i]` holding the largest non-zero count. */
  ghost predicate BestSoFar(nodes: seq<Node>, i: nat, best: Option<nat>)
    requires i <= |nodes|
  {
    (best.None? <==> forall j :: 0 <= j < i ==> nodes[j].hitBox == 0) &&
    (best.Some? ==>
      best.value < i && nodes[best.value].hitBox != 0 &&
      (forall j :: 0 <= j < i && nodes[j].hitBox != 0 ==> nodes[j].hitBox <= nodes[best.value].hitBox) &&
      (forall j :: 0 <= j < best.value && nodes[j].hitBox != 0 ==> nodes[j].hitBox < nodes[best.value].hitBox))
  }

  /** What `priorityCheck` picks, stated without its loop. */
  ghost predicate PriorityChoice(nodes: seq<Node>, g: Map, god: bool, spoils: seq<Pos>, r: Node)
  {
    if exists i :: 0 <= i < |nodes| && Preferred(g, god, spoils, nodes[i]) then
      // the first preferred node
      exists i :: 0 <= i < |nodes| && Preferred(g, god, spoils, nodes[i]) && r == nodes[i] &&
        forall j :: 0 <= j < i ==> !Preferred(g, god, spoils, nodes[j])
    else if exists i :: 0 <= i < |nodes| && nodes[i].hitBox != 0 then
      // the first node with the largest non-zero Balk count
      exists i :: 0 <= i < |nodes| && r == nodes[i] && nodes[i].hitBox != 0 &&
        (forall j :: 0 <= j < |nodes| && nodes[j].hitBox != 0 ==> nodes[j].hitBox <= nodes[i].hitBox) &&
        (forall j :: 0 <= j < i && nodes[j].hitBox != 0 ==> nodes[j].hitBox < nodes[i].hitBox)
    else
      // otherwise the last node
      |nodes| > 0 && r == nodes[|nodes| - 1]
  }

  /** The preferred branch of `PriorityChoice`: the choice is a listed preferred node. */
  lemma PreferredChoice(nodes: seq<Node>, g: Map, god: bool, spoils: seq<Pos>, r: Node) returns (i: nat)
    requires PriorityChoice(nodes, g, god, spoils, r)
    requires exists k :: 0 <= k < |nodes| && Preferred(g, god, spoils, nodes[k])
    ensures i < |nodes| && r == nodes[i] && Preferred(g, god, spoils, r)
  {
    i :| 0 <= i < |nodes| && Preferred(g, god, spoils, nodes[i]) && r == nodes[i] &&
      forall j :: 0 <= j < i ==> !Preferred(g, god, spoils, nodes[j]);
  }

  /** The Balk-count branch of `PriorityChoice`: the choice has the largest non-zero count. */
  lemma BestChoice(nodes: seq<Node>, g: Map, god: bool, spoils: seq<Pos>, r: Node) returns (i: nat)
    requires PriorityChoice(nodes, g, god, spoils, r)
    requires !exists k :: 0 <= k < |nodes| && Preferred(g, god, spoils, nodes[k])
    requires exists k :: 0 <= k < |nodes| && nodes[k].hitBox != 0
    ensures i < |nodes| && r == nodes[i] && r.hitBox != 0
    ensures forall j :: 0 <= j < |nodes| && nodes[j].hitBox != 0 ==> nodes[j].hitBox <= r.hitBox
  {
    i :| 0 <= i < |nodes| && r == nodes[i] && nodes[i].hitBox != 0 &&
      (forall j :: 0 <= j < |nodes| && nodes[j].hitBox != 0 ==> nodes[j].hitBox <= nodes[i].hitBox) &&
      (forall j :: 0 <= j < i && nodes[j].hitBox != 0 ==> nodes[j].hitBox < nodes[i].hitBox);
  }

  lemma {:induction false} PriorityFromChoice(nodes: seq<Node>, g: Map, god: bool, spoils: seq<Pos>, i: nat, best: Option<nat>)
    requires i <= |nodes| && BestSoFar(nodes, i, best)
    requires forall j :: 0 <= j < i ==> !Preferred(g, god, spoils, nodes[j])
    requires |nodes| > 0
    ensures PriorityFrom(nodes, g, god, spoils, i, best).Some?
    ensures PriorityChoice(nodes, g, god, spoils, PriorityFrom(nodes, g, god, spoils, i, best).value)
    decreases |nodes| - i
  {
    var r := PriorityFrom(nodes, g, god, spoils, i, best);
    if i == |nodes| {
      if best.Some? {
        assert r.value == nodes[best.value];
      }
    } else {
      var n := nodes[i];
      if Preferred(g, god, spoils, n) {
        assert r.value == n;
      } else {
        var best' := if n.hitBox != 0 && (best.None? || nodes[best.value].hitBox < n.hitBox) then Some(i) else best;
        assert BestSoFar(nodes, i + 1, best');
        PriorityFromChoice(nodes, g, god, spoils, i + 1, best');
      }
    }
  }

  /**
   * On a non-empty list `priorityCheck` returns one of its nodes, chosen as
   * `PriorityChoice` describes.
   */
  lemma PriorityCheckChoice(nodes: seq<Node>, g: Map, god: bool, spoils: seq<Pos>)
    requires |nodes| > 0
    ensures PriorityCheck(nodes, g, god, spoils).Some?
    ensures PriorityCheck(nodes, g, god, spoils).value in nodes
    ensures PriorityChoice(nodes, g, god, spoils, PriorityCheck(nodes, g, god, spoils).value)
  {
    PriorityFromChoice(nodes, g, god, spoils, 0, None);
  }

  /** A node that is out of danger and passable. */
  predicate SafePlace(g: Map, danger: seq<Pos>, n: Node)
  {
    n.pos !in danger && PassThrough(CellAt(g, n.pos))
  }

  /** `firstSafePlace` from index `i`: the first safe node, else the last node. */
  function FirstSafeFrom(nodes: seq<Node>, g: Map, danger: seq<Pos>, i: nat): (r: Option<Node>)
    requires i <= |nodes|
    ensures |nodes| == 0 <==> r.None?
    ensures r.Some? ==> r.value in nodes
    ensures (forall k :: i <= k < |nodes| ==> !SafePlace(g, danger, nodes[k])) && |nodes| > 0 ==>
      r == Some(nodes[|nodes| - 1])
    decreases |nodes| - i
  {
    if i == |nodes| then
      if |nodes| > 0 then Some(nodes[|nodes| - 1]) else None
    else if SafePlace(g, danger, nodes[i]) then Some(nodes[i])
    else FirstSafeFrom(nodes, g, danger, i + 1)
  }

  /**
   * `firstSafePlace` (defined but never called by the engine): a safe node
   * whenever one exists, and then the first one; otherwise the last node.
   */
  function FirstSafePlace(nodes: seq<Node>, g: Map, danger: seq<Pos>): (r: Option<Node>)
    ensures |nodes| == 0 <==> r.None?
    ensures (exists k :: 0 <= k < |nodes| && SafePlace(g, danger, nodes[k])) ==>
      exists k :: 0 <= k < |nodes| && nodes[k] == r.value && SafePlace(g, danger, nodes[k]) &&
        forall j :: 0 <= j < k ==> !SafePlace(g, danger, nodes[j])
    ensures (forall k :: 0 <= k < |nodes| ==> !SafePlace(g, danger, nodes[k])) && |nodes| > 0 ==>
      r == Some(nodes[|nodes| - 1])
  {
    var r := FirstSafeFrom(nodes, g, danger, 0);
    if exists k :: 0 <= k < |nodes| && SafePlace(g, danger, nodes[k]) then
      FirstSafeIsFirst(nodes, g, danger, 0);
      r
    else r
  }

  lemma {:induction false} FirstSafeIsFirst(nodes: seq<Node>, g: Map, danger: seq<Pos>, i: nat)
    requires i <= |nodes|
    requires exists k :: i <= k < |nodes| && SafePlace(g, danger, nodes[k])
    ensures var r := FirstSafeFrom(nodes, g, danger, i);
      exists k :: i <= k < |nodes| && nodes[k] == r.value && SafePlace(g, danger, nodes[k]) &&
        forall j :: i <= j < k ==> !SafePlace(g, danger, nodes[j])
    decreases |nodes| - i
  {
    if !SafePlace(g, danger, nodes[i]) {
      FirstSafeIsFirst(nodes, g, danger, i + 1);
      var r := FirstSafeFrom(nodes, g, danger, i + 1);
      var k :| i + 1 <= k < |nodes| && nodes[k] == r.value && SafePlace(g, danger, nodes[k]) &&
        forall j :: i + 1 <= j < k ==> !SafePlace(g, danger, nodes[j]);
      assert forall j :: i <= j < k ==> !SafePlace(g, danger, nodes[j]);
    }
  }

  /** The two selectors the engine passes to `nextTarget`. */
  datatype Selector =
    | RandomSelector(u: Fraction)
    | PrioritySelector(grid: Map, god: bool, spoils: seq<Pos>)

  function Select(sel: Selector, nodes: seq<Node>): (r: Option<Node>)
    ensures |nodes| == 0 <==> r.None?
    ensures r.Some? ==> r.value in nodes
  {
    match sel
    case RandomSelector(u) => RandomPick(u, nodes)
    case PrioritySelector(g, god, spoils) => PriorityCheck(nodes, g, god, spoils)
  }
}
