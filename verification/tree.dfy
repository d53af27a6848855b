/**
 * The search tree a scan grows: an arena of expanded nodes, each pointing to
 * its parent by index, and the path reconstruction that walks those indices
 * back to the root.
 */
module SearchTree {
  import opened Optional
  import opened Cells
  import opened Grid

  /**
   * A search node: its position, the index of its parent among the expanded
   * nodes (None for the root), the cell found there and its Balk count.
   */
  datatype Node = Node(pos: Pos, parent: Option<nat>, cell: Cell, hitBox: int)

  /** Node `k` of `tree` points to an earlier node one step away. */
  predicate Linked(tree: seq<Node>, k: int)
    requires 0 <= k < |tree|
  {
    tree[k].parent.Some? && tree[k].parent.value < k &&
    Adjacent(tree[tree[k].parent.value].pos, tree[k].pos)
  }

  /** Parent links only point backwards, so every chain ends at the root. */
  predicate Structured(tree: seq<Node>)
  {
    |tree| >= 1 && tree[0].parent.None? &&
    forall k :: 1 <= k < |tree| ==> Linked(tree, k)
  }

  /** A node not (yet) in the tree whose parent is a tree node one step away. */
  predicate Attached(tree: seq<Node>, n: Node)
  {
    n.parent.Some? && n.parent.value < |tree| && Adjacent(tree[n.parent.value].pos, n.pos)
  }

  /** The indices from the root down to node `k`. */
  function Ancestry(tree: seq<Node>, k: nat): (r: seq<nat>)
    requires Structured(tree) && k < |tree|
    ensures |r| >= 1 && r[0] == 0 && r[|r| - 1] == k
    ensures forall j :: 0 <= j < |r| ==> r[j] <= k
    ensures forall j :: 1 <= j < |r| ==> 1 <= r[j] && tree[r[j]].parent == Some(r[j - 1])
    decreases k
  {
    if k == 0 then [0]
    else
      assert Linked(tree, k);
      Ancestry(tree, tree[k].parent.value) + [k]
  }

  /**
   * A traced path: the positions from the root to the target (both
   * included), the move between each pair of consecutive positions, and the
   * target node itself.
   */
  datatype Path = Path(positions: seq<Pos>, directions: seq<Direction>, target: Node)

  /** The positions of the nodes an index list names. */
  function NodePositions(tree: seq<Node>, anc: seq<nat>): (ps: seq<Pos>)
    requires forall j :: 0 <= j < |anc| ==> anc[j] < |tree|
    ensures |ps| == |anc| && forall j :: 0 <= j < |anc| ==> ps[j] == tree[anc[j]].pos
  {
    seq(|anc|, j requires 0 <= j < |anc| => tree[anc[j]].pos)
  }

  /** The positions from the root to `n`: its parent's ancestry, then `n` itself. */
  function Chain(tree: seq<Node>, n: Node): (ps: seq<Pos>)
    requires Structured(tree) && Attached(tree, n)
    ensures |ps| >= 2 && ps[0] == tree[0].pos && ps[|ps| - 1] == n.pos
    ensures forall j :: 0 <= j < |ps| - 1 ==> Adjacent(ps[j], ps[j + 1])
  {
    var anc := Ancestry(tree, n.parent.value);
    var ps := NodePositions(tree, anc) + [n.pos];
    forall j | 0 <= j < |ps| - 1
      ensures Adjacent(ps[j], ps[j + 1])
    {
      if j + 1 < |anc| {
        assert Linked(tree, anc[j + 1]);
      }
    }
    ps
  }

  /** The move from the `j`-th position of a chain to the next. */
  function MoveAt(ps: seq<Pos>, j: int): (d: Direction)
    requires 0 <= j < |ps| - 1 && Adjacent(ps[j], ps[j + 1])
    ensures Step(ps[j], d) == ps[j + 1]
  {
    DirectionTo(ps[j], ps[j + 1]).value
  }

  /** The moves along a chain of adjacent positions. */
  function Moves(ps: seq<Pos>): (ds: seq<Direction>)
    requires |ps| >= 1
    requires forall j :: 0 <= j < |ps| - 1 ==> Adjacent(ps[j], ps[j + 1])
    ensures |ds| == |ps| - 1 && Walk(ps[0], ds) == ps
  {
    var ds := seq(|ps| - 1, j requires 0 <= j < |ps| - 1 && Adjacent(ps[j], ps[j + 1]) => MoveAt(ps, j));
    WalkFollows(ps, ds);
    ds
  }

  /** `tracePath`: the root-to-target walk of a node attached to the tree. */
  function TracePath(tree: seq<Node>, n: Node): (r: Path)
    requires Structured(tree) && Attached(tree, n)
    ensures |r.positions| == |r.directions| + 1
    ensures r.positions[0] == tree[0].pos && r.positions[|r.positions| - 1] == n.pos
    ensures r.target == n
    ensures Walk(tree[0].pos, r.directions) == r.positions
  {
    var ps := Chain(tree, n);
    Path(ps, Moves(ps), n)
  }

  /** A walk is determined by its start and its moves. */
  lemma {:induction false} WalkFollows(ps: seq<Pos>, ds: seq<Direction>)
    requires |ps| == |ds| + 1
    requires forall j :: 0 <= j < |ds| ==> ps[j + 1] == Step(ps[j], ds[j])
    ensures Walk(ps[0], ds) == ps
    decreases |ds|
  {
    if |ds| > 0 {
      WalkFollows(ps[1..], ds[1..]);
      assert Walk(ps[0], ds) == [ps[0]] + Walk(ps[1], ds[1..]);
    }
  }

  /** Between the root and the target, a traced path runs through non-root tree nodes only. */
  lemma TraceThroughTree(tree: seq<Node>, n: Node)
    requires Structured(tree) && Attached(tree, n)
    ensures forall j :: 1 <= j < |TracePath(tree, n).positions| - 1 ==>
      exists k :: 1 <= k < |tree| && TracePath(tree, n).positions[j] == tree[k].pos
  {
    var anc := Ancestry(tree, n.parent.value);
    var ps := TracePath(tree, n).positions;
    assert ps == NodePositions(tree, anc) + [n.pos];
    forall j | 1 <= j < |ps| - 1
      ensures exists k :: 1 <= k < |tree| && ps[j] == tree[k].pos
    {
      assert ps[j] == tree[anc[j]].pos;
    }
  }

  /** The number of moves from the root to node `k`. */
  function Depth(tree: seq<Node>, k: nat): nat
    requires Structured(tree) && k < |tree|
  {
    |Ancestry(tree, k)| - 1
  }

  /** A target of depth D traces to D + 1 positions and D moves. */
  lemma TraceLength(tree: seq<Node>, n: Node)
    requires Structured(tree) && Attached(tree, n)
    ensures |TracePath(tree, n).positions| == Depth(tree, n.parent.value) + 2
    ensures |TracePath(tree, n).directions| == Depth(tree, n.parent.value) + 1
  {
  }
}
