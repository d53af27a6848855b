/**
 * `MapScanner`: a breadth-first reachability scan from a start cell that
 * records candidate target nodes, and `nextTarget`, which traces the path to
 * the selected candidate.
 */
module Scanner {
  import opened Optional
  import opened Cells
  import opened Grid
  import opened Draws
  import opened Blast
  import opened SearchTree
  import opened Selection

  /** `shouldPassDanger`: while the start is safe, the scan never steps into danger. */
  predicate DangerPermits(start: Pos, danger: seq<Pos>, p: Pos)
  {
    start in danger || p !in danger
  }

  /** A cell the scan enqueues for expansion. */
  predicate Traversable(g: Map, start: Pos, danger: seq<Pos>, blocked: seq<Pos>, p: Pos)
  {
    InMap(g, p) && PassThrough(CellAt(g, p)) && p !in blocked && DangerPermits(start, danger, p)
  }

  /** A cell the scan probes with the caller's filter. */
  predicate Probeable(g: Map, blocked: seq<Pos>, p: Pos)
  {
    InMap(g, p) && SafeToReach(CellAt(g, p)) && p !in blocked
  }

  /** A non-root node as the scan creates it: in the map, with its cell and its Balk count. */
  predicate Annotated(g: Map, power: int, n: Node)
  {
    InMap(g, n.pos) && SafeToReach(CellAt(g, n.pos)) &&
    n.cell == CellAt(g, n.pos) && n.hitBox == CountBoxHit(g, n.pos, power)
  }

  function Root(g: Map, start: Pos): Node
  {
    Node(start, None, CellAt(g, start), 0)
  }

  /** The fixed inputs of one scan. */
  datatype Setting = Setting(g: Map, start: Pos, power: int, danger: seq<Pos>, blocked: seq<Pos>, filter: (Map, Pos) -> bool)

  predicate Passable(sc: Setting, p: Pos)
  {
    Traversable(sc.g, sc.start, sc.danger, sc.blocked, p)
  }

  /** The expanded nodes: the root first, every later one traversable. */
  predicate TreeOk(sc: Setting, tree: seq<Node>)
  {
    Structured(tree) && tree[0] == Root(sc.g, sc.start) &&
    forall k :: 1 <= k < |tree| ==> Annotated(sc.g, sc.power, tree[k]) && Passable(sc, tree[k].pos)
  }

  /** A node waiting in the queue: hangs below the tree and is traversable. */
  predicate QueuedOk(sc: Setting, tree: seq<Node>, n: Node)
  {
    Attached(tree, n) && Annotated(sc.g, sc.power, n) && Passable(sc, n.pos)
  }

  predicate QueueOk(sc: Setting, tree: seq<Node>, queue: seq<Node>)
  {
    forall j :: 0 <= j < |queue| ==> QueuedOk(sc, tree, queue[j])
  }

  /** A recorded target: hangs below the tree, unblocked and accepted by the filter. */
  predicate TargetOk(sc: Setting, tree: seq<Node>, t: Node)
  {
    Attached(tree, t) && Annotated(sc.g, sc.power, t) && t.pos !in sc.blocked && sc.filter(sc.g, t.pos)
  }

  predicate TargetsOk(sc: Setting, tree: seq<Node>, targets: seq<Node>, probed: seq<Pos>)
  {
    forall j :: 0 <= j < |targets| ==> TargetOk(sc, tree, targets[j]) && targets[j].pos in probed
  }

  /** `expanded` lists the positions of `tree`, in order. */
  predicate Indexed(tree: seq<Node>, expanded: seq<Pos>)
  {
    |expanded| == |tree| && forall k :: 0 <= k < |tree| ==> expanded[k] == tree[k].pos
  }

  /** `pending` lists the positions of `queue`, in order. */
  ghost predicate Mirrors(queue: seq<Node>, pending: seq<Pos>)
  {
    |pending| == |queue| && forall j :: 0 <= j < |queue| ==> pending[j] == queue[j].pos
  }

  /** Every probed cell is probeable and next to an expanded cell. */
  predicate ProbedSound(sc: Setting, expanded: seq<Pos>, probed: seq<Pos>)
  {
    forall p :: p in probed ==> Probeable(sc.g, sc.blocked, p) && exists v :: v in expanded && Adjacent(v, p)
  }

  /** Every probeable neighbour of an expanded cell has been probed. */
  predicate ProbedComplete(sc: Setting, expanded: seq<Pos>, probed: seq<Pos>)
  {
    forall k, d :: 0 <= k < |expanded| && Probeable(sc.g, sc.blocked, Step(expanded[k], d)) ==>
      Step(expanded[k], d) in probed
  }

  /** Every probed cell the filter accepts is recorded as a target. */
  predicate FilterComplete(sc: Setting, targets: seq<Node>, probed: seq<Pos>)
  {
    forall p :: p in probed && sc.filter(sc.g, p) ==> exists t :: t in targets && t.pos == p
  }

  /** Every traversable neighbour of an expanded cell is expanded or queued. */
  ghost predicate Closed(sc: Setting, expanded: seq<Pos>, pending: seq<Pos>)
  {
    forall k, d :: 0 <= k < |expanded| && Passable(sc, Step(expanded[k], d)) ==>
      Step(expanded[k], d) in expanded || Step(expanded[k], d) in pending
  }

  /**
   * What a scan leaves behind: the expanded nodes in expansion order, their
   * positions (the source's `visited`), the recorded targets, and every
   * position the filter was applied to.
   */
  datatype ScanResult = ScanResult(tree: seq<Node>, expanded: seq<Pos>, targets: seq<Node>, probed: seq<Pos>)

  /** The expanded cells are closed under traversable steps. */
  predicate Saturated(g: Map, start: Pos, danger: seq<Pos>, blocked: seq<Pos>, expanded: seq<Pos>)
  {
    forall k, d :: 0 <= k < |expanded| && Traversable(g, start, danger, blocked, Step(expanded[k], d)) ==>
      Step(expanded[k], d) in expanded
  }

  /**
   * The probed cells are exactly the probeable neighbours of expanded
   * cells: each is next to an expanded cell, and none is missed.
   */
  predicate ProbesNeighbors(g: Map, blocked: seq<Pos>, expanded: seq<Pos>, probed: seq<Pos>)
  {
    && (forall p :: p in probed ==> Probeable(g, blocked, p) && exists v :: v in expanded && Adjacent(v, p))
    && (forall k, d :: 0 <= k < |expanded| && Probeable(g, blocked, Step(expanded[k], d)) ==>
          Step(expanded[k], d) in probed)
  }

  /** Membership in the probed cells, stated cell by cell. */
  lemma ProbedIff(g: Map, blocked: seq<Pos>, expanded: seq<Pos>, probed: seq<Pos>, x: Pos)
    requires ProbesNeighbors(g, blocked, expanded, probed)
    ensures x in probed <==>
      Probeable(g, blocked, x) && exists k, d :: 0 <= k < |expanded| && Step(expanded[k], d) == x
  {
    if x in probed {
      var v :| v in expanded && Adjacent(v, x);
      var k :| 0 <= k < |expanded| && expanded[k] == v;
      AdjacentIsUnitDistance(v, x);
      var d := DirectionTo(v, x).value;
      DirectionToStep(v, d);
      assert Step(expanded[k], d) == x;
    }
  }

  /** The parent links a scan result's targets rely on. */
  predicate WellFormed(r: ScanResult)
  {
    Structured(r.tree) && forall j :: 0 <= j < |r.targets| ==> Attached(r.tree, r.targets[j])
  }

  ghost function Unexpanded(U: set<Pos>, expanded: seq<Pos>): nat
  {
    |U - (set p | p in expanded)|
  }

  lemma ExpandingShrinks(U: set<Pos>, expanded: seq<Pos>, x: Pos)
    requires x in U && x !in expanded
    ensures Unexpanded(U, expanded + [x]) < Unexpanded(U, expanded)
  {
    var before := U - (set p | p in expanded);
    var after := U - (set p | p in expanded + [x]);
    assert after == before - {x};
    assert x in before;
  }

  /**
   * The neighbour-handling step of an expansion: a neighbour that is safe to
   * reach becomes a node under `parent`; it is queued if traversable and
   * recorded as a target if unblocked and accepted by the filter.
   */
  method Offer(sc: Setting, tree: seq<Node>, expanded: seq<Pos>, parent: nat, neighbor: Pos,
               queue: seq<Node>, ghost pending: seq<Pos>, targets: seq<Node>, probed: seq<Pos>)
    returns (queue': seq<Node>, ghost pending': seq<Pos>, targets': seq<Node>, probed': seq<Pos>)
    requires parent < |tree| && Indexed(tree, expanded)
    requires InMap(sc.g, neighbor) && Adjacent(tree[parent].pos, neighbor)
    requires QueueOk(sc, tree, queue) && Mirrors(queue, pending)
    requires TargetsOk(sc, tree, targets, probed) && ProbedSound(sc, expanded, probed)
    requires FilterComplete(sc, targets, probed)
    ensures QueueOk(sc, tree, queue') && Mirrors(queue', pending')
    ensures TargetsOk(sc, tree, targets', probed') && ProbedSound(sc, expanded, probed')
    ensures FilterComplete(sc, targets', probed')
    ensures forall p :: p in pending ==> p in pending'
    ensures forall p :: p in probed ==> p in probed'
    ensures Passable(sc, neighbor) ==> neighbor in pending'
    ensures Probeable(sc.g, sc.blocked, neighbor) ==> neighbor in probed'
  {
    queue', pending', targets', probed' := queue, pending, targets, probed;
    var cell := CellAt(sc.g, neighbor);
    if SafeToReach(cell) {
      var child := Node(neighbor, Some(parent), cell, CountBoxHit(sc.g, neighbor, sc.power));
      if DangerPermits(sc.start, sc.danger, neighbor) && PassThrough(cell) && neighbor !in sc.blocked {
        queue' := queue + [child];
        pending' := pending + [neighbor];
      }
      if neighbor !in sc.blocked {
        assert expanded[parent] == tree[parent].pos;
        probed' := probed + [neighbor];
        if sc.filter(sc.g, neighbor) {
          targets' := targets + [child];
        }
      }
    }
  }

  /** `scan`'s inner loop: offer every neighbour of the last expanded node in turn. */
  method Expand(sc: Setting, tree: seq<Node>, expanded: seq<Pos>, ns: seq<Pos>,
                queue: seq<Node>, ghost pending: seq<Pos>, targets: seq<Node>, probed: seq<Pos>)
    returns (queue': seq<Node>, ghost pending': seq<Pos>, targets': seq<Node>, probed': seq<Pos>)
    requires |tree| > 0 && Indexed(tree, expanded)
    requires forall x :: x in ns ==> InMap(sc.g, x) && Adjacent(tree[|tree| - 1].pos, x)
    requires QueueOk(sc, tree, queue) && Mirrors(queue, pending)
    requires TargetsOk(sc, tree, targets, probed) && ProbedSound(sc, expanded, probed)
    requires FilterComplete(sc, targets, probed)
    ensures QueueOk(sc, tree, queue') && Mirrors(queue', pending')
    ensures TargetsOk(sc, tree, targets', probed') && ProbedSound(sc, expanded, probed')
    ensures FilterComplete(sc, targets', probed')
    ensures forall p :: p in pending ==> p in pending'
    ensures forall p :: p in probed ==> p in probed'
    ensures forall x :: x in ns && Passable(sc, x) ==> x in pending'
    ensures forall x :: x in ns && Probeable(sc.g, sc.blocked, x) ==> x in probed'
    decreases |ns|
  {
    if |ns| == 0 {
      return queue, pending, targets, probed;
    }
    ghost var pending1: seq<Pos>;
    var queue1, targets1, probed1;
    queue1, pending1, targets1, probed1 := Offer(sc, tree, expanded, |tree| - 1, ns[0], queue, pending, targets, probed);
    queue', pending', targets', probed' := Expand(sc, tree, expanded, ns[1..], queue1, pending1, targets1, probed1);
    assert forall x :: x in ns ==> x == ns[0] || x in ns[1..];
  }

  /** Appending an expanded node keeps everything attached to the tree attached. */
  lemma TreeGrows(sc: Setting, tree: seq<Node>, node: Node, queue: seq<Node>, targets: seq<Node>, probed: seq<Pos>)
    requires QueueOk(sc, tree, queue) && TargetsOk(sc, tree, targets, probed)
    ensures QueueOk(sc, tree + [node], queue) && TargetsOk(sc, tree + [node], targets, probed)
  {
    var tree' := tree + [node];
    forall j | 0 <= j < |queue|
      ensures QueuedOk(sc, tree', queue[j])
    {
      assert tree'[queue[j].parent.value] == tree[queue[j].parent.value];
    }
    forall j | 0 <= j < |targets|
      ensures TargetOk(sc, tree', targets[j])
    {
      assert tree'[targets[j].parent.value] == tree[targets[j].parent.value];
    }
  }

  lemma StructuredGrows(tree: seq<Node>, node: Node)
    requires Structured(tree) && Attached(tree, node)
    ensures Structured(tree + [node])
  {
    var tree' := tree + [node];
    forall k | 1 <= k < |tree'|
      ensures Linked(tree', k)
    {
      if k < |tree| {
        assert Linked(tree, k);
        assert tree'[tree[k].parent.value] == tree[tree[k].parent.value];
      }
    }
  }

  /** Once `x` is expanded and its traversable neighbours queued, closure holds again. */
  lemma ClosedGrows(sc: Setting, expanded: seq<Pos>, x: Pos, ns: seq<Pos>, pending: seq<Pos>, pending': seq<Pos>)
    requires Closed(sc, expanded, [x] + pending)
    requires forall d :: InMap(sc.g, Step(x, d)) ==> Step(x, d) in ns
    requires forall p :: p in pending ==> p in pending'
    requires forall y :: y in ns && Passable(sc, y) ==> y in pending'
    ensures Closed(sc, expanded + [x], pending')
  {
    var expanded' := expanded + [x];
    forall k, d | 0 <= k < |expanded'| && Passable(sc, Step(expanded'[k], d))
      ensures Step(expanded'[k], d) in expanded' || Step(expanded'[k], d) in pending'
    {
      var y := Step(expanded'[k], d);
      if k == |expanded| {
        assert y in ns;
      } else {
        assert expanded'[k] == expanded[k];
        assert y in expanded || y in [x] + pending;
      }
    }
  }

  /** Once `x`'s probeable neighbours are probed, probing is complete again. */
  lemma ProbedGrows(sc: Setting, expanded: seq<Pos>, x: Pos, ns: seq<Pos>, probed: seq<Pos>, probed': seq<Pos>)
    requires ProbedComplete(sc, expanded, probed)
    requires forall d :: InMap(sc.g, Step(x, d)) ==> Step(x, d) in ns
    requires forall p :: p in probed ==> p in probed'
    requires forall y :: y in ns && Probeable(sc.g, sc.blocked, y) ==> y in probed'
    ensures ProbedComplete(sc, expanded + [x], probed')
  {
    var expanded' := expanded + [x];
    forall k, d | 0 <= k < |expanded'| && Probeable(sc.g, sc.blocked, Step(expanded'[k], d))
      ensures Step(expanded'[k], d) in probed'
    {
      if k == |expanded| {
        assert Step(expanded'[k], d) in ns;
      } else {
        assert expanded'[k] == expanded[k];
      }
    }
  }

  /**
   * The expanding branch of `scan`'s outer loop: record `node`, then offer
   * its in-map neighbours in the order `draw` gives.
   */
  method Grow(sc: Setting, tree: seq<Node>, expanded: seq<Pos>, node: Node, draw: DirDraw,
              queue: seq<Node>, ghost pending: seq<Pos>, targets: seq<Node>, probed: seq<Pos>)
    returns (tree': seq<Node>, expanded': seq<Pos>, queue': seq<Node>, ghost pending': seq<Pos>, targets': seq<Node>, probed': seq<Pos>)
    requires Indexed(tree, expanded) && Distinct(expanded) && node.pos !in expanded
    requires |tree| == 0 ==> node == Root(sc.g, sc.start) && queue == [] && targets == [] && probed == []
    requires |tree| > 0 ==> TreeOk(sc, tree) && QueuedOk(sc, tree, node) && QueueOk(sc, tree, queue)
    requires Mirrors(queue, pending) && Closed(sc, expanded, [node.pos] + pending)
    requires TargetsOk(sc, tree, targets, probed) && ProbedSound(sc, expanded, probed)
    requires ProbedComplete(sc, expanded, probed) && FilterComplete(sc, targets, probed)
    ensures tree' == tree + [node] && expanded' == expanded + [node.pos]
    ensures Indexed(tree', expanded') && Distinct(expanded') && TreeOk(sc, tree')
    ensures QueueOk(sc, tree', queue') && Mirrors(queue', pending') && Closed(sc, expanded', pending')
    ensures TargetsOk(sc, tree', targets', probed') && ProbedSound(sc, expanded', probed')
    ensures ProbedComplete(sc, expanded', probed') && FilterComplete(sc, targets', probed')
  {
    tree' := tree + [node];
    expanded' := expanded + [node.pos];
    if |tree| > 0 {
      StructuredGrows(tree, node);
    }
    TreeGrows(sc, tree, node, queue, targets, probed);
    assert ProbedSound(sc, expanded', probed) by {
      assert forall v :: v in expanded ==> v in expanded';
    }
    var ns := GetNeighbors(sc.g, node.pos, draw);
    queue', pending', targets', probed' := Expand(sc, tree', expanded', ns, queue, pending, targets, probed);
    ClosedGrows(sc, expanded, node.pos, ns, pending, pending');
    ProbedGrows(sc, expanded, node.pos, ns, probed, probed');
  }

  /** Dropping the head of the queue keeps the rest in order. */
  lemma Dequeue(sc: Setting, tree: seq<Node>, queue: seq<Node>, pending: seq<Pos>)
    requires |queue| > 0 && Mirrors(queue, pending)
    ensures Mirrors(queue[1..], pending[1..]) && pending == [queue[0].pos] + pending[1..]
    ensures QueueOk(sc, tree, queue) ==> QueueOk(sc, tree, queue[1..])
  {
  }

  /** Skipping an already expanded position loses no queued neighbour. */
  lemma SkipKeepsClosed(sc: Setting, expanded: seq<Pos>, x: Pos, pending: seq<Pos>)
    requires Closed(sc, expanded, [x] + pending) && x in expanded
    ensures Closed(sc, expanded, pending)
  {
    forall k, d | 0 <= k < |expanded| && Passable(sc, Step(expanded[k], d))
      ensures Step(expanded[k], d) in expanded || Step(expanded[k], d) in pending
    {
      assert Step(expanded[k], d) in expanded || Step(expanded[k], d) in [x] + pending;
    }
  }

  /**
   * `scan`: breadth-first from `start`. A dequeued node whose position was
   * already expanded is skipped; otherwise it is expanded with the `k`-th
   * draw of `dirs` ordering its neighbours, `k` counting expansions.
   */
  method Scan(g: Map, start: Pos, power: int, danger: seq<Pos>, blocked: seq<Pos>, filter: (Map, Pos) -> bool,
              dirs: nat -> DirDraw)
    returns (r: ScanResult)
    ensures Structured(r.tree) && r.tree[0] == Root(g, start)
    ensures forall k :: 1 <= k < |r.tree| ==>
      Annotated(g, power, r.tree[k]) && Traversable(g, start, danger, blocked, r.tree[k].pos)
    ensures |r.expanded| == |r.tree| && forall k :: 0 <= k < |r.tree| ==> r.expanded[k] == r.tree[k].pos
    ensures WellFormed(r) && Distinct(r.expanded)
    ensures Saturated(g, start, danger, blocked, r.expanded)
    ensures start !in danger ==> forall k :: 1 <= k < |r.tree| ==> r.tree[k].pos !in danger
    ensures start in danger ==> Saturated(g, start, [], blocked, r.expanded)
    ensures forall j :: 0 <= j < |r.targets| ==>
      Attached(r.tree, r.targets[j]) && Annotated(g, power, r.targets[j]) &&
      r.targets[j].pos !in blocked && filter(g, r.targets[j].pos) && r.targets[j].pos in r.probed
    ensures ProbesNeighbors(g, blocked, r.expanded, r.probed)
    ensures forall p :: p in r.probed && filter(g, p) ==> exists t :: t in r.targets && t.pos == p
  {
    var sc := Setting(g, start, power, danger, blocked, filter);
    ghost var U := AllPositions(g) + {start};
    var tree: seq<Node> := [];
    var expanded: seq<Pos> := [];
    var queue := [Root(g, start)];
    ghost var pending := [start];
    var targets: seq<Node> := [];
    var probed: seq<Pos> := [];
    while |queue| > 0
      invariant Indexed(tree, expanded) && Distinct(expanded)
      invariant |tree| == 0 ==> queue == [Root(g, start)] && targets == [] && probed == []
      invariant |tree| > 0 ==> TreeOk(sc, tree) && QueueOk(sc, tree, queue)
      invariant Mirrors(queue, pending) && Closed(sc, expanded, pending)
      invariant TargetsOk(sc, tree, targets, probed) && ProbedSound(sc, expanded, probed)
      invariant ProbedComplete(sc, expanded, probed) && FilterComplete(sc, targets, probed)
      invariant forall p :: p in expanded ==> p in U
      decreases Unexpanded(U, expanded), |queue|
    {
      var node := queue[0];
      assert |tree| > 0 ==> QueuedOk(sc, tree, queue[0]);
      assert node.pos in U;
      Dequeue(sc, tree, queue, pending);
      queue := queue[1..];
      pending := pending[1..];
      if node.pos !in expanded {
        ExpandingShrinks(U, expanded, node.pos);
        tree, expanded, queue, pending, targets, probed := Grow(sc, tree, expanded, node, dirs(|tree|), queue, pending, targets, probed);
      } else {
        SkipKeepsClosed(sc, expanded, node.pos, pending);
      }
    }
    r := ScanResult(tree, expanded, targets, probed);
  }

  /**
   * Breadth-first completeness: from an expanded cell, every walk whose
   * later cells are all traversable stays among the expanded cells.
   */
  lemma {:induction false} WalkStaysExpanded(g: Map, start: Pos, danger: seq<Pos>, blocked: seq<Pos>,
                                             expanded: seq<Pos>, p: Pos, ds: seq<Direction>)
    requires Saturated(g, start, danger, blocked, expanded) && p in expanded
    requires forall i :: 1 <= i < |Walk(p, ds)| ==> Traversable(g, start, danger, blocked, Walk(p, ds)[i])
    ensures forall i :: 0 <= i < |Walk(p, ds)| ==> Walk(p, ds)[i] in expanded
    decreases |ds|
  {
    if |ds| > 0 {
      var q := Step(p, ds[0]);
      var w := Walk(p, ds);
      assert w == [p] + Walk(q, ds[1..]);
      var k :| 0 <= k < |expanded| && expanded[k] == p;
      assert w[1] == q;
      assert q in expanded;
      assert forall i :: 1 <= i < |Walk(q, ds[1..])| ==> Walk(q, ds[1..])[i] == w[i + 1];
      WalkStaysExpanded(g, start, danger, blocked, expanded, q, ds[1..]);
    }
  }

  /**
   * `x` is reached from `start` by single steps whose every cell after the
   * start is traversable: the cells a breadth-first scan can expand.
   */
  ghost predicate Reachable(g: Map, start: Pos, danger: seq<Pos>, blocked: seq<Pos>, x: Pos)
  {
    exists ds: seq<Direction> :: Walk(start, ds)[|ds|] == x &&
      forall i :: 1 <= i <= |ds| ==> Traversable(g, start, danger, blocked, Walk(start, ds)[i])
  }

  /** A cell the scan offers to its filter: probeable and one step from a reachable cell. */
  ghost predicate Frontier(g: Map, start: Pos, danger: seq<Pos>, blocked: seq<Pos>, x: Pos)
  {
    Probeable(g, blocked, x) && exists v, d :: Reachable(g, start, danger, blocked, v) && Step(v, d) == x
  }

  /** The tree facts a scan guarantees: rooted at `start`, later nodes traversable, `expanded` its positions. */
  predicate Grown(g: Map, start: Pos, danger: seq<Pos>, blocked: seq<Pos>, tree: seq<Node>, expanded: seq<Pos>)
  {
    Structured(tree) && tree[0].pos == start && Indexed(tree, expanded) &&
    forall k :: 1 <= k < |tree| ==> Traversable(g, start, danger, blocked, tree[k].pos)
  }

  /** Every expanded cell is reachable: the traced path to its node is the witness walk. */
  lemma ExpandedReachable(g: Map, start: Pos, danger: seq<Pos>, blocked: seq<Pos>, tree: seq<Node>, expanded: seq<Pos>, k: nat)
    requires Grown(g, start, danger, blocked, tree, expanded) && k < |tree|
    ensures Reachable(g, start, danger, blocked, expanded[k])
  {
    if k == 0 {
      var ds: seq<Direction> := [];
      assert Walk(start, ds)[|ds|] == expanded[0];
    } else {
      var n := tree[k];
      assert Linked(tree, k);
      var path := TracePath(tree, n);
      var ds := path.directions;
      PathInteriorTraversable(g, start, danger, blocked, tree, n);
      assert Walk(start, ds) == path.positions;
      assert Walk(start, ds)[|ds|] == expanded[k];
      assert forall i :: 1 <= i <= |ds| ==> Traversable(g, start, danger, blocked, Walk(start, ds)[i]) by {
        forall i | 1 <= i <= |ds|
          ensures Traversable(g, start, danger, blocked, Walk(start, ds)[i])
        {
          if i == |ds| {
            assert Walk(start, ds)[i] == tree[k].pos;
          }
        }
      }
    }
  }

  /**
   * The expanded cells of a scan are exactly the reachable cells: sound by
   * the tree's parent links, complete by saturation.
   */
  lemma ExpandedIffReachable(g: Map, start: Pos, danger: seq<Pos>, blocked: seq<Pos>, tree: seq<Node>, expanded: seq<Pos>)
    requires Grown(g, start, danger, blocked, tree, expanded)
    requires Saturated(g, start, danger, blocked, expanded)
    ensures forall x :: x in expanded <==> Reachable(g, start, danger, blocked, x)
  {
    forall x
      ensures x in expanded <==> Reachable(g, start, danger, blocked, x)
    {
      if x in expanded {
        var k :| 0 <= k < |expanded| && expanded[k] == x;
        ExpandedReachable(g, start, danger, blocked, tree, expanded, k);
      }
      if Reachable(g, start, danger, blocked, x) {
        var ds: seq<Direction> :| Walk(start, ds)[|ds|] == x &&
          forall i :: 1 <= i <= |ds| ==> Traversable(g, start, danger, blocked, Walk(start, ds)[i]);
        assert expanded[0] == start;
        WalkStaysExpanded(g, start, danger, blocked, expanded, start, ds);
      }
    }
  }

  /** The cells a scan offered to its filter are exactly its frontier. */
  lemma ProbedIffFrontier(g: Map, start: Pos, danger: seq<Pos>, blocked: seq<Pos>,
                          tree: seq<Node>, expanded: seq<Pos>, probed: seq<Pos>)
    requires Grown(g, start, danger, blocked, tree, expanded)
    requires Saturated(g, start, danger, blocked, expanded)
    requires ProbesNeighbors(g, blocked, expanded, probed)
    ensures forall x :: x in probed <==> Frontier(g, start, danger, blocked, x)
  {
    ExpandedIffReachable(g, start, danger, blocked, tree, expanded);
    forall x
      ensures x in probed <==> Frontier(g, start, danger, blocked, x)
    {
      ProbedIff(g, blocked, expanded, probed, x);
      if Frontier(g, start, danger, blocked, x) {
        var v, d :| Reachable(g, start, danger, blocked, v) && Step(v, d) == x;
        var k :| 0 <= k < |expanded| && expanded[k] == v;
        assert Step(expanded[k], d) == x;
      }
      if x in probed {
        var k, d :| 0 <= k < |expanded| && Step(expanded[k], d) == x;
        assert expanded[k] in expanded;
      }
    }
  }

  /** A scan has targets exactly when some frontier cell passes its filter. */
  lemma TargetsIffFrontier(g: Map, start: Pos, danger: seq<Pos>, blocked: seq<Pos>, filter: (Map, Pos) -> bool,
                           r: ScanResult)
    requires Grown(g, start, danger, blocked, r.tree, r.expanded)
    requires Saturated(g, start, danger, blocked, r.expanded)
    requires ProbesNeighbors(g, blocked, r.expanded, r.probed)
    requires forall j :: 0 <= j < |r.targets| ==> r.targets[j].pos in r.probed && filter(g, r.targets[j].pos)
    requires forall p :: p in r.probed && filter(g, p) ==> exists t :: t in r.targets && t.pos == p
    ensures |r.targets| > 0 <==> exists x :: Frontier(g, start, danger, blocked, x) && filter(g, x)
  {
    ProbedIffFrontier(g, start, danger, blocked, r.tree, r.expanded, r.probed);
    if |r.targets| > 0 {
      var x := r.targets[0].pos;
      assert Frontier(g, start, danger, blocked, x) && filter(g, x);
    }
  }

  /**
   * `nextTarget`: nothing when there are no targets, otherwise the traced
   * path to the node the selector picks among them.
   */
  function NextTarget(r: ScanResult, sel: Selector): (p: Option<Path>)
    requires WellFormed(r)
    ensures p.None? <==> |r.targets| == 0
    ensures p.Some? ==> p.value.target in r.targets
    ensures p.Some? ==>
              && |p.value.positions| == |p.value.directions| + 1
              && p.value.positions[0] == r.tree[0].pos
              && p.value.positions[|p.value.positions| - 1] == p.value.target.pos
              && Walk(r.tree[0].pos, p.value.directions) == p.value.positions
  {
    if |r.targets| == 0 then None
    else
      var selected := Select(sel, r.targets).value;
      var j :| 0 <= j < |r.targets| && r.targets[j] == selected;
      Some(TracePath(r.tree, selected))
  }

  /**
   * A path into a scanned tree crosses only traversable cells between its
   * ends: no Balk, no BrickWall, nothing blocked and, from a safe start,
   * no danger.
   */
  lemma PathInteriorTraversable(g: Map, start: Pos, danger: seq<Pos>, blocked: seq<Pos>, tree: seq<Node>, t: Node)
    requires Structured(tree) && Attached(tree, t)
    requires forall k :: 1 <= k < |tree| ==> Traversable(g, start, danger, blocked, tree[k].pos)
    ensures forall j :: 1 <= j < |TracePath(tree, t).positions| - 1 ==>
      Traversable(g, start, danger, blocked, TracePath(tree, t).positions[j]) &&
      CellAt(g, TracePath(tree, t).positions[j]) !in {Balk, BrickWall}
    ensures start !in danger ==>
      forall j :: 1 <= j < |TracePath(tree, t).positions| - 1 ==> TracePath(tree, t).positions[j] !in danger
  {
    TraceThroughTree(tree, t);
  }
}
