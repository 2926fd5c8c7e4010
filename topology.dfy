/** The static network of topology.py: nodes with capacities and neighbour lists,
    the all-pairs distance table, and the workflows with their tasks.  Nodes,
    tasks and workflows are identified by their index in `nodes`, `tasks` and
    `workflows`. */
module Topology {
  import opened ResourceVectors

  type NodeId = nat
  type TaskId = nat
  type WorkflowId = nat

  /** Drones, edge servers and cloud servers differ only in their constants. */
  datatype NodeKind = Drone | EdgeServer | CloudServer

  /** A transmission range: drones have a finite radius, servers `math.inf`. */
  datatype Reach = Within(radius: real) | Unlimited

  predicate InReach(d: real, r: Reach) {
    r.Unlimited? || d <= r.radius
  }

  datatype Node = Node(kind: NodeKind, capacity: Resources, transRange: Reach, neighbors: seq<NodeId>)

  /** A task knows its workflow and its demand. */
  datatype Task = Task(workflow: WorkflowId, demand: Resources)

  /** A workflow is the ordered chain of its tasks; `n_task` is `|tasks|`. */
  datatype Workflow = Workflow(tasks: seq<TaskId>)

  /** `names` is the common key set of every capacity and demand vector. */
  datatype Topology = Topology(
    nodes: seq<Node>,
    distance: map<(NodeId, NodeId), real>,
    workflows: seq<Workflow>,
    tasks: seq<Task>,
    names: set<ResourceName>)

  predicate NoDup<T(==)>(s: seq<T>) {
    forall i, j | 0 <= i < j < |s| :: s[i] != s[j]
  }

  predicate NonNegative(r: Resources) {
    forall k | k in r :: r[k] >= 0
  }

  /** What the engine relies on: every id in range, all pairs measured, one key
      set for all resource vectors, no negative amount, every task listed by its
      own workflow, and no empty workflow (the allocator reads `tasks[0]`). */
  ghost predicate ValidTopology(topo: Topology) {
    && (forall n | 0 <= n < |topo.nodes| ::
          && topo.nodes[n].capacity.Keys == topo.names
          && NonNegative(topo.nodes[n].capacity)
          && (forall i | 0 <= i < |topo.nodes[n].neighbors| :: topo.nodes[n].neighbors[i] < |topo.nodes|))
    && (forall a, b | 0 <= a < |topo.nodes| && 0 <= b < |topo.nodes| :: (a, b) in topo.distance)
    && (forall t | 0 <= t < |topo.tasks| ::
          && topo.tasks[t].workflow < |topo.workflows|
          && topo.tasks[t].demand.Keys == topo.names
          && NonNegative(topo.tasks[t].demand)
          && t in topo.workflows[topo.tasks[t].workflow].tasks)
    && (forall w | 0 <= w < |topo.workflows| ::
          && |topo.workflows[w].tasks| >= 1
          && NoDup(topo.workflows[w].tasks)
          && (forall i | 0 <= i < |topo.workflows[w].tasks| ::
                topo.workflows[w].tasks[i] < |topo.tasks| && topo.tasks[topo.workflows[w].tasks[i]].workflow == w))
  }

  /** A task occurs in no workflow other than its own. */
  lemma TaskInOwnWorkflowOnly(topo: Topology, t: TaskId, w: WorkflowId)
    requires ValidTopology(topo)
    requires t < |topo.tasks| && w < |topo.workflows|
    ensures t in topo.workflows[w].tasks <==> topo.tasks[t].workflow == w
  {
    if t in topo.workflows[w].tasks {
      var i :| 0 <= i < |topo.workflows[w].tasks| && topo.workflows[w].tasks[i] == t;
    }
  }

  function GetDistance(topo: Topology, a: NodeId, b: NodeId): real
    requires (a, b) in topo.distance
  {
    topo.distance[(a, b)]
  }

  function Min(a: nat, b: nat): nat { if a <= b then a else b }
  function Max(a: nat, b: nat): nat { if a <= b then b else a }

  // ---------------------------------------------------------------------------
  // The distance table of `StaticTopology.__init__`
  // ---------------------------------------------------------------------------

  /** Whether the pair (x, y) has been visited when the row-major walk over all
      pairs stands at row i, column j. */
  predicate Visited(i: nat, j: nat, x: nat, y: nat) {
    x < i || (x == i && y < j)
  }

  /** The entry the walk has left for the pair (a, b) at row i, column j. */
  function Expected(i: nat, j: nat, a: nat, b: nat, d: (NodeId, NodeId) -> real): real {
    if Visited(i, j, Max(a, b), Min(a, b)) then d(Max(a, b), Min(a, b)) else d(Min(a, b), Max(a, b))
  }

  /** The table after the walk has reached row i, column j. */
  ghost predicate TableAt(dist: map<(NodeId, NodeId), real>, n: nat, d: (NodeId, NodeId) -> real, i: nat, j: nat) {
    && (forall p | p in dist :: p.0 < n && p.1 < n)
    && (forall a, b | 0 <= a < n && 0 <= b < n :: (a, b) in dist <==> Visited(i, j, Min(a, b), Max(a, b)))
    && (forall a, b | 0 <= a < n && 0 <= b < n && (a, b) in dist :: dist[(a, b)] == Expected(i, j, a, b, d))
  }

  lemma TableStep(dist: map<(NodeId, NodeId), real>, n: nat, d: (NodeId, NodeId) -> real, i: nat, j: nat)
    requires i < n && j < n && TableAt(dist, n, d, i, j)
    ensures TableAt(dist[(i, j) := d(i, j)][(j, i) := d(i, j)], n, d, i, j + 1)
  {
    var dist' := dist[(i, j) := d(i, j)][(j, i) := d(i, j)];
    forall a, b | 0 <= a < n && 0 <= b < n
      ensures (a, b) in dist' <==> Visited(i, j + 1, Min(a, b), Max(a, b))
      ensures (a, b) in dist' ==> dist'[(a, b)] == Expected(i, j + 1, a, b, d)
    {
      if (a, b) == (i, j) || (a, b) == (j, i) {
      } else {
        assert Visited(i, j + 1, Min(a, b), Max(a, b)) == Visited(i, j, Min(a, b), Max(a, b));
        assert Visited(i, j + 1, Max(a, b), Min(a, b)) == Visited(i, j, Max(a, b), Min(a, b));
      }
    }
  }

  lemma TableNextRow(dist: map<(NodeId, NodeId), real>, n: nat, d: (NodeId, NodeId) -> real, i: nat)
    requires TableAt(dist, n, d, i, n)
    ensures TableAt(dist, n, d, i + 1, 0)
  {
    forall a, b | 0 <= a < n && 0 <= b < n
      ensures Visited(i, n, Min(a, b), Max(a, b)) == Visited(i + 1, 0, Min(a, b), Max(a, b))
      ensures Expected(i, n, a, b, d) == Expected(i + 1, 0, a, b, d)
    {
    }
  }

  /** Fills the table the way the source does: every ordered pair (a, b) in
      row-major order writes `d(a, b)` under both (a, b) and (b, a).  The later
      write wins, so each entry ends up holding `d(max, min)`: the table is
      symmetric whatever `d` is.  `d` stands for the Euclidean distance of the
      two nodes' positions. */
  method BuildDistances(n: nat, d: (NodeId, NodeId) -> real) returns (dist: map<(NodeId, NodeId), real>)
    ensures forall a, b | 0 <= a < n && 0 <= b < n :: (a, b) in dist && dist[(a, b)] == d(Max(a, b), Min(a, b))
    ensures forall p | p in dist :: p.0 < n && p.1 < n
    ensures forall a, b | 0 <= a < n && 0 <= b < n :: dist[(a, b)] == dist[(b, a)]
  {
    dist := map[];
    for i := 0 to n
      invariant TableAt(dist, n, d, i, 0)
    {
      for j := 0 to n
        invariant TableAt(dist, n, d, i, j)
      {
        TableStep(dist, n, d, i, j);
        var v := d(i, j);
        dist := dist[(i, j) := v][(j, i) := v];
      }
      TableNextRow(dist, n, d, i);
    }
    forall a, b | 0 <= a < n && 0 <= b < n
      ensures (a, b) in dist && dist[(a, b)] == d(Max(a, b), Min(a, b))
    {
      assert Visited(n, 0, Min(a, b), Max(a, b));
      assert Expected(n, 0, a, b, d) == d(Max(a, b), Min(a, b));
    }
  }

  // ---------------------------------------------------------------------------
  // `_connect`: neighbour lists
  // ---------------------------------------------------------------------------

  /** Pairs (x, ys[0]), (x, ys[1]), ... */
  function Row(x: NodeId, ys: seq<NodeId>): (r: seq<(NodeId, NodeId)>)
    ensures |r| == |ys|
    ensures forall j | 0 <= j < |ys| :: r[j] == (x, ys[j])
  {
    seq(|ys|, j requires 0 <= j < |ys| => (x, ys[j]))
  }

  /** `itertools.product(xs, ys)`: every pair, row by row. */
  function Product(xs: seq<NodeId>, ys: seq<NodeId>): seq<(NodeId, NodeId)>
  {
    if xs == [] then [] else Product(xs[..|xs| - 1], ys) + Row(xs[|xs| - 1], ys)
  }

  /** The linking rule for one visited pair: never a node with itself, and under
      the distance constraint only if the distance is within both ranges. */
  predicate Linked(p: (NodeId, NodeId), constrained: bool, dist: map<(NodeId, NodeId), real>, ranges: seq<Reach>)
    requires p in dist && p.0 < |ranges| && p.1 < |ranges|
  {
    p.0 != p.1 && (!constrained || (InReach(dist[p], ranges[p.0]) && InReach(dist[p], ranges[p.1])))
  }

  predicate Measured(ps: seq<(NodeId, NodeId)>, dist: map<(NodeId, NodeId), real>, ranges: seq<Reach>) {
    forall i | 0 <= i < |ps| :: ps[i] in dist && ps[i].0 < |ranges| && ps[i].1 < |ranges|
  }

  /** What one visited pair appends to node x's list. */
  function StepAppend(p: (NodeId, NodeId), x: NodeId, constrained: bool,
                      dist: map<(NodeId, NodeId), real>, ranges: seq<Reach>): seq<NodeId>
    requires p in dist && p.0 < |ranges| && p.1 < |ranges|
  {
    if !Linked(p, constrained, dist, ranges) then []
    else (if p.0 == x then [p.1] else []) + (if p.1 == x then [p.0] else [])
  }

  /** Everything a walk over the pairs `ps` appends to node x's neighbour list. */
  function Appended(ps: seq<(NodeId, NodeId)>, x: NodeId, constrained: bool,
                    dist: map<(NodeId, NodeId), real>, ranges: seq<Reach>): seq<NodeId>
    requires Measured(ps, dist, ranges)
  {
    if ps == [] then []
    else
      Appended(ps[..|ps| - 1], x, constrained, dist, ranges) + StepAppend(ps[|ps| - 1], x, constrained, dist, ranges)
  }

  lemma AppendedSnoc(ps: seq<(NodeId, NodeId)>, p: (NodeId, NodeId), x: NodeId, constrained: bool,
                     dist: map<(NodeId, NodeId), real>, ranges: seq<Reach>)
    requires Measured(ps + [p], dist, ranges)
    requires p in dist && p.0 < |ranges| && p.1 < |ranges|
    ensures Measured(ps, dist, ranges)
    ensures Appended(ps + [p], x, constrained, dist, ranges)
         == Appended(ps, x, constrained, dist, ranges) + StepAppend(p, x, constrained, dist, ranges)
  {
    assert (ps + [p])[..|ps|] == ps;
  }

  lemma ProductSnoc(xs: seq<NodeId>, ys: seq<NodeId>, i: nat)
    requires i < |xs|
    ensures Product(xs[..i + 1], ys) == Product(xs[..i], ys) + Row(xs[i], ys)
  {
    assert xs[..i + 1][..i] == xs[..i];
  }

  lemma {:induction false} ProductMembers(xs: seq<NodeId>, ys: seq<NodeId>, p: (NodeId, NodeId))
    ensures p in Product(xs, ys) <==> p.0 in xs && p.1 in ys
  {
    if xs != [] {
      var init := xs[..|xs| - 1];
      ProductMembers(init, ys, p);
      assert xs == init + [xs[|xs| - 1]];
      if p in Row(xs[|xs| - 1], ys) {
        var j :| 0 <= j < |ys| && Row(xs[|xs| - 1], ys)[j] == p;
      }
      if p.0 == xs[|xs| - 1] && p.1 in ys {
        var j :| 0 <= j < |ys| && ys[j] == p.1;
        assert Row(xs[|xs| - 1], ys)[j] == p;
      }
    }
  }

  /** The body of the source's loop for one visited pair (node1, node2). */
  method ConnectPair(nbrs: array<seq<NodeId>>, node1: NodeId, node2: NodeId, constrained: bool,
                     dist: map<(NodeId, NodeId), real>, ranges: seq<Reach>)
    requires node1 < nbrs.Length && node2 < nbrs.Length && |ranges| == nbrs.Length
    requires (node1, node2) in dist
    modifies nbrs
    ensures forall x | 0 <= x < nbrs.Length ::
      nbrs[x] == old(nbrs[x]) + StepAppend((node1, node2), x, constrained, dist, ranges)
  {
    if node1 == node2 {
      return;
    }
    var d := dist[(node1, node2)];
    if !constrained || (InReach(d, ranges[node1]) && InReach(d, ranges[node2])) {
      nbrs[node1] := nbrs[node1] + [node2];
      nbrs[node2] := nbrs[node2] + [node1];
    }
  }

  /** The inner loop: node1 against every node of `nodes2`, in order. */
  method ConnectRow(nbrs: array<seq<NodeId>>, node1: NodeId, nodes2: seq<NodeId>, constrained: bool,
                    dist: map<(NodeId, NodeId), real>, ranges: seq<Reach>)
    requires node1 < nbrs.Length
    requires forall j | 0 <= j < |nodes2| :: nodes2[j] < nbrs.Length
    requires |ranges| == nbrs.Length
    requires forall a, b | 0 <= a < nbrs.Length && 0 <= b < nbrs.Length :: (a, b) in dist
    modifies nbrs
    ensures Measured(Row(node1, nodes2), dist, ranges)
    ensures forall x | 0 <= x < nbrs.Length ::
      nbrs[x] == old(nbrs[x]) + Appended(Row(node1, nodes2), x, constrained, dist, ranges)
  {
    for j := 0 to |nodes2|
      invariant Measured(Row(node1, nodes2[..j]), dist, ranges)
      invariant forall x | 0 <= x < nbrs.Length ::
        nbrs[x] == old(nbrs[x]) + Appended(Row(node1, nodes2[..j]), x, constrained, dist, ranges)
    {
      var node2 := nodes2[j];
      ghost var before := Row(node1, nodes2[..j]);
      assert Row(node1, nodes2[..j + 1]) == before + [(node1, node2)];
      forall x | 0 <= x < nbrs.Length
        ensures Appended(before + [(node1, node2)], x, constrained, dist, ranges)
             == Appended(before, x, constrained, dist, ranges) + StepAppend((node1, node2), x, constrained, dist, ranges)
      {
        AppendedSnoc(before, (node1, node2), x, constrained, dist, ranges);
      }
      ConnectPair(nbrs, node1, node2, constrained, dist, ranges);
    }
    assert nodes2[..|nodes2|] == nodes2;
  }

  lemma {:induction false} AppendedConcat(ps: seq<(NodeId, NodeId)>, qs: seq<(NodeId, NodeId)>, x: NodeId,
                                          constrained: bool, dist: map<(NodeId, NodeId), real>, ranges: seq<Reach>)
    requires Measured(ps, dist, ranges) && Measured(qs, dist, ranges)
    ensures Measured(ps + qs, dist, ranges)
    ensures Appended(ps + qs, x, constrained, dist, ranges)
         == Appended(ps, x, constrained, dist, ranges) + Appended(qs, x, constrained, dist, ranges)
    decreases |qs|
  {
    if qs == [] {
      assert ps + qs == ps;
    } else {
      var init := qs[..|qs| - 1];
      AppendedConcat(ps, init, x, constrained, dist, ranges);
      assert (ps + qs)[..|ps + qs| - 1] == ps + init;
      assert (ps + qs)[|ps + qs| - 1] == qs[|qs| - 1];
    }
  }

  /** `_connect(nodes1, nodes2, dist_constrained)`: appends the neighbour lists
      for every pair of `nodes1` x `nodes2` in product order; `nbrs[x]` is node
      x's `neighbors` list. */
  method Connect(nbrs: array<seq<NodeId>>, nodes1: seq<NodeId>, nodes2: seq<NodeId>, constrained: bool,
                 dist: map<(NodeId, NodeId), real>, ranges: seq<Reach>)
    requires forall i | 0 <= i < |nodes1| :: nodes1[i] < nbrs.Length
    requires forall j | 0 <= j < |nodes2| :: nodes2[j] < nbrs.Length
    requires |ranges| == nbrs.Length
    requires forall a, b | 0 <= a < nbrs.Length && 0 <= b < nbrs.Length :: (a, b) in dist
    modifies nbrs
    ensures Measured(Product(nodes1, nodes2), dist, ranges)
    ensures forall x | 0 <= x < nbrs.Length ::
      nbrs[x] == old(nbrs[x]) + Appended(Product(nodes1, nodes2), x, constrained, dist, ranges)
  {
    for i := 0 to |nodes1|
      invariant Measured(Product(nodes1[..i], nodes2), dist, ranges)
      invariant forall x | 0 <= x < nbrs.Length ::
        nbrs[x] == old(nbrs[x]) + Appended(Product(nodes1[..i], nodes2), x, constrained, dist, ranges)
    {
      ProductSnoc(nodes1, nodes2, i);
      ghost var done := Product(nodes1[..i], nodes2);
      ConnectRow(nbrs, nodes1[i], nodes2, constrained, dist, ranges);
      forall x | 0 <= x < nbrs.Length
        ensures Appended(done + Row(nodes1[i], nodes2), x, constrained, dist, ranges)
             == Appended(done, x, constrained, dist, ranges) + Appended(Row(nodes1[i], nodes2), x, constrained, dist, ranges)
      {
        AppendedConcat(done, Row(nodes1[i], nodes2), x, constrained, dist, ranges);
      }
      AppendedConcat(done, Row(nodes1[i], nodes2), 0, constrained, dist, ranges);
    }
    assert nodes1[..|nodes1|] == nodes1;
  }

  /** No node is ever its own neighbour. */
  lemma {:induction false} AppendedNoSelf(ps: seq<(NodeId, NodeId)>, x: NodeId, constrained: bool,
                                          dist: map<(NodeId, NodeId), real>, ranges: seq<Reach>)
    requires Measured(ps, dist, ranges)
    ensures x !in Appended(ps, x, constrained, dist, ranges)
  {
    if ps != [] {
      AppendedNoSelf(ps[..|ps| - 1], x, constrained, dist, ranges);
    }
  }

  /** Links are made in both directions: y is listed under x exactly when x is
      listed under y. */
  lemma {:induction false} AppendedSymmetric(ps: seq<(NodeId, NodeId)>, x: NodeId, y: NodeId, constrained: bool,
                                             dist: map<(NodeId, NodeId), real>, ranges: seq<Reach>)
    requires Measured(ps, dist, ranges)
    ensures y in Appended(ps, x, constrained, dist, ranges) <==> x in Appended(ps, y, constrained, dist, ranges)
  {
    if ps != [] {
      AppendedSymmetric(ps[..|ps| - 1], x, y, constrained, dist, ranges);
    }
  }

  /** Every listed neighbour comes from a linked pair of the walk, in one order or the other. */
  lemma {:induction false} AppendedFromLinkedPair(ps: seq<(NodeId, NodeId)>, x: NodeId, y: NodeId, constrained: bool,
                                                  dist: map<(NodeId, NodeId), real>, ranges: seq<Reach>)
    requires Measured(ps, dist, ranges)
    requires y in Appended(ps, x, constrained, dist, ranges)
    ensures || ((x, y) in ps && Linked((x, y), constrained, dist, ranges))
            || ((y, x) in ps && Linked((y, x), constrained, dist, ranges))
  {
    var init := ps[..|ps| - 1];
    if y in Appended(init, x, constrained, dist, ranges) {
      AppendedFromLinkedPair(init, x, y, constrained, dist, ranges);
      assert forall p | p in init :: p in ps;
    } else {
      assert ps[|ps| - 1] in ps;
    }
  }

  /** Under the distance constraint a link means the distance is within both
      nodes' transmission ranges (the table being symmetric). */
  lemma ConstrainedLinkInRange(ps: seq<(NodeId, NodeId)>, x: NodeId, y: NodeId,
                               dist: map<(NodeId, NodeId), real>, ranges: seq<Reach>)
    requires Measured(ps, dist, ranges)
    requires (x, y) in dist && (y, x) in dist && dist[(x, y)] == dist[(y, x)]
    requires x < |ranges| && y < |ranges|
    requires y in Appended(ps, x, true, dist, ranges)
    ensures x != y && InReach(dist[(x, y)], ranges[x]) && InReach(dist[(x, y)], ranges[y])
  {
    AppendedFromLinkedPair(ps, x, y, true, dist, ranges);
  }

  /** Without the constraint every pair of distinct nodes drawn from the two
      lists is linked. */
  lemma {:induction false} UnconstrainedLinksAll(ps: seq<(NodeId, NodeId)>, x: NodeId, y: NodeId,
                                                 dist: map<(NodeId, NodeId), real>, ranges: seq<Reach>)
    requires Measured(ps, dist, ranges)
    requires (x, y) in ps && x != y
    ensures y in Appended(ps, x, false, dist, ranges) && x in Appended(ps, y, false, dist, ranges)
  {
    var init := ps[..|ps| - 1];
    if (x, y) in init {
      UnconstrainedLinksAll(init, x, y, dist, ranges);
    } else {
      assert ps == init + [ps[|ps| - 1]];
      assert ps[|ps| - 1] == (x, y);
    }
  }

  /** Occurrences of y in what the walk appends to x: one per linked visit of
      (x, y) and one per linked visit of (y, x). */
  lemma {:induction false} AppendedCount(ps: seq<(NodeId, NodeId)>, x: NodeId, y: NodeId, constrained: bool,
                                         dist: map<(NodeId, NodeId), real>, ranges: seq<Reach>)
    requires Measured(ps, dist, ranges)
    requires x != y && (x, y) in dist && (y, x) in dist && x < |ranges| && y < |ranges|
    ensures multiset(Appended(ps, x, constrained, dist, ranges))[y]
         == (if Linked((x, y), constrained, dist, ranges) then multiset(ps)[(x, y)] else 0)
          + (if Linked((y, x), constrained, dist, ranges) then multiset(ps)[(y, x)] else 0)
  {
    if ps != [] {
      var init := ps[..|ps| - 1];
      var last := ps[|ps| - 1];
      assert ps == init + [last];
      AppendedSnoc(init, last, x, constrained, dist, ranges);
      AppendedCount(init, x, y, constrained, dist, ranges);
      StepCount(last, x, y, constrained, dist, ranges);
      CountConcat(Appended(init, x, constrained, dist, ranges), StepAppend(last, x, constrained, dist, ranges), y);
      CountSnoc(init, last, (x, y));
      CountSnoc(init, last, (y, x));
    }
  }

  lemma CountSnoc<T>(s: seq<T>, v: T, p: T)
    ensures multiset(s + [v])[p] == multiset(s)[p] + (if v == p then 1 else 0)
  {
  }

  lemma CountConcat<T>(a: seq<T>, b: seq<T>, y: T)
    ensures multiset(a + b)[y] == multiset(a)[y] + multiset(b)[y]
  {
  }

  lemma StepCount(p: (NodeId, NodeId), x: NodeId, y: NodeId, constrained: bool,
                  dist: map<(NodeId, NodeId), real>, ranges: seq<Reach>)
    requires p in dist && p.0 < |ranges| && p.1 < |ranges|
    requires x != y && (x, y) in dist && (y, x) in dist && x < |ranges| && y < |ranges|
    ensures multiset(StepAppend(p, x, constrained, dist, ranges))[y]
         == (if p == (x, y) && Linked((x, y), constrained, dist, ranges) then 1 else 0)
          + (if p == (y, x) && Linked((y, x), constrained, dist, ranges) then 1 else 0)
  {
  }

  lemma {:induction false} ProductCount(xs: seq<NodeId>, ys: seq<NodeId>, a: NodeId, b: NodeId)
    ensures multiset(Product(xs, ys))[(a, b)] == multiset(xs)[a] * multiset(ys)[b]
  {
    if xs != [] {
      var init := xs[..|xs| - 1];
      var last := xs[|xs| - 1];
      ProductCount(init, ys, a, b);
      RowCount(last, ys, a, b);
      assert xs == init + [last];
      var mx: multiset<NodeId>, mi: multiset<NodeId>, my: multiset<NodeId> := multiset(xs), multiset(init), multiset(ys);
      assert mx == mi + multiset{last};
      var pp: multiset<(NodeId, NodeId)> := multiset(Product(xs, ys));
      assert pp == multiset(Product(init, ys)) + multiset(Row(last, ys));
      if last == a {
        assert mx[a] == mi[a] + 1;
        MulSucc(mi[a], my[b]);
      } else {
        assert mx[a] == mi[a];
      }
    }
  }

  lemma MulSucc(p: nat, k: nat)
    ensures (p + 1) * k == p * k + k
  {
  }

  lemma {:induction false} RowCount(x: NodeId, ys: seq<NodeId>, a: NodeId, b: NodeId)
    ensures multiset(Row(x, ys))[(a, b)] == if a == x then multiset(ys)[b] else 0
  {
    if ys != [] {
      var init := ys[..|ys| - 1];
      RowCount(x, init, a, b);
      assert ys == init + [ys[|ys| - 1]];
      assert Row(x, ys) == Row(x, init) + [(x, ys[|ys| - 1])];
    }
  }

  lemma NoDupCount<T>(s: seq<T>, v: T)
    requires NoDup(s) && v in s
    ensures multiset(s)[v] == 1
  {
    var i :| 0 <= i < |s| && s[i] == v;
    assert s == s[..i] + [v] + s[i + 1..];
    assert v !in s[..i] && v !in s[i + 1..] by {
      forall j | 0 <= j < |s| && j != i ensures s[j] != v {
        if j < i { assert s[j] != s[i]; } else { assert s[i] != s[j]; }
      }
    }
  }

  /** `_connect(drones, drones, dist_constrained=True)` walks both (x, y) and
      (y, x), so two drones within range of each other list each other twice. */
  lemma DroneLinksListedTwice(drones: seq<NodeId>, x: NodeId, y: NodeId,
                              dist: map<(NodeId, NodeId), real>, ranges: seq<Reach>)
    requires NoDup(drones) && x in drones && y in drones && x != y
    requires Measured(Product(drones, drones), dist, ranges)
    requires (x, y) in dist && (y, x) in dist && dist[(x, y)] == dist[(y, x)]
    requires x < |ranges| && y < |ranges|
    requires InReach(dist[(x, y)], ranges[x]) && InReach(dist[(x, y)], ranges[y])
    ensures multiset(Appended(Product(drones, drones), x, true, dist, ranges))[y] == 2
    ensures multiset(Appended(Product(drones, drones), y, true, dist, ranges))[x] == 2
  {
    AppendedCount(Product(drones, drones), x, y, true, dist, ranges);
    AppendedCount(Product(drones, drones), y, x, true, dist, ranges);
    ProductCount(drones, drones, x, y);
    ProductCount(drones, drones, y, x);
    NoDupCount(drones, x);
    NoDupCount(drones, y);
  }

  /** Links are symmetric: b is a's neighbour exactly when a is b's. */
  ghost predicate SymmetricLinks(topo: Topology) {
    forall a, b | 0 <= a < |topo.nodes| && 0 <= b < |topo.nodes| ::
      b in topo.nodes[a].neighbors <==> a in topo.nodes[b].neighbors
  }

  /** The transmission range of every node, by index. */
  function Ranges(topo: Topology): (r: seq<Reach>)
    ensures |r| == |topo.nodes|
    ensures forall n | 0 <= n < |topo.nodes| :: r[n] == topo.nodes[n].transRange
  {
    seq(|topo.nodes|, n requires 0 <= n < |topo.nodes| => topo.nodes[n].transRange)
  }

  /** What the three `_connect` calls of `__init__` append to node x's list, in
      their order: drones with drones under the distance constraint, drones
      with edge servers, edge servers with cloud servers. */
  ghost function Neighbourhood(x: NodeId, drones: seq<NodeId>, edges: seq<NodeId>, clouds: seq<NodeId>,
                               dist: map<(NodeId, NodeId), real>, ranges: seq<Reach>): seq<NodeId>
    requires Measured(Product(drones, drones), dist, ranges)
    requires Measured(Product(drones, edges), dist, ranges)
    requires Measured(Product(edges, clouds), dist, ranges)
  {
    Appended(Product(drones, drones), x, true, dist, ranges)
      + Appended(Product(drones, edges), x, false, dist, ranges)
      + Appended(Product(edges, clouds), x, false, dist, ranges)
  }

  /** The linking part of `StaticTopology.__init__`: every neighbour list
      starts empty and the three `_connect` calls fill them in. */
  method ConnectAll(nbrs: array<seq<NodeId>>, drones: seq<NodeId>, edges: seq<NodeId>, clouds: seq<NodeId>,
                    dist: map<(NodeId, NodeId), real>, ranges: seq<Reach>)
    requires forall i | 0 <= i < |drones| :: drones[i] < nbrs.Length
    requires forall i | 0 <= i < |edges| :: edges[i] < nbrs.Length
    requires forall i | 0 <= i < |clouds| :: clouds[i] < nbrs.Length
    requires |ranges| == nbrs.Length
    requires forall a, b | 0 <= a < nbrs.Length && 0 <= b < nbrs.Length :: (a, b) in dist
    requires forall x | 0 <= x < nbrs.Length :: nbrs[x] == []
    modifies nbrs
    ensures Measured(Product(drones, drones), dist, ranges)
    ensures Measured(Product(drones, edges), dist, ranges)
    ensures Measured(Product(edges, clouds), dist, ranges)
    ensures forall x | 0 <= x < nbrs.Length :: nbrs[x] == Neighbourhood(x, drones, edges, clouds, dist, ranges)
  {
    Connect(nbrs, drones, drones, true, dist, ranges);
    Connect(nbrs, drones, edges, false, dist, ranges);
    Connect(nbrs, edges, clouds, false, dist, ranges);
  }

  /** The topology's nodes are the drones, then the edge servers, then the
      cloud servers (`all_nodes`), and every neighbour list is what the three
      `_connect` calls of `__init__` build over the topology's own distance
      table and ranges. */
  ghost predicate BuiltLinks(topo: Topology, drones: seq<NodeId>, edges: seq<NodeId>, clouds: seq<NodeId>) {
    && drones + edges + clouds == Iota(|topo.nodes|)
    && Measured(Product(drones, drones), topo.distance, Ranges(topo))
    && Measured(Product(drones, edges), topo.distance, Ranges(topo))
    && Measured(Product(edges, clouds), topo.distance, Ranges(topo))
    && forall x | 0 <= x < |topo.nodes| ::
         topo.nodes[x].neighbors == Neighbourhood(x, drones, edges, clouds, topo.distance, Ranges(topo))
  }

  /** A neighbour from one `_connect` walk is a node named by that walk. */
  lemma AppendedInRange(ps: seq<(NodeId, NodeId)>, x: NodeId, y: NodeId, constrained: bool,
                        dist: map<(NodeId, NodeId), real>, ranges: seq<Reach>)
    requires Measured(ps, dist, ranges) && y in Appended(ps, x, constrained, dist, ranges)
    ensures y < |ranges|
  {
    AppendedFromLinkedPair(ps, x, y, constrained, dist, ranges);
    var p := if (x, y) in ps then (x, y) else (y, x);
    var i :| 0 <= i < |ps| && ps[i] == p;
  }

  /** The three walks together: y is listed under x exactly when x is listed
      under y, x is never listed under itself, and every listed node has a range. */
  lemma NeighbourhoodSymmetric(x: NodeId, y: NodeId, drones: seq<NodeId>, edges: seq<NodeId>, clouds: seq<NodeId>,
                               dist: map<(NodeId, NodeId), real>, ranges: seq<Reach>)
    requires Measured(Product(drones, drones), dist, ranges)
    requires Measured(Product(drones, edges), dist, ranges)
    requires Measured(Product(edges, clouds), dist, ranges)
    ensures y in Neighbourhood(x, drones, edges, clouds, dist, ranges)
        <==> x in Neighbourhood(y, drones, edges, clouds, dist, ranges)
    ensures x !in Neighbourhood(x, drones, edges, clouds, dist, ranges)
    ensures y in Neighbourhood(x, drones, edges, clouds, dist, ranges) ==> y < |ranges|
  {
    var dd, de, ec := Product(drones, drones), Product(drones, edges), Product(edges, clouds);
    AppendedSymmetric(dd, x, y, true, dist, ranges);
    AppendedSymmetric(de, x, y, false, dist, ranges);
    AppendedSymmetric(ec, x, y, false, dist, ranges);
    AppendedNoSelf(dd, x, true, dist, ranges);
    AppendedNoSelf(de, x, false, dist, ranges);
    AppendedNoSelf(ec, x, false, dist, ranges);
    if y in Appended(dd, x, true, dist, ranges) {
      AppendedInRange(dd, x, y, true, dist, ranges);
    } else if y in Appended(de, x, false, dist, ranges) {
      AppendedInRange(de, x, y, false, dist, ranges);
    } else if y in Appended(ec, x, false, dist, ranges) {
      AppendedInRange(ec, x, y, false, dist, ranges);
    }
  }

  /** The links `__init__` builds are symmetric, never join a node with
      itself, and only name nodes of the topology. */
  lemma BuiltLinksSymmetric(topo: Topology, drones: seq<NodeId>, edges: seq<NodeId>, clouds: seq<NodeId>)
    requires BuiltLinks(topo, drones, edges, clouds)
    ensures SymmetricLinks(topo)
    ensures forall x | 0 <= x < |topo.nodes| :: x !in topo.nodes[x].neighbors
    ensures forall x, y | 0 <= x < |topo.nodes| && y in topo.nodes[x].neighbors :: y < |topo.nodes|
  {
    forall x: NodeId, y: NodeId | x < |topo.nodes|
      ensures y < |topo.nodes| ==> (y in topo.nodes[x].neighbors <==> x in topo.nodes[y].neighbors)
      ensures x !in topo.nodes[x].neighbors
    {
      NeighbourhoodSymmetric(x, y, drones, edges, clouds, topo.distance, Ranges(topo));
    }
    forall x, y | 0 <= x < |topo.nodes| && y in topo.nodes[x].neighbors
      ensures y < |topo.nodes|
    {
      NeighbourhoodSymmetric(x, y, drones, edges, clouds, topo.distance, Ranges(topo));
    }
  }

  // ---------------------------------------------------------------------------
  // Workflows and tasks
  // ---------------------------------------------------------------------------

  /** `all_tasks`: the tasks of every workflow, workflow by workflow, in order. */
  function AllTasks(wfs: seq<Workflow>): seq<TaskId> {
    if wfs == [] then [] else AllTasks(wfs[..|wfs| - 1]) + wfs[|wfs| - 1].tasks
  }

  function Iota(n: nat): (s: seq<nat>)
    ensures |s| == n && forall i | 0 <= i < n :: s[i] == i
  {
    seq(n, i requires 0 <= i < n => i)
  }

  /** `WorkFlow.__init__`: creates one task per drawn demand vector, numbering
      them after the tasks created so far (the source's `Task.id_base` counter). */
  method NewWorkflow(w: WorkflowId, ds: seq<Resources>, tasks: seq<Task>) returns (ids: seq<TaskId>, tasks': seq<Task>)
    ensures |tasks'| == |tasks| + |ds| && tasks'[..|tasks|] == tasks
    ensures forall i | 0 <= i < |ds| :: tasks'[|tasks| + i] == Task(w, ds[i])
    ensures |ids| == |ds| && forall i | 0 <= i < |ds| :: ids[i] == |tasks| + i
  {
    ids, tasks' := [], tasks;
    for k := 0 to |ds|
      invariant |tasks'| == |tasks| + k && tasks'[..|tasks|] == tasks
      invariant forall i | 0 <= i < k :: tasks'[|tasks| + i] == Task(w, ds[i])
      invariant |ids| == k && forall i | 0 <= i < k :: ids[i] == |tasks| + i
    {
      tasks' := tasks' + [Task(w, ds[k])];
      ids := ids + [|tasks'| - 1];
    }
  }

  // The workflows built so far, one property each: tasks numbered in creation
  // order, one task per demand vector, each task labelled with its workflow and
  // demand, no task listed twice, and every task listed by its workflow.

  ghost predicate Numbered(wfs: seq<Workflow>, tasks: seq<Task>) {
    AllTasks(wfs) == Iota(|tasks|)
  }

  ghost predicate Sized(wfs: seq<Workflow>, demands: seq<seq<Resources>>) {
    |wfs| <= |demands| && forall v | 0 <= v < |wfs| :: |wfs[v].tasks| == |demands[v]|
  }

  ghost predicate Labelled(wfs: seq<Workflow>, tasks: seq<Task>, demands: seq<seq<Resources>>) {
    Sized(wfs, demands) &&
    forall v, k | 0 <= v < |wfs| && 0 <= k < |wfs[v].tasks| ::
      wfs[v].tasks[k] < |tasks| && tasks[wfs[v].tasks[k]] == Task(v, demands[v][k])
  }

  ghost predicate Distinct(wfs: seq<Workflow>) {
    forall v | 0 <= v < |wfs| :: NoDup(wfs[v].tasks)
  }

  ghost predicate Listed(wfs: seq<Workflow>, tasks: seq<Task>) {
    forall t | 0 <= t < |tasks| :: tasks[t].workflow < |wfs| && t in wfs[tasks[t].workflow].tasks
  }

  /** `ids` and the tail of `tasks'` are what `NewWorkflow` creates after `tasks`. */
  ghost predicate Extends(tasks: seq<Task>, tasks': seq<Task>, ids: seq<TaskId>, w: WorkflowId, ds: seq<Resources>) {
    && |tasks'| == |tasks| + |ds| && tasks'[..|tasks|] == tasks
    && (forall i | 0 <= i < |ds| :: tasks'[|tasks| + i] == Task(w, ds[i]))
    && |ids| == |ds| && (forall i | 0 <= i < |ds| :: ids[i] == |tasks| + i)
  }

  lemma NumberedStep(wfs: seq<Workflow>, tasks: seq<Task>, tasks': seq<Task>, ids: seq<TaskId>, w: WorkflowId, ds: seq<Resources>)
    requires Numbered(wfs, tasks) && Extends(tasks, tasks', ids, w, ds)
    ensures Numbered(wfs + [Workflow(ids)], tasks')
  {
    assert (wfs + [Workflow(ids)])[..|wfs|] == wfs;
    assert Iota(|tasks|) + ids == Iota(|tasks'|);
  }

  lemma LabelledStep(wfs: seq<Workflow>, tasks: seq<Task>, tasks': seq<Task>, ids: seq<TaskId>, demands: seq<seq<Resources>>)
    requires Labelled(wfs, tasks, demands) && |wfs| < |demands|
    requires Extends(tasks, tasks', ids, |wfs|, demands[|wfs|])
    ensures Labelled(wfs + [Workflow(ids)], tasks', demands)
  {
    var wfs' := wfs + [Workflow(ids)];
    forall v, k | 0 <= v < |wfs| && 0 <= k < |wfs[v].tasks|
      ensures wfs'[v].tasks[k] < |tasks'| && tasks'[wfs'[v].tasks[k]] == Task(v, demands[v][k])
    {
      assert tasks'[wfs[v].tasks[k]] == tasks[wfs[v].tasks[k]];
    }
  }

  lemma DistinctStep(wfs: seq<Workflow>, tasks: seq<Task>, tasks': seq<Task>, ids: seq<TaskId>, w: WorkflowId, ds: seq<Resources>)
    requires Distinct(wfs) && Extends(tasks, tasks', ids, w, ds)
    ensures Distinct(wfs + [Workflow(ids)])
  {
  }

  lemma ListedStep(wfs: seq<Workflow>, tasks: seq<Task>, tasks': seq<Task>, ids: seq<TaskId>, ds: seq<Resources>)
    requires Listed(wfs, tasks) && Extends(tasks, tasks', ids, |wfs|, ds)
    ensures Listed(wfs + [Workflow(ids)], tasks')
  {
    var wfs' := wfs + [Workflow(ids)];
    forall t | 0 <= t < |tasks'| ensures tasks'[t].workflow < |wfs'| && t in wfs'[tasks'[t].workflow].tasks {
      if t < |tasks| {
        assert tasks'[t] == tasks[t];
      } else {
        assert tasks'[|tasks| + (t - |tasks|)] == Task(|wfs|, ds[t - |tasks|]);
        assert ids[t - |tasks|] == t;
      }
    }
  }

  /** Creates the workflows and their tasks in order.  `demands[w]` holds the
      demand vectors drawn for workflow w; how many there are is the drawn
      `n_task`. */
  method BuildWorkflows(demands: seq<seq<Resources>>) returns (wfs: seq<Workflow>, tasks: seq<Task>)
    ensures |wfs| == |demands|
    ensures AllTasks(wfs) == Iota(|tasks|)
    ensures forall w | 0 <= w < |wfs| :: |wfs[w].tasks| == |demands[w]|
    ensures forall w, k | 0 <= w < |wfs| && 0 <= k < |wfs[w].tasks| ::
      wfs[w].tasks[k] < |tasks| && tasks[wfs[w].tasks[k]] == Task(w, demands[w][k])
    ensures forall w | 0 <= w < |wfs| :: NoDup(wfs[w].tasks)
    ensures forall t | 0 <= t < |tasks| :: tasks[t].workflow < |wfs| && t in wfs[tasks[t].workflow].tasks
  {
    wfs, tasks := [], [];
    for w := 0 to |demands|
      invariant |wfs| == w
      invariant Numbered(wfs, tasks) && Labelled(wfs, tasks, demands) && Distinct(wfs) && Listed(wfs, tasks)
    {
      var ids, tasks' := NewWorkflow(w, demands[w], tasks);
      NumberedStep(wfs, tasks, tasks', ids, w, demands[w]);
      LabelledStep(wfs, tasks, tasks', ids, demands);
      DistinctStep(wfs, tasks, tasks', ids, w, demands[w]);
      ListedStep(wfs, tasks, tasks', ids, demands[w]);
      wfs, tasks := wfs + [Workflow(ids)], tasks';
    }
  }
}
