/** `GreedyAllocator` and `RandomAllocator` (allocator.py): depth-first search
    that maps a workflow's tasks one by one onto a chain of neighbouring nodes,
    undoing a task's mapping when no neighbour lets the rest of the chain fit.
    The two allocators differ only in the order they try nodes in: the random one
    shuffles the start nodes and every neighbour list first.  The search is
    stated once as functions on `Mapping.State`; the class `Allocator` runs it
    on a `Solution` and is proved to compute exactly those functions. */
module Allocation {
  import opened Options
  import opened Topology
  import opened Mapping
  import opened Solutions

  /** `random.shuffle` as a function of the number of shuffles drawn so far:
      whatever it returns is a rearrangement of its argument. */
  type Shuffler = f: (nat, seq<NodeId>) -> seq<NodeId> | forall k: nat, xs: seq<NodeId> :: multiset(f(k, xs)) == multiset(xs)
    witness (k: nat, xs: seq<NodeId>) => xs

  /** Which allocator: the greedy one tries nodes in list order, the random one
      shuffles each list before trying it. */
  datatype Config = Config(randomized: bool, shuffle: Shuffler)

  /** The result of a search step: its success flag, the state it leaves and
      the number of shuffles drawn once it is over. */
  datatype Outcome = Outcome(ok: bool, s: State, draws: nat)

  /** The state and shuffle count after `allocate_workflows`. */
  datatype Run = Run(s: State, draws: nat)

  /** The order in which a list of nodes is tried. */
  function Arrange(cfg: Config, draws: nat, xs: seq<NodeId>): (r: seq<NodeId>)
    ensures multiset(r) == multiset(xs)
  {
    if cfg.randomized then cfg.shuffle(draws, xs) else xs
  }

  /** The shuffle count after arranging one list. */
  function NextDraw(cfg: Config, draws: nat): nat {
    if cfg.randomized then draws + 1 else draws
  }

  predicate InRange(topo: Topology, ns: seq<NodeId>) {
    forall i | 0 <= i < |ns| :: ns[i] < |topo.nodes|
  }

  /** A rearranged list of existing nodes holds existing nodes only. */
  lemma ArrangeInRange(topo: Topology, cfg: Config, draws: nat, xs: seq<NodeId>)
    requires InRange(topo, xs)
    ensures InRange(topo, Arrange(cfg, draws, xs))
  {
    var r := Arrange(cfg, draws, xs);
    forall i | 0 <= i < |r| ensures r[i] < |topo.nodes| {
      assert r[i] in multiset(r);
      assert r[i] in xs;
    }
  }

  /** The arguments of `_alloc_wf_tasks(tasks, prev_node, cur_node)` exist. */
  predicate Call(topo: Topology, tasks: seq<TaskId>, prev: Option<NodeId>, cur: NodeId) {
    && |tasks| >= 1
    && (forall i | 0 <= i < |tasks| :: tasks[i] < |topo.tasks|)
    && cur < |topo.nodes|
    && (prev.Some? ==> prev.value < |topo.nodes|)
  }

  // ---------------------------------------------------------------------------
  // The search as functions
  // ---------------------------------------------------------------------------

  /** `_alloc_wf_tasks(tasks, prev, cur)`: maps `tasks[0]` onto `cur`; then,
      unless it was the last task, tries the neighbours of `cur` for the rest
      and unmaps `tasks[0]` again when none of them works. */
  function AllocWf(topo: Topology, cfg: Config, s: State, draws: nat,
                   tasks: seq<TaskId>, prev: Option<NodeId>, cur: NodeId): (o: Outcome)
    requires ValidTopology(topo) && Shaped(topo, s) && Call(topo, tasks, prev, cur)
    ensures Shaped(topo, o.s)
    decreases |tasks|, 1, 0
  {
    var st := MapStep(topo, s, prev, tasks[0], cur);
    if !st.ok then Outcome(false, s, draws)
    else if |tasks| == 1 then Outcome(true, st.s, draws)
    else
      var order := Arrange(cfg, draws, topo.nodes[cur].neighbors);
      ArrangeInRange(topo, cfg, draws, topo.nodes[cur].neighbors);
      var r := TryNext(topo, cfg, st.s, NextDraw(cfg, draws), tasks, cur, order, 0);
      if r.ok then r else Outcome(false, UnmapStep(topo, r.s, tasks[0]).s, r.draws)
  }

  /** The loop over `order[i..]` in `_alloc_wf_tasks`: the first neighbour that is
      mappable for `tasks[1]` and from which the rest of the tasks fit. */
  function TryNext(topo: Topology, cfg: Config, s: State, draws: nat,
                   tasks: seq<TaskId>, cur: NodeId, order: seq<NodeId>, i: nat): (o: Outcome)
    requires ValidTopology(topo) && Shaped(topo, s) && Call(topo, tasks, None, cur) && |tasks| >= 2
    requires InRange(topo, order) && i <= |order|
    ensures Shaped(topo, o.s)
    decreases |tasks|, 0, |order| - i
  {
    if i == |order| then Outcome(false, s, draws)
    else if Admissible(topo, s, Some(cur), tasks[1], order[i]) then
      var r := AllocWf(topo, cfg, s, draws, tasks[1..], Some(cur), order[i]);
      if r.ok then r else TryNext(topo, cfg, r.s, r.draws, tasks, cur, order, i + 1)
    else TryNext(topo, cfg, s, draws, tasks, cur, order, i + 1)
  }

  /** The loop over start nodes in `allocate_workflows` for workflow w: the
      first start node from which the whole workflow fits. */
  function StartLoop(topo: Topology, cfg: Config, s: State, draws: nat,
                     w: WorkflowId, order: seq<NodeId>, i: nat): (o: Outcome)
    requires ValidTopology(topo) && Shaped(topo, s) && w < |topo.workflows|
    requires InRange(topo, order) && i <= |order|
    ensures Shaped(topo, o.s)
    decreases |order| - i
  {
    if i == |order| then Outcome(false, s, draws)
    else
      var r := AllocWf(topo, cfg, s, draws, topo.workflows[w].tasks, None, order[i]);
      if r.ok then r else StartLoop(topo, cfg, r.s, r.draws, w, order, i + 1)
  }

  /** One iteration of `allocate_workflows`: workflow w from the first start
      node, among all nodes (shuffled by the random allocator), that works. */
  function AllocateOne(topo: Topology, cfg: Config, s: State, draws: nat, w: WorkflowId): (o: Outcome)
    requires ValidTopology(topo) && Shaped(topo, s) && w < |topo.workflows|
    ensures Shaped(topo, o.s)
  {
    var order := Arrange(cfg, draws, Iota(|topo.nodes|));
    ArrangeInRange(topo, cfg, draws, Iota(|topo.nodes|));
    StartLoop(topo, cfg, s, NextDraw(cfg, draws), w, order, 0)
  }

  /** `allocate_workflows` from workflow w on: each workflow in turn. */
  function AllocateFrom(topo: Topology, cfg: Config, s: State, draws: nat, w: nat): (r: Run)
    requires ValidTopology(topo) && Shaped(topo, s) && w <= |topo.workflows|
    ensures Shaped(topo, r.s)
    decreases |topo.workflows| - w
  {
    if w == |topo.workflows| then Run(s, draws)
    else
      var o := AllocateOne(topo, cfg, s, draws, w);
      AllocateFrom(topo, cfg, o.s, o.draws, w + 1)
  }

  function AllocateAll(topo: Topology, cfg: Config, s: State, draws: nat): (r: Run)
    requires ValidTopology(topo) && Shaped(topo, s)
    ensures Shaped(topo, r.s)
  {
    AllocateFrom(topo, cfg, s, draws, 0)
  }

  // ---------------------------------------------------------------------------
  // What the search guarantees
  // ---------------------------------------------------------------------------

  ghost predicate Unmapped(ts: seq<TaskId>, m: map<TaskId, NodeId>) {
    forall i | 0 <= i < |ts| :: ts[i] !in m
  }

  /** m' keeps every mapping of m and adds mappings for tasks of `ts` only. */
  ghost predicate Grows(m: map<TaskId, NodeId>, m': map<TaskId, NodeId>, ts: seq<TaskId>) {
    && (forall t | t in m :: t in m' && m'[t] == m[t])
    && (forall t | t in m' :: t in m || t in ts)
  }

  /** Every task of `ts` is mapped and each one after the first sits on a
      neighbour of its predecessor's node. */
  ghost predicate Chained(topo: Topology, ts: seq<TaskId>, m: map<TaskId, NodeId>) {
    && AllMapped(ts, m)
    && (forall i | 0 <= i < |ts| - 1 ::
          m[ts[i]] < |topo.nodes| && m[ts[i + 1]] in topo.nodes[m[ts[i]]].neighbors)
  }

  /** Every workflow is either fully mapped or not mapped at all. */
  ghost predicate AllOrNone(topo: Topology, s: State) {
    forall w | 0 <= w < |topo.workflows| ::
      AllMapped(topo.workflows[w].tasks, s.taskToNode) || Unmapped(topo.workflows[w].tasks, s.taskToNode)
  }

  /** Without its first task, a duplicate-free list stays duplicate-free. */
  lemma NoDupTail(tasks: seq<TaskId>)
    requires |tasks| >= 1 && NoDup(tasks)
    ensures NoDup(tasks[1..]) && tasks[0] !in tasks[1..]
  {
    var rest := tasks[1..];
    forall a, b | 0 <= a < b < |rest| ensures rest[a] != rest[b] {
      assert rest[a] == tasks[a + 1] && rest[b] == tasks[b + 1];
    }
  }

  /** Mapping the first of a list of unmapped tasks leaves the others unmapped. */
  lemma UnmappedTail(tasks: seq<TaskId>, m: map<TaskId, NodeId>, v: NodeId)
    requires |tasks| >= 1 && NoDup(tasks) && Unmapped(tasks, m)
    ensures Unmapped(tasks[1..], m[tasks[0] := v])
  {
    NoDupTail(tasks);
  }

  /** When `_alloc_wf_tasks` on tasks none of which is mapped fails, it leaves
      the state exactly as it found it. */
  lemma {:induction false} AllocWfRestores(topo: Topology, cfg: Config, s: State, draws: nat,
                                           tasks: seq<TaskId>, prev: Option<NodeId>, cur: NodeId)
    requires ValidTopology(topo) && Consistent(topo, s) && Call(topo, tasks, prev, cur)
    requires NoDup(tasks) && Unmapped(tasks, s.taskToNode)
    ensures !AllocWf(topo, cfg, s, draws, tasks, prev, cur).ok ==> AllocWf(topo, cfg, s, draws, tasks, prev, cur).s == s
    decreases |tasks|, 1, 0
  {
    var st := MapStep(topo, s, prev, tasks[0], cur);
    if st.ok && |tasks| > 1 {
      MapConsistent(topo, s, prev, tasks[0], cur);
      var order := Arrange(cfg, draws, topo.nodes[cur].neighbors);
      ArrangeInRange(topo, cfg, draws, topo.nodes[cur].neighbors);
      UnmappedTail(tasks, s.taskToNode, cur);
      TryNextRestores(topo, cfg, st.s, NextDraw(cfg, draws), tasks, cur, order, 0);
      var r := TryNext(topo, cfg, st.s, NextDraw(cfg, draws), tasks, cur, order, 0);
      if !r.ok {
        MapUnmapRoundTrip(topo, s, prev, tasks[0], cur);
      }
    }
  }


  /** When the neighbour loop fails it restores the state it was entered with. */
  lemma {:induction false} TryNextRestores(topo: Topology, cfg: Config, s: State, draws: nat,
                                           tasks: seq<TaskId>, cur: NodeId, order: seq<NodeId>, i: nat)
    requires ValidTopology(topo) && Consistent(topo, s) && Call(topo, tasks, None, cur) && |tasks| >= 2
    requires InRange(topo, order) && i <= |order|
    requires NoDup(tasks) && Unmapped(tasks[1..], s.taskToNode)
    ensures !TryNext(topo, cfg, s, draws, tasks, cur, order, i).ok ==> TryNext(topo, cfg, s, draws, tasks, cur, order, i).s == s
    decreases |tasks|, 0, |order| - i
  {
    if i < |order| {
      NoDupTail(tasks);
      if Admissible(topo, s, Some(cur), tasks[1], order[i]) {
        AllocWfRestores(topo, cfg, s, draws, tasks[1..], Some(cur), order[i]);
        var r := AllocWf(topo, cfg, s, draws, tasks[1..], Some(cur), order[i]);
        if !r.ok {
          TryNextRestores(topo, cfg, s, r.draws, tasks, cur, order, i + 1);
        }
      } else {
        TryNextRestores(topo, cfg, s, draws, tasks, cur, order, i + 1);
      }
    }
  }

  /** When `_alloc_wf_tasks` on unmapped tasks succeeds, the views are
      consistent, `tasks[0]` sits on `cur`, every task is mapped onto a
      neighbour of its predecessor's node, and no other task was mapped or moved. */
  lemma {:induction false} AllocWfChains(topo: Topology, cfg: Config, s: State, draws: nat,
                                         tasks: seq<TaskId>, prev: Option<NodeId>, cur: NodeId)
    requires ValidTopology(topo) && Consistent(topo, s) && Call(topo, tasks, prev, cur)
    requires NoDup(tasks) && Unmapped(tasks, s.taskToNode)
    ensures var o := AllocWf(topo, cfg, s, draws, tasks, prev, cur);
      o.ok ==> && Consistent(topo, o.s) && tasks[0] in o.s.taskToNode && o.s.taskToNode[tasks[0]] == cur
               && Chained(topo, tasks, o.s.taskToNode) && Grows(s.taskToNode, o.s.taskToNode, tasks)
    decreases |tasks|, 1, 0
  {
    var st := MapStep(topo, s, prev, tasks[0], cur);
    MapConsistent(topo, s, prev, tasks[0], cur);
    if st.ok && |tasks| > 1 {
      var order := Arrange(cfg, draws, topo.nodes[cur].neighbors);
      ArrangeInRange(topo, cfg, draws, topo.nodes[cur].neighbors);
      UnmappedTail(tasks, s.taskToNode, cur);
      TryNextChains(topo, cfg, st.s, NextDraw(cfg, draws), tasks, cur, order, 0);
      var r := TryNext(topo, cfg, st.s, NextDraw(cfg, draws), tasks, cur, order, 0);
      if r.ok {
        GrowsCons(s.taskToNode, r.s.taskToNode, tasks, cur);
      }
    }
  }

  /** Mapping `tasks[0]` onto `cur` and then growing by `tasks[1..]` grows by `tasks`. */
  lemma GrowsCons(m: map<TaskId, NodeId>, m': map<TaskId, NodeId>, tasks: seq<TaskId>, cur: NodeId)
    requires |tasks| >= 1 && tasks[0] !in m && Grows(m[tasks[0] := cur], m', tasks[1..])
    ensures Grows(m, m', tasks) && tasks[0] in m' && m'[tasks[0]] == cur
  {
    forall t | t in m' ensures t in m || t in tasks {
      if t !in m[tasks[0] := cur] {
        assert t in tasks[1..];
      }
    }
  }

  /** When the neighbour loop succeeds the views are consistent, the whole
      chain is mapped, its second task on one of `order[i..]`, and nothing
      outside `tasks[1..]` changed. */
  lemma {:induction false} TryNextChains(topo: Topology, cfg: Config, s: State, draws: nat,
                                         tasks: seq<TaskId>, cur: NodeId, order: seq<NodeId>, i: nat)
    requires ValidTopology(topo) && Consistent(topo, s) && Call(topo, tasks, None, cur) && |tasks| >= 2
    requires InRange(topo, order) && i <= |order|
    requires NoDup(tasks) && tasks[0] in s.taskToNode && s.taskToNode[tasks[0]] == cur
    requires Unmapped(tasks[1..], s.taskToNode)
    ensures var o := TryNext(topo, cfg, s, draws, tasks, cur, order, i);
      o.ok ==> && Consistent(topo, o.s) && Chained(topo, tasks, o.s.taskToNode) && Grows(s.taskToNode, o.s.taskToNode, tasks[1..])
               && o.s.taskToNode[tasks[1]] in order[i..]
    decreases |tasks|, 0, |order| - i
  {
    if i < |order| {
      var rest := tasks[1..];
      NoDupTail(tasks);
      if Admissible(topo, s, Some(cur), tasks[1], order[i]) {
        AllocWfRestores(topo, cfg, s, draws, rest, Some(cur), order[i]);
        AllocWfChains(topo, cfg, s, draws, rest, Some(cur), order[i]);
        var r := AllocWf(topo, cfg, s, draws, rest, Some(cur), order[i]);
        if r.ok {
          ChainedCons(topo, tasks, r.s.taskToNode);
        } else {
          TryNextChains(topo, cfg, s, r.draws, tasks, cur, order, i + 1);
        }
      } else {
        TryNextChains(topo, cfg, s, draws, tasks, cur, order, i + 1);
      }
    }
  }

  /** A chain extends by one task at the front onto a neighbour-linked node. */
  lemma ChainedCons(topo: Topology, tasks: seq<TaskId>, m: map<TaskId, NodeId>)
    requires |tasks| >= 2 && Chained(topo, tasks[1..], m) && tasks[0] in m && m[tasks[0]] < |topo.nodes|
    requires m[tasks[1]] in topo.nodes[m[tasks[0]]].neighbors
    ensures Chained(topo, tasks, m)
  {
    var rest := tasks[1..];
    forall j | 0 <= j < |tasks| - 1
      ensures m[tasks[j]] < |topo.nodes| && m[tasks[j + 1]] in topo.nodes[m[tasks[j]]].neighbors
    {
      if j > 0 {
        assert tasks[j] == rest[j - 1] && tasks[j + 1] == rest[j];
      }
    }
    forall j | 0 <= j < |tasks| ensures tasks[j] in m {
      if j > 0 { assert tasks[j] == rest[j - 1]; }
    }
  }

  /** A task listed by two workflows' task lists belongs to both: they are the same workflow. */
  lemma SharedTaskSameWorkflow(topo: Topology, v: WorkflowId, w: WorkflowId, t: TaskId)
    requires ValidTopology(topo) && v < |topo.workflows| && w < |topo.workflows|
    requires t in topo.workflows[v].tasks && t in topo.workflows[w].tasks
    ensures v == w
  {
    var i :| 0 <= i < |topo.workflows[v].tasks| && topo.workflows[v].tasks[i] == t;
    var j :| 0 <= j < |topo.workflows[w].tasks| && topo.workflows[w].tasks[j] == t;
  }

  /** A chain stays a chain when mappings are only added. */
  lemma ChainedGrows(topo: Topology, ts: seq<TaskId>, m: map<TaskId, NodeId>, m': map<TaskId, NodeId>)
    requires Chained(topo, ts, m) && forall t | t in m :: t in m' && m'[t] == m[t]
    ensures Chained(topo, ts, m')
  {
    forall j | 0 <= j < |ts| - 1
      ensures m'[ts[j]] < |topo.nodes| && m'[ts[j + 1]] in topo.nodes[m'[ts[j]]].neighbors
    {
      assert ts[j] in m && ts[j + 1] in m;
    }
  }

  /** One start node for a workflow that is either fully mapped or not at all:
      the first `map` fails on a mapped workflow, and on an unmapped one the
      search behaves as `AllocWfRestores` and `AllocWfChains` say. */
  lemma StartFrom(topo: Topology, cfg: Config, s: State, draws: nat, w: WorkflowId, start: NodeId)
    requires ValidTopology(topo) && Consistent(topo, s) && w < |topo.workflows| && start < |topo.nodes|
    requires AllMapped(topo.workflows[w].tasks, s.taskToNode) || Unmapped(topo.workflows[w].tasks, s.taskToNode)
    ensures var r := AllocWf(topo, cfg, s, draws, topo.workflows[w].tasks, None, start);
      var ts := topo.workflows[w].tasks;
      && Consistent(topo, r.s)
      && (!r.ok ==> r.s == s)
      && (r.ok ==> && Unmapped(ts, s.taskToNode) && Chained(topo, ts, r.s.taskToNode)
                   && Grows(s.taskToNode, r.s.taskToNode, ts) && r.s.taskToNode[ts[0]] == start)
  {
    var ts := topo.workflows[w].tasks;
    if Unmapped(ts, s.taskToNode) {
      AllocWfRestores(topo, cfg, s, draws, ts, None, start);
      AllocWfChains(topo, cfg, s, draws, ts, None, start);
    } else {
      assert ts[0] in s.taskToNode;
    }
  }

  /** The start-node loop for a workflow that is either fully mapped or not at
      all: it keeps the views consistent; on failure the state is unchanged; on
      success the workflow was unmapped, is now a chain starting on one of
      `order[i..]`, and nothing else was mapped or moved. */
  lemma {:induction false} StartLoopSound(topo: Topology, cfg: Config, s: State, draws: nat,
                                          w: WorkflowId, order: seq<NodeId>, i: nat)
    requires ValidTopology(topo) && Consistent(topo, s) && w < |topo.workflows|
    requires InRange(topo, order) && i <= |order|
    requires AllMapped(topo.workflows[w].tasks, s.taskToNode) || Unmapped(topo.workflows[w].tasks, s.taskToNode)
    ensures var o := StartLoop(topo, cfg, s, draws, w, order, i);
      var ts := topo.workflows[w].tasks;
      && Consistent(topo, o.s)
      && (!o.ok ==> o.s == s)
      && (o.ok ==> && Unmapped(ts, s.taskToNode) && Chained(topo, ts, o.s.taskToNode)
                   && Grows(s.taskToNode, o.s.taskToNode, ts) && o.s.taskToNode[ts[0]] in order[i..])
    decreases |order| - i
  {
    if i < |order| {
      StartFrom(topo, cfg, s, draws, w, order[i]);
      var r := AllocWf(topo, cfg, s, draws, topo.workflows[w].tasks, None, order[i]);
      if !r.ok {
        StartLoopSound(topo, cfg, s, r.draws, w, order, i + 1);
      }
    }
  }

  /** After the start-node loop for workflow w every workflow is still fully
      mapped or not at all. */
  lemma StartLoopAllOrNone(topo: Topology, cfg: Config, s: State, draws: nat,
                           w: WorkflowId, order: seq<NodeId>)
    requires ValidTopology(topo) && Consistent(topo, s) && AllOrNone(topo, s) && w < |topo.workflows|
    requires InRange(topo, order)
    ensures AllOrNone(topo, StartLoop(topo, cfg, s, draws, w, order, 0).s)
  {
    StartLoopSound(topo, cfg, s, draws, w, order, 0);
    var o := StartLoop(topo, cfg, s, draws, w, order, 0);
    if o.ok {
      forall v | 0 <= v < |topo.workflows| && v != w
        ensures AllMapped(topo.workflows[v].tasks, o.s.taskToNode) || Unmapped(topo.workflows[v].tasks, o.s.taskToNode)
      {
        var tv := topo.workflows[v].tasks;
        forall j | 0 <= j < |tv| ensures tv[j] in o.s.taskToNode <==> tv[j] in s.taskToNode {
        }
      }
    }
  }

  /** One workflow's turn in `allocate_workflows`, over a consistent state in
      which every workflow is fully mapped or not at all: both stay true; on
      failure the state is unchanged; on success the workflow was unmapped and
      now is a chain of neighbouring nodes, and no other task was touched. */
  lemma AllocateOneSound(topo: Topology, cfg: Config, s: State, draws: nat, w: WorkflowId)
    requires ValidTopology(topo) && Consistent(topo, s) && AllOrNone(topo, s) && w < |topo.workflows|
    ensures var o := AllocateOne(topo, cfg, s, draws, w);
      var ts := topo.workflows[w].tasks;
      && Consistent(topo, o.s) && AllOrNone(topo, o.s)
      && (!o.ok ==> o.s == s)
      && (o.ok ==> Unmapped(ts, s.taskToNode) && Chained(topo, ts, o.s.taskToNode) && Grows(s.taskToNode, o.s.taskToNode, ts))
  {
    var order := Arrange(cfg, draws, Iota(|topo.nodes|));
    ArrangeInRange(topo, cfg, draws, Iota(|topo.nodes|));
    StartLoopSound(topo, cfg, s, NextDraw(cfg, draws), w, order, 0);
    StartLoopAllOrNone(topo, cfg, s, NextDraw(cfg, draws), w, order);
  }

  /** `allocate_workflows` from workflow w on, over a consistent state in which
      every workflow is fully mapped or not at all: the views stay consistent
      and all-or-none, and no mapped task is moved or dropped. */
  lemma {:induction false} AllocateFromKeeps(topo: Topology, cfg: Config, s: State, draws: nat, w: nat)
    requires ValidTopology(topo) && Consistent(topo, s) && AllOrNone(topo, s) && w <= |topo.workflows|
    ensures var r := AllocateFrom(topo, cfg, s, draws, w);
      && Consistent(topo, r.s) && AllOrNone(topo, r.s)
      && (forall t | t in s.taskToNode :: t in r.s.taskToNode && r.s.taskToNode[t] == s.taskToNode[t])
    decreases |topo.workflows| - w
  {
    if w < |topo.workflows| {
      AllocateOneSound(topo, cfg, s, draws, w);
      var o := AllocateOne(topo, cfg, s, draws, w);
      AllocateFromKeeps(topo, cfg, o.s, o.draws, w + 1);
    }
  }

  /** Every workflow allocated in r but not in s is one from w on, and its
      tasks sit on a chain of neighbouring nodes. */
  ghost predicate ChainsSince(topo: Topology, s: State, r: State, w: nat) {
    forall v | 0 <= v < |topo.workflows| && AllMapped(topo.workflows[v].tasks, r.taskToNode) ::
      AllMapped(topo.workflows[v].tasks, s.taskToNode) || (w <= v && Chained(topo, topo.workflows[v].tasks, r.taskToNode))
  }

  /** Every workflow that `allocate_workflows` (from workflow w on) allocates is
      one from w on, and its tasks sit on a chain of neighbouring nodes. */
  lemma {:induction false} AllocateFromChains(topo: Topology, cfg: Config, s: State, draws: nat, w: nat)
    requires ValidTopology(topo) && Consistent(topo, s) && AllOrNone(topo, s) && w <= |topo.workflows|
    ensures ChainsSince(topo, s, AllocateFrom(topo, cfg, s, draws, w).s, w)
    decreases |topo.workflows| - w
  {
    if w < |topo.workflows| {
      AllocateOneSound(topo, cfg, s, draws, w);
      var o := AllocateOne(topo, cfg, s, draws, w);
      AllocateFromKeeps(topo, cfg, o.s, o.draws, w + 1);
      AllocateFromChains(topo, cfg, o.s, o.draws, w + 1);
      ChainsStep(topo, s, o.s, AllocateFrom(topo, cfg, o.s, o.draws, w + 1).s, w);
    }
  }

  /** The step case of `AllocateFromChains`: workflow w, then the rest. */
  lemma ChainsStep(topo: Topology, s: State, o: State, r: State, w: WorkflowId)
    requires ValidTopology(topo) && w < |topo.workflows|
    requires o == s || (Chained(topo, topo.workflows[w].tasks, o.taskToNode) && Grows(s.taskToNode, o.taskToNode, topo.workflows[w].tasks))
    requires forall t | t in o.taskToNode :: t in r.taskToNode && r.taskToNode[t] == o.taskToNode[t]
    requires ChainsSince(topo, o, r, w + 1)
    ensures ChainsSince(topo, s, r, w)
  {
    forall v | 0 <= v < |topo.workflows| && AllMapped(topo.workflows[v].tasks, r.taskToNode)
      ensures AllMapped(topo.workflows[v].tasks, s.taskToNode) || (w <= v && Chained(topo, topo.workflows[v].tasks, r.taskToNode))
    {
      NewlyMapped(topo, s, o, r, w, v);
    }
  }

  /** The step case of `AllocateFromChains` for one workflow v. */
  lemma NewlyMapped(topo: Topology, s: State, o: State, r: State, w: WorkflowId, v: WorkflowId)
    requires ValidTopology(topo) && w < |topo.workflows| && v < |topo.workflows|
    requires o == s || (Chained(topo, topo.workflows[w].tasks, o.taskToNode) && Grows(s.taskToNode, o.taskToNode, topo.workflows[w].tasks))
    requires forall t | t in o.taskToNode :: t in r.taskToNode && r.taskToNode[t] == o.taskToNode[t]
    requires AllMapped(topo.workflows[v].tasks, o.taskToNode) || (w + 1 <= v && Chained(topo, topo.workflows[v].tasks, r.taskToNode))
    ensures AllMapped(topo.workflows[v].tasks, s.taskToNode) || (w <= v && Chained(topo, topo.workflows[v].tasks, r.taskToNode))
  {
    var tv := topo.workflows[v].tasks;
    if !AllMapped(tv, s.taskToNode) && AllMapped(tv, o.taskToNode) && o != s {
      var j :| 0 <= j < |tv| && tv[j] !in s.taskToNode;
      assert tv[j] in topo.workflows[w].tasks;
      SharedTaskSameWorkflow(topo, v, w, tv[j]);
      ChainedGrows(topo, tv, o.taskToNode, r.taskToNode);
    }
  }

  /** `allocate_workflows` on a fresh solution: the views are consistent, each
      workflow is fully mapped or not at all, and the tasks of every allocated
      workflow sit on a chain of neighbouring nodes, one node per task. */
  lemma AllocateAllFromInitial(topo: Topology, cfg: Config, draws: nat)
    requires ValidTopology(topo)
    ensures var r := AllocateAll(topo, cfg, Initial(topo), draws);
      && Consistent(topo, r.s) && AllOrNone(topo, r.s)
      && (forall v | 0 <= v < |topo.workflows| && r.s.wfAlloc[v] ::
            Chained(topo, topo.workflows[v].tasks, r.s.taskToNode) && |r.s.wfToNodes[v]| == |topo.workflows[v].tasks|)
  {
    InitialConsistent(topo);
    AllocateFromKeeps(topo, cfg, Initial(topo), draws, 0);
    AllocateFromChains(topo, cfg, Initial(topo), draws, 0);
    var r := AllocateAll(topo, cfg, Initial(topo), draws);
    forall v | 0 <= v < |topo.workflows| && r.s.wfAlloc[v]
      ensures Chained(topo, topo.workflows[v].tasks, r.s.taskToNode) && |r.s.wfToNodes[v]| == |topo.workflows[v].tasks|
    {
      AllocatedIffAllMapped(topo, r.s, v);
      assert WorkflowInSync(topo, r.s, v);
    }
  }

  /** Once every workflow is allocated, `allocate_workflows` changes nothing
      (every first `map` finds its task already mapped). */
  lemma {:induction false} AllocateFromAllocated(topo: Topology, cfg: Config, s: State, draws: nat, w: nat)
    requires ValidTopology(topo) && Consistent(topo, s) && w <= |topo.workflows|
    requires forall v | 0 <= v < |topo.workflows| :: AllMapped(topo.workflows[v].tasks, s.taskToNode)
    ensures AllocateFrom(topo, cfg, s, draws, w).s == s
    decreases |topo.workflows| - w
  {
    if w < |topo.workflows| {
      AllocateOneSound(topo, cfg, s, draws, w);
      var o := AllocateOne(topo, cfg, s, draws, w);
      AllocateFromAllocated(topo, cfg, o.s, o.draws, w + 1);
    }
  }

  // ---------------------------------------------------------------------------
  // The allocator object
  // ---------------------------------------------------------------------------

  /** An allocator owns the one `Solution` it fills in; `draws` counts the
      shuffles taken from the random source so far. */
  class Allocator {
    const topo: Topology
    const cfg: Config
    const solution: Solution
    var draws: nat

    ghost predicate Valid()
      reads this, solution
    {
      solution.topo == topo && solution.Valid()
    }

    /** `Allocator.__init__`: a fresh, empty solution over the topology. */
    constructor (topo: Topology, cfg: Config, draws: nat)
      requires ValidTopology(topo)
      ensures Valid() && fresh(solution) && this.topo == topo && this.cfg == cfg && this.draws == draws
      ensures solution.Views() == Initial(topo)
    {
      this.topo := topo;
      this.cfg := cfg;
      this.draws := draws;
      solution := new Solution(topo);
    }

    /** `_alloc_wf_tasks(tasks, prev_node, cur_node)`. */
    method AllocWfTasks(tasks: seq<TaskId>, prev: Option<NodeId>, cur: NodeId) returns (ok: bool)
      requires Valid() && Call(topo, tasks, prev, cur)
      modifies this, solution
      ensures Valid()
      ensures Outcome(ok, solution.Views(), draws) == AllocWf(topo, cfg, old(solution.Views()), old(draws), tasks, prev, cur)
      decreases |tasks|, 1
    {
      ok := solution.Map(prev, tasks[0], cur);
      if !ok || |tasks| == 1 {
        return;
      }
      var order := Arrange(cfg, draws, topo.nodes[cur].neighbors);
      ArrangeInRange(topo, cfg, draws, topo.nodes[cur].neighbors);
      draws := NextDraw(cfg, draws);
      ok := TryNeighbours(tasks, cur, order);
      if !ok {
        var _ := solution.Unmap(tasks[0]);
      }
    }

    /** The loop over the (possibly shuffled) neighbours in `_alloc_wf_tasks`. */
    method TryNeighbours(tasks: seq<TaskId>, cur: NodeId, order: seq<NodeId>) returns (ok: bool)
      requires Valid() && Call(topo, tasks, None, cur) && |tasks| >= 2 && InRange(topo, order)
      modifies this, solution
      ensures Valid()
      ensures Outcome(ok, solution.Views(), draws) == TryNext(topo, cfg, old(solution.Views()), old(draws), tasks, cur, order, 0)
      decreases |tasks|, 0, 1
    {
      ghost var goal := TryNext(topo, cfg, solution.Views(), draws, tasks, cur, order, 0);
      var i := 0;
      while i < |order|
        invariant 0 <= i <= |order| && Valid()
        invariant TryNext(topo, cfg, solution.Views(), draws, tasks, cur, order, i) == goal
        decreases |order| - i
      {
        ok := TryNeighbour(tasks, cur, order, i);
        if ok {
          return;
        }
        i := i + 1;
      }
      ok := false;
    }

    /** One iteration of the neighbour loop: `order[i]` is tried when it is
        mappable for `tasks[1]`. */
    method TryNeighbour(tasks: seq<TaskId>, cur: NodeId, order: seq<NodeId>, i: nat) returns (ok: bool)
      requires Valid() && Call(topo, tasks, None, cur) && |tasks| >= 2 && InRange(topo, order) && i < |order|
      modifies this, solution
      ensures Valid()
      ensures ok ==> Outcome(true, solution.Views(), draws) == TryNext(topo, cfg, old(solution.Views()), old(draws), tasks, cur, order, i)
      ensures !ok ==> (TryNext(topo, cfg, solution.Views(), draws, tasks, cur, order, i + 1)
                       == TryNext(topo, cfg, old(solution.Views()), old(draws), tasks, cur, order, i))
      decreases |tasks|, 0, 0
    {
      var admissible := solution.Mappable(Some(cur), tasks[1], order[i]);
      ok := false;
      if admissible {
        ok := AllocWfTasks(tasks[1..], Some(cur), order[i]);
      }
    }

    /** The loop over start nodes for workflow w in `allocate_workflows`. */
    method TryStarts(w: WorkflowId, starts: seq<NodeId>) returns (found: bool)
      requires Valid() && w < |topo.workflows| && InRange(topo, starts)
      modifies this, solution
      ensures Valid()
      ensures Outcome(found, solution.Views(), draws) == StartLoop(topo, cfg, old(solution.Views()), old(draws), w, starts, 0)
    {
      ghost var goal := StartLoop(topo, cfg, solution.Views(), draws, w, starts, 0);
      var i := 0;
      while i < |starts|
        invariant 0 <= i <= |starts| && Valid()
        invariant StartLoop(topo, cfg, solution.Views(), draws, w, starts, i) == goal
        decreases |starts| - i
      {
        found := AllocWfTasks(topo.workflows[w].tasks, None, starts[i]);
        if found {
          return;
        }
        i := i + 1;
      }
      found := false;
    }

    /** One iteration of the loop in `allocate_workflows`. */
    method AllocateWorkflow(w: WorkflowId) returns (found: bool)
      requires Valid() && w < |topo.workflows|
      modifies this, solution
      ensures Valid()
      ensures Outcome(found, solution.Views(), draws) == AllocateOne(topo, cfg, old(solution.Views()), old(draws), w)
    {
      var starts := Arrange(cfg, draws, Iota(|topo.nodes|));
      ArrangeInRange(topo, cfg, draws, Iota(|topo.nodes|));
      draws := NextDraw(cfg, draws);
      found := TryStarts(w, starts);
    }

    /** `allocate_workflows()`: each workflow in turn, from the first start node
        (in list order, or shuffled) from which all its tasks fit; returns the
        allocator's own solution. */
    method AllocateWorkflows() returns (sol: Solution)
      requires Valid()
      modifies this, solution
      ensures Valid() && sol == solution
      ensures Run(solution.Views(), draws) == AllocateAll(topo, cfg, old(solution.Views()), old(draws))
    {
      ghost var goal := AllocateFrom(topo, cfg, solution.Views(), draws, 0);
      var w := 0;
      while w < |topo.workflows|
        invariant w <= |topo.workflows| && Valid()
        invariant AllocateFrom(topo, cfg, solution.Views(), draws, w) == goal
      {
        var _ := AllocateWorkflow(w);
        w := w + 1;
      }
      sol := solution;
    }
  }
}
