/** The logical state behind `Solution` (solution.py) as a value: the five views
    of one task-to-node assignment, the rule that admits a task onto a node, and
    the `map` / `unmap` steps.  The class that holds these views in mutable
    fields is `Solutions.Solution`; its methods are proved to compute exactly
    the functions here. */
module Mapping {
  import opened Options
  import opened ResourceVectors
  import opened Topology

  /** `wf_alloc`, `wf_to_nodes` (each workflow's node keys in insertion order),
      `task_to_node`, `node_to_tasks` and `available_resources`. */
  datatype State = State(
    wfAlloc: seq<bool>,
    wfToNodes: seq<seq<NodeId>>,
    taskToNode: map<TaskId, NodeId>,
    nodeToTasks: seq<set<TaskId>>,
    available: seq<Resources>)

  /** The outcome of `map` or `unmap`: the returned flag and the new state. */
  datatype Step = Step(ok: bool, s: State)

  /** Every view has one entry per workflow or node, every mapped task and
      node exists, and every available vector carries the common names. */
  ghost predicate Shaped(topo: Topology, s: State) {
    && |s.wfAlloc| == |topo.workflows| && |s.wfToNodes| == |topo.workflows|
    && |s.nodeToTasks| == |topo.nodes| && |s.available| == |topo.nodes|
    && (forall t | t in s.taskToNode :: t < |topo.tasks| && s.taskToNode[t] < |topo.nodes|)
    && (forall n | 0 <= n < |topo.nodes| :: s.available[n].Keys == topo.names)
  }

  // ---------------------------------------------------------------------------
  // What the views must agree on
  // ---------------------------------------------------------------------------

  function Demand(topo: Topology, t: TaskId, k: ResourceName): int {
    if t < |topo.tasks| && k in topo.tasks[t].demand then topo.tasks[t].demand[k] else 0
  }

  function Capacity(topo: Topology, n: NodeId, k: ResourceName): int {
    if n < |topo.nodes| && k in topo.nodes[n].capacity then topo.nodes[n].capacity[k] else 0
  }

  /** Amount of resource k taken on node n by the mapped tasks numbered below i. */
  function UsedBelow(topo: Topology, m: map<TaskId, NodeId>, n: NodeId, k: ResourceName, i: nat): int {
    if i == 0 then 0
    else UsedBelow(topo, m, n, k, i - 1) + (if i - 1 in m && m[i - 1] == n then Demand(topo, i - 1, k) else 0)
  }

  function Used(topo: Topology, m: map<TaskId, NodeId>, n: NodeId, k: ResourceName): int {
    UsedBelow(topo, m, n, k, |topo.tasks|)
  }

  /** The nodes hosting the mapped tasks among `ts`, with multiplicity. */
  function HostNodes(ts: seq<TaskId>, m: map<TaskId, NodeId>): multiset<NodeId> {
    if ts == [] then multiset{}
    else (if ts[0] in m then multiset{m[ts[0]]} else multiset{}) + HostNodes(ts[1..], m)
  }

  function TasksOn(m: map<TaskId, NodeId>, n: NodeId): set<TaskId> {
    set t | t in m && m[t] == n
  }

  /** `wf_to_nodes[w]` lists the nodes of w's mapped tasks, each once (so no two
      tasks of a workflow share a node), and `wf_alloc[w]` says whether there
      are as many as the workflow has tasks. */
  ghost predicate WorkflowInSync(topo: Topology, s: State, w: WorkflowId)
    requires Shaped(topo, s) && w < |topo.workflows|
  {
    var ts, ns := topo.workflows[w].tasks, s.wfToNodes[w];
    && NoDup(ns)
    && multiset(ns) == HostNodes(ts, s.taskToNode)
    && s.wfAlloc[w] == (|ns| == |ts|)
  }

  /** Node n's available vector is its capacity minus what its tasks use, and
      never negative. */
  ghost predicate ResourcesAccounted(topo: Topology, s: State, n: NodeId)
    requires Shaped(topo, s) && n < |topo.nodes|
  {
    forall k | k in topo.names ::
      s.available[n][k] == Capacity(topo, n, k) - Used(topo, s.taskToNode, n, k) && s.available[n][k] >= 0
  }

  /** The five views describe one assignment. */
  ghost predicate Consistent(topo: Topology, s: State) {
    && Shaped(topo, s)
    && (forall n | 0 <= n < |topo.nodes| :: s.nodeToTasks[n] == TasksOn(s.taskToNode, n))
    && (forall w | 0 <= w < |topo.workflows| :: WorkflowInSync(topo, s, w))
    && (forall n | 0 <= n < |topo.nodes| :: ResourcesAccounted(topo, s, n))
  }

  // ---------------------------------------------------------------------------
  // The operations
  // ---------------------------------------------------------------------------

  /** `Solution.__init__`: nothing mapped, every node at full capacity. */
  function Initial(topo: Topology): State {
    State(
      seq(|topo.workflows|, _ => false),
      seq(|topo.workflows|, _ => []),
      map[],
      seq(|topo.nodes|, _ => {}),
      seq(|topo.nodes|, n requires 0 <= n < |topo.nodes| => topo.nodes[n].capacity))
  }

  /** The ids a `mappable` / `map` call refers to exist. */
  predicate Refers(topo: Topology, prev: Option<NodeId>, t: TaskId, target: NodeId) {
    t < |topo.tasks| && target < |topo.nodes| && (prev.Some? ==> prev.value < |topo.nodes|)
  }

  /** `mappable` as the rule the class comment states: the target has room for
      the task and is not yet used by the task's workflow, and, after the first
      task, it is a neighbour of the previous task's node. */
  predicate Admissible(topo: Topology, s: State, prev: Option<NodeId>, t: TaskId, target: NodeId)
    requires ValidTopology(topo) && Shaped(topo, s) && Refers(topo, prev, t, target)
  {
    var task := topo.tasks[t];
    var resourceOk := Le(task.demand, s.available[target]);
    var visited := target in s.wfToNodes[task.workflow];
    match prev
    case None => !visited && resourceOk
    case Some(p) => !visited && target in topo.nodes[p].neighbors && resourceOk
  }

  /** `mappable` as written: without a previous node only the resources are checked. */
  predicate AdmissibleAsWritten(topo: Topology, s: State, prev: Option<NodeId>, t: TaskId, target: NodeId)
    requires ValidTopology(topo) && Shaped(topo, s) && Refers(topo, prev, t, target)
  {
    var task := topo.tasks[t];
    var resourceOk := Le(task.demand, s.available[target]);
    var visited := target in s.wfToNodes[task.workflow];
    match prev
    case None => resourceOk
    case Some(p) => !visited && target in topo.nodes[p].neighbors && resourceOk
  }

  /** Setting a key of an ordered dictionary: a new key goes to the end. */
  function InsertKey(ns: seq<NodeId>, v: NodeId): seq<NodeId> {
    if v in ns then ns else ns + [v]
  }

  /** Deleting a key of an ordered dictionary; the others keep their order. */
  function DeleteKey(ns: seq<NodeId>, v: NodeId): seq<NodeId> {
    if ns == [] then []
    else if ns[0] == v then DeleteKey(ns[1..], v)
    else [ns[0]] + DeleteKey(ns[1..], v)
  }

  /** The updates of a successful `map` of task t onto `target`. */
  function Place(topo: Topology, s: State, t: TaskId, target: NodeId): (r: State)
    requires ValidTopology(topo) && Shaped(topo, s) && t < |topo.tasks| && target < |topo.nodes|
    ensures Shaped(topo, r)
  {
    var task := topo.tasks[t];
    var w := task.workflow;
    var ns := InsertKey(s.wfToNodes[w], target);
    State(
      if |ns| == |topo.workflows[w].tasks| then s.wfAlloc[w := true] else s.wfAlloc,
      s.wfToNodes[w := ns],
      s.taskToNode[t := target],
      s.nodeToTasks[target := s.nodeToTasks[target] + {t}],
      s.available[target := Sub(s.available[target], task.demand)])
  }

  /** The updates of a successful `unmap` of the mapped task t. */
  function Unplace(topo: Topology, s: State, t: TaskId): (r: State)
    requires ValidTopology(topo) && Shaped(topo, s) && t in s.taskToNode
    ensures Shaped(topo, r)
  {
    var target := s.taskToNode[t];
    var task := topo.tasks[t];
    var w := task.workflow;
    State(
      s.wfAlloc[w := false],
      s.wfToNodes[w := DeleteKey(s.wfToNodes[w], target)],
      s.taskToNode - {t},
      s.nodeToTasks[target := s.nodeToTasks[target] - {t}],
      s.available[target := Add(s.available[target], task.demand)])
  }

  /** `map(prev_node, task, target_node)`. */
  function MapStep(topo: Topology, s: State, prev: Option<NodeId>, t: TaskId, target: NodeId): Step
    requires ValidTopology(topo) && Shaped(topo, s) && Refers(topo, prev, t, target)
  {
    if t in s.taskToNode || !Admissible(topo, s, prev, t, target) then Step(false, s)
    else Step(true, Place(topo, s, t, target))
  }

  /** `map` as written, with the first-task rule of `AdmissibleAsWritten`. */
  function MapStepAsWritten(topo: Topology, s: State, prev: Option<NodeId>, t: TaskId, target: NodeId): Step
    requires ValidTopology(topo) && Shaped(topo, s) && Refers(topo, prev, t, target)
  {
    if t in s.taskToNode || !AdmissibleAsWritten(topo, s, prev, t, target) then Step(false, s)
    else Step(true, Place(topo, s, t, target))
  }

  /** `unmap(task)`. */
  function UnmapStep(topo: Topology, s: State, t: TaskId): Step
    requires ValidTopology(topo) && Shaped(topo, s) && t < |topo.tasks|
  {
    if t !in s.taskToNode then Step(false, s) else Step(true, Unplace(topo, s, t))
  }

  /** Number of true flags (`sum(wf_alloc.values())`). */
  function CountTrue(bs: seq<bool>): (c: nat)
    ensures c <= |bs|
  {
    if bs == [] then 0 else (if bs[0] then 1 else 0) + CountTrue(bs[1..])
  }

  /** Whether every task of `ts` is mapped. */
  predicate AllMapped(ts: seq<TaskId>, m: map<TaskId, NodeId>) {
    forall i | 0 <= i < |ts| :: ts[i] in m
  }

  // ---------------------------------------------------------------------------
  // Ordered key lists
  // ---------------------------------------------------------------------------

  lemma NoDupCons(a: NodeId, r: seq<NodeId>)
    ensures NoDup([a] + r) <==> a !in r && NoDup(r)
  {
    var s := [a] + r;
    if a !in r && NoDup(r) {
      forall i, j | 0 <= i < j < |s| ensures s[i] != s[j] {
        if i > 0 { assert s[i] == r[i - 1] && s[j] == r[j - 1]; } else { assert s[j] in r; }
      }
    }
    if NoDup(s) {
      forall i, j | 0 <= i < j < |r| ensures r[i] != r[j] { assert r[i] == s[i + 1] && r[j] == s[j + 1]; }
      forall j | 0 <= j < |r| ensures r[j] != a { assert s[0] != s[j + 1]; }
    }
  }

  lemma NoDupSnoc(ns: seq<NodeId>, v: NodeId)
    requires NoDup(ns) && v !in ns
    ensures NoDup(ns + [v])
  {
    var s := ns + [v];
    forall i, j | 0 <= i < j < |s| ensures s[i] != s[j] {
      if j < |ns| { assert s[i] == ns[i] && s[j] == ns[j]; } else { assert s[i] in ns; }
    }
  }

  lemma {:induction false} DeleteKeyMembers(ns: seq<NodeId>, v: NodeId, x: NodeId)
    ensures x in DeleteKey(ns, v) <==> x in ns && x != v
  {
    if ns != [] {
      DeleteKeyMembers(ns[1..], v, x);
      assert ns == [ns[0]] + ns[1..];
    }
  }

  lemma {:induction false} DeleteKeyNoDup(ns: seq<NodeId>, v: NodeId)
    requires NoDup(ns)
    ensures NoDup(DeleteKey(ns, v))
  {
    if ns != [] {
      assert ns == [ns[0]] + ns[1..];
      NoDupCons(ns[0], ns[1..]);
      DeleteKeyNoDup(ns[1..], v);
      if ns[0] != v {
        DeleteKeyMembers(ns[1..], v, ns[0]);
        NoDupCons(ns[0], DeleteKey(ns[1..], v));
      }
    }
  }

  lemma {:induction false} DeleteKeyMultiset(ns: seq<NodeId>, v: NodeId)
    ensures multiset(DeleteKey(ns, v)) == multiset(ns)[v := 0]
  {
    if ns != [] {
      DeleteKeyMultiset(ns[1..], v);
      assert ns == [ns[0]] + ns[1..];
    }
  }

  /** Deleting the key just inserted gives back the original order. */
  lemma {:induction false} DeleteKeyAppended(ns: seq<NodeId>, v: NodeId)
    requires v !in ns
    ensures DeleteKey(ns + [v], v) == ns
  {
    if ns == [] {
      assert [v][1..] == [];
    } else {
      assert (ns + [v])[1..] == ns[1..] + [v];
      DeleteKeyAppended(ns[1..], v);
      assert ns == [ns[0]] + ns[1..];
    }
  }

  // ---------------------------------------------------------------------------
  // Host nodes and resource usage under a single change of the assignment
  // ---------------------------------------------------------------------------

  lemma {:induction false} HostNodesUpdate(ts: seq<TaskId>, m: map<TaskId, NodeId>, t: TaskId, v: NodeId)
    requires t !in m && NoDup(ts)
    ensures HostNodes(ts, m[t := v]) == HostNodes(ts, m) + (if t in ts then multiset{v} else multiset{})
  {
    if ts != [] {
      assert ts == [ts[0]] + ts[1..];
      NoDupCons(ts[0], ts[1..]);
      HostNodesUpdate(ts[1..], m, t, v);
    }
  }

  lemma {:induction false} HostNodesSize(ts: seq<TaskId>, m: map<TaskId, NodeId>)
    ensures |HostNodes(ts, m)| <= |ts|
    ensures |HostNodes(ts, m)| == |ts| <==> AllMapped(ts, m)
  {
    if ts != [] {
      HostNodesSize(ts[1..], m);
      assert AllMapped(ts, m) <==> ts[0] in m && AllMapped(ts[1..], m) by {
        if ts[0] in m && AllMapped(ts[1..], m) {
          forall i | 0 <= i < |ts| ensures ts[i] in m { if i > 0 { assert ts[i] == ts[1..][i - 1]; } }
        }
        if AllMapped(ts, m) {
          forall i | 0 <= i < |ts[1..]| ensures ts[1..][i] in m { assert ts[1..][i] == ts[i + 1]; }
        }
      }
    }
  }

  lemma {:induction false} HostNodesEmpty(ts: seq<TaskId>)
    ensures HostNodes(ts, map[]) == multiset{}
  {
    if ts != [] {
      HostNodesEmpty(ts[1..]);
    }
  }

  lemma {:induction false} UsedBelowUpdate(topo: Topology, m: map<TaskId, NodeId>, t: TaskId, v: NodeId,
                                          n: NodeId, k: ResourceName, i: nat)
    requires t !in m
    ensures UsedBelow(topo, m[t := v], n, k, i)
         == UsedBelow(topo, m, n, k, i) + (if t < i && v == n then Demand(topo, t, k) else 0)
  {
    if i > 0 {
      UsedBelowUpdate(topo, m, t, v, n, k, i - 1);
    }
  }

  lemma {:induction false} UsedBelowEmpty(topo: Topology, n: NodeId, k: ResourceName, i: nat)
    ensures UsedBelow(topo, map[], n, k, i) == 0
  {
    if i > 0 {
      UsedBelowEmpty(topo, n, k, i - 1);
    }
  }

  // ---------------------------------------------------------------------------
  // The invariant: established by `__init__`, kept by `map` and `unmap`
  // ---------------------------------------------------------------------------

  lemma {:induction false} CountTrueNone(n: nat)
    ensures CountTrue(seq(n, _ => false)) == 0
  {
    if n > 0 {
      CountTrueNone(n - 1);
      assert seq(n, _ => false)[1..] == seq(n - 1, _ => false);
    }
  }

  /** A fresh solution is consistent and has no workflow allocated, no task
      mapped and every node at full capacity. */
  lemma InitialConsistent(topo: Topology)
    requires ValidTopology(topo)
    ensures Consistent(topo, Initial(topo))
    ensures CountTrue(Initial(topo).wfAlloc) == 0
    ensures forall w | 0 <= w < |topo.workflows| :: !AllMapped(topo.workflows[w].tasks, Initial(topo).taskToNode)
    ensures forall n, k | 0 <= n < |topo.nodes| && k in topo.names :: Initial(topo).available[n][k] == Capacity(topo, n, k)
  {
    var s := Initial(topo);
    forall w | 0 <= w < |topo.workflows| ensures WorkflowInSync(topo, s, w) {
      HostNodesEmpty(topo.workflows[w].tasks);
    }
    forall w | 0 <= w < |topo.workflows| ensures !AllMapped(topo.workflows[w].tasks, s.taskToNode) {
      assert topo.workflows[w].tasks[0] !in s.taskToNode;
    }
    forall n | 0 <= n < |topo.nodes| ensures ResourcesAccounted(topo, s, n) {
      forall k | k in topo.names ensures Used(topo, s.taskToNode, n, k) == 0 {
        UsedBelowEmpty(topo, n, k, |topo.tasks|);
      }
    }
    CountTrueNone(|topo.workflows|);
  }

  /** Under the invariant a workflow is flagged allocated exactly when all of
      its tasks are mapped. */
  lemma AllocatedIffAllMapped(topo: Topology, s: State, w: WorkflowId)
    requires Consistent(topo, s) && w < |topo.workflows|
    ensures s.wfAlloc[w] <==> AllMapped(topo.workflows[w].tasks, s.taskToNode)
  {
    assert WorkflowInSync(topo, s, w);
    HostNodesSize(topo.workflows[w].tasks, s.taskToNode);
  }

  lemma NotAllMapped(topo: Topology, m: map<TaskId, NodeId>, t: TaskId)
    requires ValidTopology(topo) && t < |topo.tasks| && t !in m
    ensures !AllMapped(topo.workflows[topo.tasks[t].workflow].tasks, m)
  {
    var ts := topo.workflows[topo.tasks[t].workflow].tasks;
    var i :| 0 <= i < |ts| && ts[i] == t;
  }

  lemma PlaceInSync(topo: Topology, s: State, t: TaskId, target: NodeId, w: WorkflowId)
    requires ValidTopology(topo) && Consistent(topo, s)
    requires t < |topo.tasks| && target < |topo.nodes| && t !in s.taskToNode
    requires target !in s.wfToNodes[topo.tasks[t].workflow]
    requires w < |topo.workflows|
    ensures WorkflowInSync(topo, Place(topo, s, t, target), w)
  {
    var r := Place(topo, s, t, target);
    var ts, ns := topo.workflows[w].tasks, s.wfToNodes[w];
    assert WorkflowInSync(topo, s, w);
    HostNodesUpdate(ts, s.taskToNode, t, target);
    TaskInOwnWorkflowOnly(topo, t, w);
    HostNodesSize(ts, s.taskToNode);
    if topo.tasks[t].workflow == w {
      NotAllMapped(topo, s.taskToNode, t);
      NoDupSnoc(ns, target);
      assert r.wfToNodes[w] == ns + [target];
    } else {
      assert r.wfToNodes[w] == ns && r.wfAlloc[w] == s.wfAlloc[w];
    }
  }

  lemma PlaceAccounted(topo: Topology, s: State, t: TaskId, target: NodeId, n: NodeId)
    requires ValidTopology(topo) && Consistent(topo, s)
    requires t < |topo.tasks| && target < |topo.nodes| && t !in s.taskToNode
    requires Le(topo.tasks[t].demand, s.available[target])
    requires n < |topo.nodes|
    ensures ResourcesAccounted(topo, Place(topo, s, t, target), n)
  {
    var r := Place(topo, s, t, target);
    assert ResourcesAccounted(topo, s, n);
    forall k | k in topo.names
      ensures r.available[n][k] == Capacity(topo, n, k) - Used(topo, r.taskToNode, n, k) && r.available[n][k] >= 0
    {
      UsedBelowUpdate(topo, s.taskToNode, t, target, n, k, |topo.tasks|);
    }
  }

  /** A placement the corrected rule admits keeps the five views in sync. */
  lemma PlaceConsistent(topo: Topology, s: State, t: TaskId, target: NodeId)
    requires ValidTopology(topo) && Consistent(topo, s)
    requires t < |topo.tasks| && target < |topo.nodes| && t !in s.taskToNode
    requires target !in s.wfToNodes[topo.tasks[t].workflow]
    requires Le(topo.tasks[t].demand, s.available[target])
    ensures Consistent(topo, Place(topo, s, t, target))
  {
    var r := Place(topo, s, t, target);
    forall w | 0 <= w < |topo.workflows| ensures WorkflowInSync(topo, r, w) {
      PlaceInSync(topo, s, t, target, w);
    }
    forall n | 0 <= n < |topo.nodes| ensures ResourcesAccounted(topo, r, n) {
      PlaceAccounted(topo, s, t, target, n);
    }
    forall n | 0 <= n < |topo.nodes| ensures r.nodeToTasks[n] == TasksOn(r.taskToNode, n) {
      assert s.nodeToTasks[n] == TasksOn(s.taskToNode, n);
    }
  }

  lemma UnplaceInSync(topo: Topology, s: State, t: TaskId, w: WorkflowId)
    requires ValidTopology(topo) && Consistent(topo, s) && t in s.taskToNode
    requires w < |topo.workflows|
    ensures WorkflowInSync(topo, Unplace(topo, s, t), w)
  {
    var r := Unplace(topo, s, t);
    var v := s.taskToNode[t];
    var m0 := s.taskToNode - {t};
    assert s.taskToNode == m0[t := v];
    var ts, ns := topo.workflows[w].tasks, s.wfToNodes[w];
    assert WorkflowInSync(topo, s, w);
    HostNodesUpdate(ts, m0, t, v);
    TaskInOwnWorkflowOnly(topo, t, w);
    if topo.tasks[t].workflow == w {
      DeleteKeyNoDup(ns, v);
      DeleteKeyMultiset(ns, v);
      assert v in multiset(ns);
      NoDupCount(ns, v);
      assert multiset(ns)[v := 0] == HostNodes(ts, m0);
      NotAllMapped(topo, m0, t);
      HostNodesSize(ts, m0);
    } else {
      assert r.wfToNodes[w] == ns && r.wfAlloc[w] == s.wfAlloc[w];
    }
  }

  lemma UnplaceAccounted(topo: Topology, s: State, t: TaskId, n: NodeId)
    requires ValidTopology(topo) && Consistent(topo, s) && t in s.taskToNode
    requires n < |topo.nodes|
    ensures ResourcesAccounted(topo, Unplace(topo, s, t), n)
  {
    var r := Unplace(topo, s, t);
    var v := s.taskToNode[t];
    var m0 := s.taskToNode - {t};
    assert s.taskToNode == m0[t := v];
    assert ResourcesAccounted(topo, s, n);
    forall k | k in topo.names
      ensures r.available[n][k] == Capacity(topo, n, k) - Used(topo, r.taskToNode, n, k) && r.available[n][k] >= 0
    {
      UsedBelowUpdate(topo, m0, t, v, n, k, |topo.tasks|);
    }
  }

  /** `unmap` of a mapped task keeps the five views in sync. */
  lemma UnplaceConsistent(topo: Topology, s: State, t: TaskId)
    requires ValidTopology(topo) && Consistent(topo, s) && t in s.taskToNode
    ensures Consistent(topo, Unplace(topo, s, t))
  {
    var r := Unplace(topo, s, t);
    forall w | 0 <= w < |topo.workflows| ensures WorkflowInSync(topo, r, w) {
      UnplaceInSync(topo, s, t, w);
    }
    forall n | 0 <= n < |topo.nodes| ensures ResourcesAccounted(topo, r, n) {
      UnplaceAccounted(topo, s, t, n);
    }
    forall n | 0 <= n < |topo.nodes| ensures r.nodeToTasks[n] == TasksOn(r.taskToNode, n) {
      assert s.nodeToTasks[n] == TasksOn(s.taskToNode, n);
    }
  }

  /** `map` keeps the invariant whether it succeeds or not; on success the task
      sits on the target, which no other task of its workflow uses, and the
      target's room shrank by the task's demand. */
  lemma MapConsistent(topo: Topology, s: State, prev: Option<NodeId>, t: TaskId, target: NodeId)
    requires ValidTopology(topo) && Consistent(topo, s) && Refers(topo, prev, t, target)
    ensures Consistent(topo, MapStep(topo, s, prev, t, target).s)
    ensures MapStep(topo, s, prev, t, target).ok ==>
      var r := MapStep(topo, s, prev, t, target).s;
      && r.taskToNode == s.taskToNode[t := target]
      && target !in s.wfToNodes[topo.tasks[t].workflow]
      && (forall k | k in topo.names :: r.available[target][k] + topo.tasks[t].demand[k] == s.available[target][k])
  {
    if MapStep(topo, s, prev, t, target).ok {
      PlaceConsistent(topo, s, t, target);
    }
  }

  /** `unmap` keeps the invariant; on success the task is gone from every view
      and its workflow is no longer flagged allocated. */
  lemma UnmapConsistent(topo: Topology, s: State, t: TaskId)
    requires ValidTopology(topo) && Consistent(topo, s) && t < |topo.tasks|
    ensures Consistent(topo, UnmapStep(topo, s, t).s)
    ensures UnmapStep(topo, s, t).ok <==> t in s.taskToNode
    ensures UnmapStep(topo, s, t).ok ==>
      var r := UnmapStep(topo, s, t).s;
      && t !in r.taskToNode
      && (forall n | 0 <= n < |topo.nodes| :: t !in r.nodeToTasks[n])
      && !r.wfAlloc[topo.tasks[t].workflow]
  {
    if t in s.taskToNode {
      UnplaceConsistent(topo, s, t);
    }
  }

  /** A successful `map` followed by `unmap` of the same task restores every view. */
  lemma MapUnmapRoundTrip(topo: Topology, s: State, prev: Option<NodeId>, t: TaskId, target: NodeId)
    requires ValidTopology(topo) && Consistent(topo, s) && Refers(topo, prev, t, target)
    requires MapStep(topo, s, prev, t, target).ok
    ensures UnmapStep(topo, MapStep(topo, s, prev, t, target).s, t) == Step(true, s)
  {
    var w := topo.tasks[t].workflow;
    var s1 := Place(topo, s, t, target);
    var r := Unplace(topo, s1, t);
    var ns := s.wfToNodes[w];
    DeleteKeyAppended(ns, target);
    assert r.wfToNodes == s.wfToNodes;
    AllocatedIffAllMapped(topo, s, w);
    NotAllMapped(topo, s.taskToNode, t);
    assert r.wfAlloc == s.wfAlloc;
    assert r.taskToNode == s.taskToNode;
    assert t !in s.nodeToTasks[target];
    assert r.nodeToTasks == s.nodeToTasks;
    SubAddRoundTrip(s.available[target], topo.tasks[t].demand);
    assert r.available == s.available;
  }

  /** `workflow_alloc_cnt` under the invariant: the number of workflows whose
      tasks are all mapped. */
  lemma {:induction false} CountTrueCounts(bs: seq<bool>, i: nat)
    requires i <= |bs|
    ensures CountTrue(bs[i..]) == |set j | i <= j < |bs| && bs[j]|
    decreases |bs| - i
  {
    if i < |bs| {
      CountTrueCounts(bs, i + 1);
      assert bs[i..][1..] == bs[i + 1..];
      var later := set j | i + 1 <= j < |bs| && bs[j];
      if bs[i] {
        assert (set j | i <= j < |bs| && bs[j]) == {i} + later;
      } else {
        assert (set j | i <= j < |bs| && bs[j]) == later;
      }
    }
  }

  lemma AllocCountIsAllocatedWorkflows(topo: Topology, s: State)
    requires Consistent(topo, s)
    ensures CountTrue(s.wfAlloc)
         == |set w | 0 <= w < |topo.workflows| && AllMapped(topo.workflows[w].tasks, s.taskToNode)|
  {
    CountTrueCounts(s.wfAlloc, 0);
    assert s.wfAlloc[0..] == s.wfAlloc;
    forall w | 0 <= w < |topo.workflows| ensures s.wfAlloc[w] <==> AllMapped(topo.workflows[w].tasks, s.taskToNode) {
      AllocatedIffAllMapped(topo, s, w);
    }
    assert (set j | 0 <= j < |s.wfAlloc| && s.wfAlloc[j])
        == (set w | 0 <= w < |topo.workflows| && AllMapped(topo.workflows[w].tasks, s.taskToNode));
  }

  // ---------------------------------------------------------------------------
  // The first-task rule as written
  // ---------------------------------------------------------------------------

  /** The two rules differ only for a first task whose workflow already uses
      the target, which the allocators never produce: they map a first task
      only while its workflow has no node. */
  lemma AsWrittenAgreesOnEmptyWorkflow(topo: Topology, s: State, prev: Option<NodeId>, t: TaskId, target: NodeId)
    requires ValidTopology(topo) && Shaped(topo, s) && Refers(topo, prev, t, target)
    requires prev.None? ==> target !in s.wfToNodes[topo.tasks[t].workflow]
    ensures AdmissibleAsWritten(topo, s, prev, t, target) == Admissible(topo, s, prev, t, target)
    ensures MapStepAsWritten(topo, s, prev, t, target) == MapStep(topo, s, prev, t, target)
  {
  }

  /** One drone and one workflow of two tasks without resource names. */
  function TwoTaskTopology(): Topology {
    Topology([Node(Drone, map[], Within(30.0), [])], map[(0, 0) := 0.0],
             [Workflow([0, 1])], [Task(0, map[]), Task(0, map[])], {})
  }

  lemma TwoTaskTopologyValid()
    ensures ValidTopology(TwoTaskTopology())
  {
    assert NoDup(TwoTaskTopology().workflows[0].tasks);
  }

  /** Task 0 on node 0, task 1 unmapped. */
  function OneMapped(): State {
    State([false], [[0]], map[0 := 0], [{0}], [map[]])
  }

  lemma OneMappedConsistent()
    ensures Shaped(TwoTaskTopology(), OneMapped())
    ensures Consistent(TwoTaskTopology(), OneMapped())
  {
    var topo, s := TwoTaskTopology(), OneMapped();
    assert HostNodes([0, 1], s.taskToNode) == multiset{0} by {
      assert [0, 1][1..] == [1];
      assert [1][1..] == [];
      assert HostNodes([1], s.taskToNode) == HostNodes([], s.taskToNode);
    }
    assert WorkflowInSync(topo, s, 0);
    assert TasksOn(s.taskToNode, 0) == {0};
  }

  /** With task 0 on node 0, the as-written rule lets task 1 of the same
      workflow onto node 0 as a "first" task: the node list then no longer
      counts the tasks, and `unmap` of task 1 drops node 0 although task 0 is
      still there.  The corrected rule refuses the placement. */
  lemma AsWrittenFirstTaskBreaksInvariant()
    ensures ValidTopology(TwoTaskTopology()) && Shaped(TwoTaskTopology(), OneMapped())
    ensures var topo, s := TwoTaskTopology(), OneMapped();
            var bad := MapStepAsWritten(topo, s, None, 1, 0);
            && Consistent(topo, s)
            && bad.ok
            && !Consistent(topo, bad.s)
            && UnmapStep(topo, bad.s, 1).s != s
            && !MapStep(topo, s, None, 1, 0).ok
  {
    TwoTaskTopologyValid();
    OneMappedConsistent();
    var topo, s := TwoTaskTopology(), OneMapped();
    var bad := MapStepAsWritten(topo, s, None, 1, 0);
    assert bad.ok;
    var m := bad.s.taskToNode;
    assert bad.s.wfToNodes[0] == [0] && m == map[0 := 0, 1 := 0];
    assert HostNodes([0, 1], m) == multiset{0, 0} by {
      assert [0, 1][1..] == [1];
      assert [1][1..] == [];
      assert HostNodes([1], m) == multiset{0} + HostNodes([], m);
    }
    assert !WorkflowInSync(topo, bad.s, 0);
    assert UnmapStep(topo, bad.s, 1).s.wfToNodes[0] == [];
  }
}
