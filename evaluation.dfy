/** `StupidEvaluator` (evaluator.py): the distance along every allocated
    workflow's chain of nodes, and the choice of the best solution by the key
    `(-workflow_alloc_cnt, evaluate())`. */
module Evaluation {
  import opened Options
  import opened Topology
  import opened Mapping

  /** The key `get_best` minimises: `(-workflow_alloc_cnt, distance sum)`.  The
      source's key is `(-cnt, (-cnt, value))`, which orders exactly like this pair. */
  datatype Score = Score(negAllocated: int, value: real)

  /** Python's order on such tuples. */
  predicate Less(a: Score, b: Score) {
    a.negAllocated < b.negAllocated || (a.negAllocated == b.negAllocated && a.value < b.value)
  }

  /** Every task of `ts` is mapped and each consecutive pair of their nodes has a distance. */
  ghost predicate Walkable(topo: Topology, ts: seq<TaskId>, m: map<TaskId, NodeId>) {
    && AllMapped(ts, m)
    && (forall i | 0 <= i < |ts| - 1 :: (m[ts[i]], m[ts[i + 1]]) in topo.distance)
  }

  /** What `evaluate` reads without failing: the tasks of every workflow
      flagged allocated are mapped and their hops measured. */
  ghost predicate Evaluable(topo: Topology, s: State) {
    && |s.wfAlloc| == |topo.workflows|
    && (forall w | 0 <= w < |topo.workflows| && s.wfAlloc[w] :: Walkable(topo, topo.workflows[w].tasks, s.taskToNode))
  }

  /** Sum of the hop distances between the nodes of `ts[0..j]`. */
  function PathUpTo(topo: Topology, ts: seq<TaskId>, m: map<TaskId, NodeId>, j: nat): real
    requires j <= |ts| && Walkable(topo, ts, m)
  {
    if j <= 1 then 0.0
    else PathUpTo(topo, ts, m, j - 1) + topo.distance[(m[ts[j - 2]], m[ts[j - 1]])]
  }

  /** What workflow w adds to the sum: its path length if flagged allocated. */
  function WorkflowDistance(topo: Topology, s: State, w: WorkflowId): real
    requires Evaluable(topo, s) && w < |topo.workflows|
  {
    var ts := topo.workflows[w].tasks;
    if s.wfAlloc[w] then PathUpTo(topo, ts, s.taskToNode, |ts|) else 0.0
  }

  function DistanceBelow(topo: Topology, s: State, w: nat): real
    requires Evaluable(topo, s) && w <= |topo.workflows|
  {
    if w == 0 then 0.0 else DistanceBelow(topo, s, w - 1) + WorkflowDistance(topo, s, w - 1)
  }

  /** `StupidEvaluator.evaluate` as a function of the state. */
  function DistanceSum(topo: Topology, s: State): real
    requires Evaluable(topo, s)
  {
    DistanceBelow(topo, s, |topo.workflows|)
  }

  /** The loop of `StupidEvaluator.evaluate`: for every allocated workflow, the
      distance between the nodes of each pair of consecutive tasks. */
  method Evaluate(topo: Topology, s: State) returns (sumDist: real)
    requires ValidTopology(topo) && Evaluable(topo, s)
    ensures sumDist == DistanceSum(topo, s)
  {
    sumDist := 0.0;
    for w := 0 to |topo.workflows|
      invariant sumDist == DistanceBelow(topo, s, w)
    {
      if s.wfAlloc[w] {
        var ts := topo.workflows[w].tasks;
        ghost var before := sumDist;
        for i := 1 to |ts|
          invariant sumDist == before + PathUpTo(topo, ts, s.taskToNode, i)
        {
          var prevNode := s.taskToNode[ts[i - 1]];
          var curNode := s.taskToNode[ts[i]];
          sumDist := sumDist + topo.distance[(prevNode, curNode)];
        }
      }
    }
  }

  /** The score `Solution.evaluate` returns. */
  function ScoreOf(topo: Topology, s: State): Score
    requires Evaluable(topo, s)
  {
    Score(-(CountTrue(s.wfAlloc) as int), DistanceSum(topo, s))
  }

  // ---------------------------------------------------------------------------
  // Properties of the distance sum
  // ---------------------------------------------------------------------------

  /** A consistent state of a valid topology can be evaluated. */
  lemma ConsistentEvaluable(topo: Topology, s: State)
    requires ValidTopology(topo) && Consistent(topo, s)
    ensures Evaluable(topo, s)
  {
    forall w | 0 <= w < |topo.workflows| && s.wfAlloc[w]
      ensures Walkable(topo, topo.workflows[w].tasks, s.taskToNode)
    {
      AllocatedIffAllMapped(topo, s, w);
      var ts := topo.workflows[w].tasks;
      forall i | 0 <= i < |ts| - 1 ensures (s.taskToNode[ts[i]], s.taskToNode[ts[i + 1]]) in topo.distance {
        assert ts[i] in s.taskToNode && ts[i + 1] in s.taskToNode;
      }
    }
  }

  predicate NonNegativeDistances(topo: Topology) {
    forall p | p in topo.distance :: topo.distance[p] >= 0.0
  }

  lemma {:induction false} PathNonNegative(topo: Topology, ts: seq<TaskId>, m: map<TaskId, NodeId>, j: nat)
    requires j <= |ts| && Walkable(topo, ts, m) && NonNegativeDistances(topo)
    ensures PathUpTo(topo, ts, m, j) >= 0.0
  {
    if j > 1 {
      PathNonNegative(topo, ts, m, j - 1);
    }
  }

  lemma {:induction false} DistanceBelowNonNegative(topo: Topology, s: State, w: nat)
    requires Evaluable(topo, s) && w <= |topo.workflows| && NonNegativeDistances(topo)
    ensures DistanceBelow(topo, s, w) >= 0.0
  {
    if w > 0 {
      DistanceBelowNonNegative(topo, s, w - 1);
      var ts := topo.workflows[w - 1].tasks;
      if s.wfAlloc[w - 1] {
        PathNonNegative(topo, ts, s.taskToNode, |ts|);
      }
    }
  }

  /** With non-negative distances the evaluation is never negative. */
  lemma DistanceSumNonNegative(topo: Topology, s: State)
    requires Evaluable(topo, s) && NonNegativeDistances(topo)
    ensures DistanceSum(topo, s) >= 0.0
  {
    DistanceBelowNonNegative(topo, s, |topo.workflows|);
  }

  /** Two states that agree on which workflows are allocated and on where the
      tasks of the allocated ones sit: unallocated workflows are not looked at. */
  ghost predicate AgreeOnAllocated(topo: Topology, s: State, s': State)
    requires Evaluable(topo, s) && Evaluable(topo, s')
  {
    && s.wfAlloc == s'.wfAlloc
    && (forall w, i | 0 <= w < |topo.workflows| && s.wfAlloc[w] && 0 <= i < |topo.workflows[w].tasks| ::
          s.taskToNode[topo.workflows[w].tasks[i]] == s'.taskToNode[topo.workflows[w].tasks[i]])
  }

  lemma {:induction false} PathFrame(topo: Topology, ts: seq<TaskId>, m: map<TaskId, NodeId>, m': map<TaskId, NodeId>, j: nat)
    requires j <= |ts| && Walkable(topo, ts, m) && Walkable(topo, ts, m')
    requires forall i | 0 <= i < |ts| :: m[ts[i]] == m'[ts[i]]
    ensures PathUpTo(topo, ts, m, j) == PathUpTo(topo, ts, m', j)
  {
    if j > 1 {
      PathFrame(topo, ts, m, m', j - 1);
    }
  }

  lemma {:induction false} DistanceBelowFrame(topo: Topology, s: State, s': State, w: nat)
    requires Evaluable(topo, s) && Evaluable(topo, s') && w <= |topo.workflows|
    requires AgreeOnAllocated(topo, s, s')
    ensures DistanceBelow(topo, s, w) == DistanceBelow(topo, s', w)
  {
    if w > 0 {
      DistanceBelowFrame(topo, s, s', w - 1);
      var ts := topo.workflows[w - 1].tasks;
      if s.wfAlloc[w - 1] {
        PathFrame(topo, ts, s.taskToNode, s'.taskToNode, |ts|);
      }
    }
  }

  /** Only allocated workflows count: the evaluation depends on nothing but the
      allocation flags and the nodes of the allocated workflows' tasks. */
  lemma DistanceSumOnlyAllocated(topo: Topology, s: State, s': State)
    requires Evaluable(topo, s) && Evaluable(topo, s')
    requires AgreeOnAllocated(topo, s, s')
    ensures DistanceSum(topo, s) == DistanceSum(topo, s')
  {
    DistanceBelowFrame(topo, s, s', |topo.workflows|);
  }

  lemma {:induction false} DistanceBelowSingleTasks(topo: Topology, s: State, w: nat)
    requires Evaluable(topo, s) && w <= |topo.workflows|
    requires forall v | 0 <= v < |topo.workflows| && s.wfAlloc[v] :: |topo.workflows[v].tasks| <= 1
    ensures DistanceBelow(topo, s, w) == 0.0
  {
    if w > 0 {
      DistanceBelowSingleTasks(topo, s, w - 1);
    }
  }

  /** Single-task workflows have no hop, so if every allocated workflow has
      one task the evaluation is 0. */
  lemma SingleTaskWorkflowsCostNothing(topo: Topology, s: State)
    requires Evaluable(topo, s)
    requires forall v | 0 <= v < |topo.workflows| && s.wfAlloc[v] :: |topo.workflows[v].tasks| <= 1
    ensures DistanceSum(topo, s) == 0.0
  {
    DistanceBelowSingleTasks(topo, s, |topo.workflows|);
  }

  // ---------------------------------------------------------------------------
  // get_best
  // ---------------------------------------------------------------------------

  /** `Evaluator.get_best`: the first element, or None for an empty list. */
  function FirstOrNone<T>(xs: seq<T>): (r: Option<T>)
    ensures r.None? <==> |xs| == 0
    ensures r.Some? ==> r.value in xs && r.value == xs[0]
  {
    if |xs| > 0 then Some(xs[0]) else None
  }

  /** `min(..., key=...)`: the position of the first smallest key. */
  function ArgMin(keys: seq<Score>): (r: Option<nat>)
    ensures r.None? <==> |keys| == 0
    ensures r.Some? ==> r.value < |keys|
    ensures r.Some? ==> forall j | 0 <= j < |keys| :: !Less(keys[j], keys[r.value])
    ensures r.Some? ==> forall j | 0 <= j < r.value :: Less(keys[r.value], keys[j])
  {
    if |keys| == 0 then None
    else
      var init := ArgMin(keys[..|keys| - 1]);
      if init.None? || Less(keys[|keys| - 1], keys[init.value]) then Some(|keys| - 1) else init
  }

  /** `max(..., key=...)`: the position of the first largest key. */
  function ArgMax(keys: seq<Score>): (r: Option<nat>)
    ensures r.None? <==> |keys| == 0
    ensures r.Some? ==> r.value < |keys|
    ensures r.Some? ==> forall j | 0 <= j < |keys| :: !Less(keys[r.value], keys[j])
    ensures r.Some? ==> forall j | 0 <= j < r.value :: Less(keys[j], keys[r.value])
  {
    if |keys| == 0 then None
    else
      var init := ArgMax(keys[..|keys| - 1]);
      if init.None? || Less(keys[init.value], keys[|keys| - 1]) then Some(|keys| - 1) else init
  }
}
