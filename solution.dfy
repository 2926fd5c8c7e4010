/** The `Solution` class (solution.py): five mutable views of one
    task-to-node assignment.  Every method is proved to leave the views equal
    to the matching function of `Mapping` applied to the views it found, and to
    keep them consistent.  `get_best` of the distance evaluator over a list of
    solutions lives here too because it calls `evaluate` on each of them. */
module Solutions {
  import opened Options
  import opened ResourceVectors
  import opened Topology
  import opened Mapping
  import opened Evaluation

  class Solution {
    const topo: Topology
    var wfAlloc: seq<bool>
    var wfToNodes: seq<seq<NodeId>>
    var taskToNode: map<TaskId, NodeId>
    var nodeToTasks: seq<set<TaskId>>
    var available: seq<Resources>
    /** The last evaluation and whether the views changed since. */
    var value: real
    var requireEvaluation: bool

    /** The five views as one value. */
    function Views(): State
      reads this
    {
      State(wfAlloc, wfToNodes, taskToNode, nodeToTasks, available)
    }

    /** The class invariant: the views are in sync over a valid topology. */
    ghost predicate Valid()
      reads this
    {
      ValidTopology(topo) && Consistent(topo, Views())
    }

    /** `Solution.__init__`. */
    constructor (topo: Topology)
      requires ValidTopology(topo)
      ensures this.topo == topo && Views() == Initial(topo) && Valid()
      ensures value == 0.0 && requireEvaluation
    {
      this.topo := topo;
      wfAlloc := seq(|topo.workflows|, _ => false);
      wfToNodes := seq(|topo.workflows|, _ => []);
      taskToNode := map[];
      nodeToTasks := seq(|topo.nodes|, _ => {});
      available := seq(|topo.nodes|, n requires 0 <= n < |topo.nodes| => topo.nodes[n].capacity);
      value := 0.0;
      requireEvaluation := true;
      new;
      InitialConsistent(topo);
    }

    /** `mappable(prev_node, task, target_node)`, with the workflow's nodes
        excluded for the first task too. */
    method Mappable(prev: Option<NodeId>, t: TaskId, target: NodeId) returns (ok: bool)
      requires Valid() && Refers(topo, prev, t, target)
      ensures ok == Admissible(topo, Views(), prev, t, target)
    {
      var task := topo.tasks[t];
      var firstTask := prev.None?;
      var resourceOk := Le(task.demand, available[target]);
      var visited := target in wfToNodes[task.workflow];
      var connected := if !firstTask then target in topo.nodes[prev.value].neighbors else true;
      ok := (firstTask && !visited && resourceOk) || (!firstTask && !visited && connected && resourceOk);
    }

    /** `map(prev_node, task, target_node)`. */
    method Map(prev: Option<NodeId>, t: TaskId, target: NodeId) returns (ok: bool)
      requires Valid() && Refers(topo, prev, t, target)
      modifies this
      ensures Valid()
      ensures Step(ok, Views()) == MapStep(topo, old(Views()), prev, t, target)
      ensures value == old(value) && requireEvaluation == (ok || old(requireEvaluation))
    {
      MapConsistent(topo, Views(), prev, t, target);
      if t in taskToNode {
        return false;
      }
      var admissible := Mappable(prev, t, target);
      if !admissible {
        return false;
      }
      var task := topo.tasks[t];
      var w := task.workflow;
      wfToNodes := wfToNodes[w := InsertKey(wfToNodes[w], target)];
      if |wfToNodes[w]| == |topo.workflows[w].tasks| {
        wfAlloc := wfAlloc[w := true];
      }
      taskToNode := taskToNode[t := target];
      nodeToTasks := nodeToTasks[target := nodeToTasks[target] + {t}];
      available := available[target := Sub(available[target], task.demand)];
      requireEvaluation := true;
      ok := true;
    }

    /** `unmap(task)`. */
    method Unmap(t: TaskId) returns (ok: bool)
      requires Valid() && t < |topo.tasks|
      modifies this
      ensures Valid()
      ensures Step(ok, Views()) == UnmapStep(topo, old(Views()), t)
      ensures value == old(value) && requireEvaluation == (ok || old(requireEvaluation))
    {
      UnmapConsistent(topo, Views(), t);
      if t !in taskToNode {
        return false;
      }
      var target := taskToNode[t];
      var task := topo.tasks[t];
      var w := task.workflow;
      wfToNodes := wfToNodes[w := DeleteKey(wfToNodes[w], target)];
      wfAlloc := wfAlloc[w := false];
      taskToNode := taskToNode - {t};
      nodeToTasks := nodeToTasks[target := nodeToTasks[target] - {t}];
      available := available[target := Add(available[target], task.demand)];
      requireEvaluation := true;
      ok := true;
    }

    /** `workflow_alloc_cnt`: the number of workflows whose tasks are all mapped. */
    function WorkflowAllocCnt(): (c: nat)
      reads this
      requires Valid()
      ensures c == |set w | 0 <= w < |topo.workflows| && AllMapped(topo.workflows[w].tasks, taskToNode)|
    {
      AllocCountIsAllocatedWorkflows(topo, Views());
      CountTrue(wfAlloc)
    }

    /** `is_allocated(wf)`: whether every task of the workflow is mapped. */
    function IsAllocated(w: WorkflowId): (b: bool)
      reads this
      requires Valid() && w < |topo.workflows|
      ensures b <==> AllMapped(topo.workflows[w].tasks, taskToNode)
    {
      AllocatedIffAllMapped(topo, Views(), w);
      wfAlloc[w]
    }

    /** `assigned_nodes(workflow)`: the distinct nodes of the workflow's mapped
        tasks, in the order they were taken. */
    function AssignedNodes(w: WorkflowId): (ns: seq<NodeId>)
      reads this
      requires Valid() && w < |topo.workflows|
      ensures NoDup(ns) && multiset(ns) == HostNodes(topo.workflows[w].tasks, taskToNode)
    {
      assert WorkflowInSync(topo, Views(), w);
      wfToNodes[w]
    }

    /** The key `evaluate()` returns for the current views. */
    function Key(): Score
      reads this
      requires Valid()
    {
      ConsistentEvaluable(topo, Views());
      ScoreOf(topo, Views())
    }

    /** `evaluate()`: refreshes the cached distance sum and returns
        `(-workflow_alloc_cnt, value)`. */
    method Evaluate() returns (score: Score)
      requires Valid()
      modifies this
      ensures Views() == old(Views()) && Valid()
      ensures Evaluable(topo, Views()) && value == DistanceSum(topo, Views()) && !requireEvaluation
      ensures score == Key() && score.negAllocated <= 0
    {
      ConsistentEvaluable(topo, Views());
      var v := Evaluation.Evaluate(topo, Views());
      value := v;
      requireEvaluation := false;
      score := Score(-(WorkflowAllocCnt() as int), value);
    }

    /** `clone()`: a fresh solution holding copies of all views. */
    method Clone() returns (c: Solution)
      requires Valid()
      ensures fresh(c) && c.topo == topo && c.Valid()
      ensures c.Views() == Views() && c.value == value && c.requireEvaluation == requireEvaluation
    {
      c := new Solution(topo);
      c.wfAlloc := wfAlloc;
      c.wfToNodes := wfToNodes;
      c.taskToNode := taskToNode;
      c.nodeToTasks := nodeToTasks;
      c.available := available;
      c.value := value;
      c.requireEvaluation := requireEvaluation;
    }
  }

  /** Changing a clone leaves the original as it was. */
  method CloneIsIndependent(sol: Solution, prev: Option<NodeId>, t: TaskId, target: NodeId) returns (c: Solution)
    requires sol.Valid() && Refers(sol.topo, prev, t, target)
    ensures fresh(c) && c.Valid()
    ensures sol.Views() == old(sol.Views())
    ensures c.Views() == MapStep(sol.topo, sol.Views(), prev, t, target).s
  {
    c := sol.Clone();
    var _ := c.Map(prev, t, target);
  }

  /** The keys of a list of solutions. */
  function Keys(sols: seq<Solution>): (keys: seq<Score>)
    reads set s | s in sols
    requires forall s | s in sols :: s.Valid()
    ensures |keys| == |sols|
    ensures forall j | 0 <= j < |sols| :: keys[j] == sols[j].Key()
  {
    if sols == [] then [] else Keys(sols[..|sols| - 1]) + [sols[|sols| - 1].Key()]
  }

  /** `StupidEvaluator.get_best(solutions)`: evaluates every solution and returns
      the first whose key is smallest (most allocated workflows, then shortest
      distance), or null for an empty list. */
  method GetBest(sols: seq<Solution>) returns (best: Solution?)
    requires forall s | s in sols :: s.Valid()
    modifies set s | s in sols
    ensures forall s | s in sols :: s.Valid() && s.Views() == old(s.Views())
    ensures best == null <==> |sols| == 0
    ensures best != null ==> best == sols[ArgMin(Keys(sols)).value]
  {
    if |sols| == 0 {
      return null;
    }
    var keys: seq<Score> := [];
    for i := 0 to |sols|
      invariant forall s | s in sols :: s.Valid() && s.Views() == old(s.Views())
      invariant |keys| == i && forall j | 0 <= j < i :: keys[j] == sols[j].Key()
    {
      var k := sols[i].Evaluate();
      keys := keys + [k];
    }
    assert keys == Keys(sols);
    best := sols[ArgMin(keys).value];
  }
}
