/** The sampling solvers (solver.py): `Solver.solve` runs the allocator once,
    `SimpleSolver.solve` runs it `size` times and keeps the best result, and
    `OptimalSolver` is a `SimpleSolver` of size one.  Every allocator call
    fills in the allocator's one `Solution` object, so the list of results the
    solver keeps holds that same object `size` times. */
module Solvers {
  import opened Topology
  import opened Mapping
  import opened Evaluation
  import opened Solutions
  import opened Allocation

  /** The `size` a `SimpleSolver` samples when none is given. */
  const DefaultSize: int := 100000

  /** The number of times `range(size)` runs its body. */
  function Rounds(size: int): (n: nat)
    ensures size <= 0 ==> n == 0
    ensures size > 0 ==> n == size
  {
    if size > 0 then size else 0
  }

  /** The allocator's state after k calls of `allocate_workflows`. */
  function Repeated(topo: Topology, cfg: Config, s: State, draws: nat, k: nat): (r: Run)
    requires ValidTopology(topo) && Shaped(topo, s)
    ensures Shaped(topo, r.s)
    decreases k, 1
  {
    if k == 0 then Run(s, draws) else LastPass(topo, cfg, s, draws, k)
  }

  /** Call k of `allocate_workflows`, on the state the k - 1 before it left. */
  function LastPass(topo: Topology, cfg: Config, s: State, draws: nat, k: nat): (r: Run)
    requires ValidTopology(topo) && Shaped(topo, s) && k >= 1
    ensures Shaped(topo, r.s)
    decreases k, 0
  {
    var p := Repeated(topo, cfg, s, draws, k - 1);
    AllocateAll(topo, cfg, p.s, p.draws)
  }

  /** Pass k + 1 is `allocate_workflows` on the state of the first k. */
  lemma RepeatedStep(topo: Topology, cfg: Config, s: State, draws: nat, k: nat)
    requires ValidTopology(topo) && Shaped(topo, s)
    ensures Repeated(topo, cfg, s, draws, k + 1)
         == AllocateAll(topo, cfg, Repeated(topo, cfg, s, draws, k).s, Repeated(topo, cfg, s, draws, k).draws)
  {
  }

  /** One more pass of `allocate_workflows`, as `SimpleSolver.solve` makes
      on the shared solution, keeps the views consistent and all-or-none, and
      keeps every mapped task where it is. */
  lemma PassKeeps(topo: Topology, cfg: Config, p: State, draws: nat)
    requires ValidTopology(topo) && Consistent(topo, p) && AllOrNone(topo, p)
    ensures Consistent(topo, AllocateAll(topo, cfg, p, draws).s) && AllOrNone(topo, AllocateAll(topo, cfg, p, draws).s)
    ensures forall t | t in p.taskToNode ::
      t in AllocateAll(topo, cfg, p, draws).s.taskToNode && AllocateAll(topo, cfg, p, draws).s.taskToNode[t] == p.taskToNode[t]
  {
    AllocateFromKeeps(topo, cfg, p, draws, 0);
  }

  /** One more pass adds only chained workflows to those allocated since s. */
  lemma PassChains(topo: Topology, cfg: Config, s: State, p: State, draws: nat)
    requires ValidTopology(topo) && Consistent(topo, p) && AllOrNone(topo, p) && ChainsSince(topo, s, p, 0)
    ensures ChainsSince(topo, s, AllocateAll(topo, cfg, p, draws).s, 0)
  {
    PassKeeps(topo, cfg, p, draws);
    AllocateFromChains(topo, cfg, p, draws, 0);
    ChainsCompose(topo, s, p, AllocateAll(topo, cfg, p, draws).s);
  }

  /** Chains made since s and then since p are chains made since s, when the
      second stretch keeps every task the first one mapped. */
  lemma ChainsCompose(topo: Topology, s: State, p: State, r: State)
    requires ChainsSince(topo, s, p, 0) && ChainsSince(topo, p, r, 0)
    requires forall t | t in p.taskToNode :: t in r.taskToNode && r.taskToNode[t] == p.taskToNode[t]
    ensures ChainsSince(topo, s, r, 0)
  {
    forall v | 0 <= v < |topo.workflows| && AllMapped(topo.workflows[v].tasks, r.taskToNode)
      ensures AllMapped(topo.workflows[v].tasks, s.taskToNode) || Chained(topo, topo.workflows[v].tasks, r.taskToNode)
    {
      if AllMapped(topo.workflows[v].tasks, p.taskToNode) && !AllMapped(topo.workflows[v].tasks, s.taskToNode) {
        ChainedGrows(topo, topo.workflows[v].tasks, p.taskToNode, r.taskToNode);
      }
    }
  }

  /** Once every workflow is allocated, further calls change nothing. */
  lemma {:induction false} RepeatedSettled(topo: Topology, cfg: Config, s: State, draws: nat, k: nat)
    requires ValidTopology(topo) && Consistent(topo, s)
    requires forall v | 0 <= v < |topo.workflows| :: AllMapped(topo.workflows[v].tasks, s.taskToNode)
    ensures Repeated(topo, cfg, s, draws, k).s == s
  {
    if k > 0 {
      RepeatedSettled(topo, cfg, s, draws, k - 1);
      var p := Repeated(topo, cfg, s, draws, k - 1);
      AllocateFromAllocated(topo, cfg, p.s, p.draws, 0);
    }
  }

  /** `Solver.solve`: whatever `allocate_workflows` returns, which is the
      allocator's own solution. */
  method BaseSolve(allocator: Allocator) returns (sol: Solution)
    requires allocator.Valid()
    modifies allocator, allocator.solution
    ensures allocator.Valid() && sol == allocator.solution
    ensures Run(sol.Views(), allocator.draws)
         == AllocateAll(allocator.topo, allocator.cfg, old(allocator.solution.Views()), old(allocator.draws))
  {
    sol := allocator.AllocateWorkflows();
  }

  /** `SimpleSolver` and, through its `Optimal` constructor, `OptimalSolver`.
      The evaluator is fixed to the distance evaluator of `Evaluation`. */
  class SimpleSolver {
    const topo: Topology
    const allocator: Allocator
    const size: int

    ghost predicate Valid()
      reads this, allocator, allocator.solution
    {
      allocator.Valid() && allocator.topo == topo
    }

    /** `SimpleSolver(topology, allocator, evaluator, size)`. */
    constructor (topo: Topology, allocator: Allocator, size: int)
      requires allocator.Valid() && allocator.topo == topo
      ensures Valid() && this.topo == topo && this.allocator == allocator && this.size == size
    {
      this.topo := topo;
      this.allocator := allocator;
      this.size := size;
    }

    /** `SimpleSolver(topology, allocator, evaluator)` with the default size. */
    constructor WithDefaultSize(topo: Topology, allocator: Allocator)
      requires allocator.Valid() && allocator.topo == topo
      ensures Valid() && this.topo == topo && this.allocator == allocator && size == DefaultSize
    {
      this.topo := topo;
      this.allocator := allocator;
      this.size := DefaultSize;
    }

    /** `OptimalSolver(topology, allocator, evaluator)`: one sample. */
    constructor Optimal(topo: Topology, allocator: Allocator)
      requires allocator.Valid() && allocator.topo == topo
      ensures Valid() && this.topo == topo && this.allocator == allocator && size == 1
    {
      this.topo := topo;
      this.allocator := allocator;
      this.size := 1;
    }

    /** The sampling loop of `solve()`: `size` calls of the allocator, every
        (always truthy) result kept.  Each kept result is the allocator's own
        solution, which ends up holding the state of `size` allocation passes. */
    method Sample() returns (solutions: seq<Solution>)
      requires Valid()
      modifies allocator, allocator.solution
      ensures Valid()
      ensures |solutions| == Rounds(size) && forall j | 0 <= j < |solutions| :: solutions[j] == allocator.solution
      ensures Run(allocator.solution.Views(), allocator.draws)
           == Repeated(topo, allocator.cfg, old(allocator.solution.Views()), old(allocator.draws), Rounds(size))
    {
      solutions := [];
      var k: nat := 0;
      ghost var s0, d0 := allocator.solution.Views(), allocator.draws;
      while k < Rounds(size)
        invariant k <= Rounds(size) && Valid()
        invariant |solutions| == k && forall j | 0 <= j < k :: solutions[j] == allocator.solution
        invariant Run(allocator.solution.Views(), allocator.draws) == Repeated(topo, allocator.cfg, s0, d0, k)
      {
        ghost var before := Run(allocator.solution.Views(), allocator.draws);
        var sol := allocator.AllocateWorkflows();
        assert Run(allocator.solution.Views(), allocator.draws) == AllocateAll(topo, allocator.cfg, before.s, before.draws);
        solutions := solutions + [sol];
        k := k + 1;
      }
    }

    /** `solve()`: the best of `size` samples, null when nothing was sampled.
        All samples are the allocator's own solution, so the best is that
        object, holding the state of `size` allocation passes. */
    method Solve() returns (best: Solution?)
      requires Valid()
      modifies allocator, allocator.solution
      ensures Valid()
      ensures best == null <==> size <= 0
      ensures best != null ==> best == allocator.solution
      ensures Run(allocator.solution.Views(), allocator.draws)
           == Repeated(topo, allocator.cfg, old(allocator.solution.Views()), old(allocator.draws), Rounds(size))
    {
      var solutions := Sample();
      best := GetBest(solutions);
    }
  }
}
