/** `MarkovSolver` (solver_ma.py): starting from one allocation, it sweeps
    every workflow, proposes for each task after the first a clone in which
    only that task moves to another node, and then jumps to one of all the
    proposals collected so far, chosen by cumulative transition rate.  The
    sweep reads the node of every task of every workflow of two or more
    tasks, so a workflow left unallocated makes it raise `KeyError`. */
module Markov {
  import opened Options
  import opened ResourceVectors
  import opened Topology
  import opened Mapping
  import opened Evaluation
  import opened Solutions
  import opened Allocation
  import opened Solvers

  /** `MarkovSolverParameters`. */
  datatype MarkovParams = MarkovParams(nIteration: int, beta: int)

  /** `n_iter_iter`: the number of independent runs `solve` keeps the best of. */
  const RunsPerSolve: nat := 10

  /** A call that either raises `KeyError` or returns a value. */
  datatype Attempt<T> = KeyError | Returned(value: T)

  // ---------------------------------------------------------------------------
  // Proposals
  // ---------------------------------------------------------------------------

  /** The sweep's triple i of workflow w reads the nodes of `tasks[i-1]`,
      `tasks[i]` and, when there is one, `tasks[i+1]`. */
  predicate TripleMapped(topo: Topology, s: State, w: WorkflowId, i: nat)
    requires w < |topo.workflows| && 1 <= i < |topo.workflows[w].tasks|
  {
    var ts := topo.workflows[w].tasks;
    ts[i - 1] in s.taskToNode && ts[i] in s.taskToNode && (i + 1 < |ts| ==> ts[i + 1] in s.taskToNode)
  }

  /** The triples of workflow w before i all read mapped tasks. */
  ghost predicate TriplesMappedBelow(topo: Topology, s: State, w: WorkflowId, i: nat)
    requires w < |topo.workflows| && i <= |topo.workflows[w].tasks|
  {
    forall j | 1 <= j < i :: TripleMapped(topo, s, w, j)
  }

  /** One more mapped triple extends the mapped prefix. */
  lemma BelowStep(topo: Topology, s: State, w: WorkflowId, i: nat)
    requires w < |topo.workflows| && 1 <= i < |topo.workflows[w].tasks|
    requires TriplesMappedBelow(topo, s, w, i) && TripleMapped(topo, s, w, i)
    ensures TriplesMappedBelow(topo, s, w, i + 1)
  {
  }

  /** Every triple of a workflow reads mapped tasks exactly when the workflow
      has fewer than two tasks or all of them are mapped. */
  lemma TriplesMappedIffAllMapped(topo: Topology, s: State, w: WorkflowId)
    requires w < |topo.workflows|
    ensures var ts := topo.workflows[w].tasks;
      TriplesMappedBelow(topo, s, w, |ts|) <==> (|ts| >= 2 ==> AllMapped(ts, s.taskToNode))
  {
    var ts := topo.workflows[w].tasks;
    if TriplesMappedBelow(topo, s, w, |ts|) && |ts| >= 2 {
      forall k | 0 <= k < |ts|
        ensures ts[k] in s.taskToNode
      {
        if k == 0 {
          assert TripleMapped(topo, s, w, 1);
        } else {
          assert TripleMapped(topo, s, w, k);
        }
      }
    }
  }

  /** Every workflow of two or more tasks has all its tasks mapped, so the
      sweep finds every node it reads. */
  ghost predicate Sweepable(topo: Topology, s: State) {
    forall w | 0 <= w < |topo.workflows| && |topo.workflows[w].tasks| >= 2 ::
      AllMapped(topo.workflows[w].tasks, s.taskToNode)
  }

  /** The candidate nodes for `tasks[i]` of workflow w: all nodes, minus those
      the workflow already uses, intersected with the neighbours of the next
      task's node when there is a next task, minus the task's own node, and
      filtered by `mappable` from the previous task's node. */
  function Replacements(topo: Topology, s: State, w: WorkflowId, i: nat): set<NodeId>
    requires ValidTopology(topo) && Consistent(topo, s)
    requires w < |topo.workflows| && 1 <= i < |topo.workflows[w].tasks| && TripleMapped(topo, s, w, i)
  {
    var ts := topo.workflows[w].tasks;
    var node1 := s.taskToNode[ts[i - 1]];
    var node2 := s.taskToNode[ts[i]];
    var unused := (set n | n in Iota(|topo.nodes|)) - (set n | n in s.wfToNodes[w]);
    var near := if i + 1 < |ts| then
        var nbrs := topo.nodes[s.taskToNode[ts[i + 1]]].neighbors;
        unused * (set n | n in nbrs)
      else unused;
    var others := near - {node2};
    set n | n in others && Admissible(topo, s, Some(node1), ts[i], n)
  }

  /** A clone of s with task t unmapped and then mapped from `prev` onto `target`. */
  function Relocate(topo: Topology, s: State, t: TaskId, prev: NodeId, target: NodeId): State
    requires ValidTopology(topo) && Shaped(topo, s)
    requires t < |topo.tasks| && prev < |topo.nodes| && target < |topo.nodes|
  {
    MapStep(topo, UnmapStep(topo, s, t).s, Some(prev), t, target).s
  }

  /** r is reached from s by relocating tasks: the same tasks are mapped, the
      same workflows are allocated, and, over symmetric links, every workflow
      whose tasks sat on a chain of neighbouring nodes still does. */
  ghost predicate Relocated(topo: Topology, s: State, r: State) {
    && r.taskToNode.Keys == s.taskToNode.Keys
    && r.wfAlloc == s.wfAlloc
    && (SymmetricLinks(topo) ==>
          forall v | 0 <= v < |topo.workflows| && Chained(topo, topo.workflows[v].tasks, s.taskToNode) ::
            Chained(topo, topo.workflows[v].tasks, r.taskToNode))
  }

  /** r is the proposal made for triple i of workflow w in s. */
  ghost predicate MovedAt(topo: Topology, s: State, w: WorkflowId, i: nat, r: State)
    requires ValidTopology(topo) && Consistent(topo, s) && w < |topo.workflows| && 1 <= i < |topo.workflows[w].tasks|
  {
    var ts := topo.workflows[w].tasks;
    && TripleMapped(topo, s, w, i)
    && ts[i] in r.taskToNode
    && r.taskToNode[ts[i]] in Replacements(topo, s, w, i)
    && r == Relocate(topo, s, ts[i], s.taskToNode[ts[i - 1]], r.taskToNode[ts[i]])
  }

  /** c is a live proposal for triple i of workflow w of s. */
  ghost predicate Proposal(topo: Topology, s: State, w: WorkflowId, i: nat, c: Solution)
    reads c
    requires ValidTopology(topo) && Consistent(topo, s) && w < |topo.workflows|
  {
    && 1 <= i < |topo.workflows[w].tasks|
    && c.Valid() && c.topo == topo
    && MovedAt(topo, s, w, i, c.Views())
  }

  /** c is a live solution reached from `start` by relocating tasks. */
  ghost predicate Descends(topo: Topology, start: State, c: Solution)
    reads c
  {
    c.Valid() && c.topo == topo && Relocated(topo, start, c.Views())
  }

  /** A candidate node is outside the workflow's nodes, a neighbour of the next
      task's node (if any), not the task's own node, a neighbour of the previous
      task's node, and has room for the task. */
  lemma ReplacementsMembers(topo: Topology, s: State, w: WorkflowId, i: nat, n: NodeId)
    requires ValidTopology(topo) && Consistent(topo, s)
    requires w < |topo.workflows| && 1 <= i < |topo.workflows[w].tasks| && TripleMapped(topo, s, w, i)
    ensures var ts := topo.workflows[w].tasks;
      n in Replacements(topo, s, w, i) <==>
        && n < |topo.nodes|
        && n !in s.wfToNodes[w]
        && (i + 1 < |ts| ==> n in topo.nodes[s.taskToNode[ts[i + 1]]].neighbors)
        && n != s.taskToNode[ts[i]]
        && n in topo.nodes[s.taskToNode[ts[i - 1]]].neighbors
        && Le(topo.tasks[ts[i]].demand, s.available[n])
  {
    var nodes := Iota(|topo.nodes|);
    if n < |topo.nodes| {
      assert nodes[n] == n;
    }
  }

  /** Every candidate node is accepted: after `unmap`, `map` from the previous
      node succeeds, the views stay consistent, only the task's node changes,
      and the same workflows stay allocated. */
  lemma RelocateAccepted(topo: Topology, s: State, w: WorkflowId, i: nat, n: NodeId)
    requires ValidTopology(topo) && Consistent(topo, s)
    requires w < |topo.workflows| && 1 <= i < |topo.workflows[w].tasks| && TripleMapped(topo, s, w, i)
    requires n in Replacements(topo, s, w, i)
    ensures var ts := topo.workflows[w].tasks;
      var u := UnmapStep(topo, s, ts[i]);
      && u.ok && MapStep(topo, u.s, Some(s.taskToNode[ts[i - 1]]), ts[i], n).ok
      && Consistent(topo, Relocate(topo, s, ts[i], s.taskToNode[ts[i - 1]], n))
      && Relocate(topo, s, ts[i], s.taskToNode[ts[i - 1]], n).taskToNode == s.taskToNode[ts[i] := n]
      && Relocate(topo, s, ts[i], s.taskToNode[ts[i - 1]], n).wfAlloc == s.wfAlloc
  {
    var ts := topo.workflows[w].tasks;
    var t, node1, node2 := ts[i], s.taskToNode[ts[i - 1]], s.taskToNode[ts[i]];
    assert topo.tasks[t].workflow == w;
    UnmapConsistent(topo, s, t);
    var u := UnmapStep(topo, s, t);
    DeleteKeyMembers(s.wfToNodes[w], node2, n);
    assert n !in u.s.wfToNodes[w];
    assert u.s.available[n] == s.available[n];
    assert MapStep(topo, u.s, Some(node1), t, n).ok;
    MapConsistent(topo, u.s, Some(node1), t, n);
    var r := MapStep(topo, u.s, Some(node1), t, n).s;
    assert r.taskToNode == s.taskToNode[t := n];
    forall v | 0 <= v < |topo.workflows|
      ensures r.wfAlloc[v] == s.wfAlloc[v]
    {
      AllocatedIffAllMapped(topo, r, v);
      AllocatedIffAllMapped(topo, s, v);
    }
  }

  /** Over symmetric links, moving `tasks[i]` to a candidate node keeps its
      workflow a chain of neighbouring nodes and leaves every other workflow
      as it was. */
  lemma RelocateKeepsChains(topo: Topology, s: State, w: WorkflowId, i: nat, n: NodeId, v: WorkflowId)
    requires ValidTopology(topo) && Consistent(topo, s) && SymmetricLinks(topo)
    requires w < |topo.workflows| && 1 <= i < |topo.workflows[w].tasks| && TripleMapped(topo, s, w, i)
    requires n in Replacements(topo, s, w, i)
    requires v < |topo.workflows| && Chained(topo, topo.workflows[v].tasks, s.taskToNode)
    ensures Chained(topo, topo.workflows[v].tasks, s.taskToNode[topo.workflows[w].tasks[i] := n])
  {
    var ts, vs := topo.workflows[w].tasks, topo.workflows[v].tasks;
    var t := ts[i];
    var m := s.taskToNode[t := n];
    ReplacementsMembers(topo, s, w, i, n);
    forall j | 0 <= j < |vs| - 1
      ensures m[vs[j]] < |topo.nodes| && m[vs[j + 1]] in topo.nodes[m[vs[j]]].neighbors
    {
      if v == w {
        if j + 1 == i {
          assert vs[j] == ts[i - 1] && vs[j] != t;
        } else if j == i {
          assert vs[j + 1] == ts[i + 1] && vs[j + 1] != t;
          assert n in topo.nodes[s.taskToNode[ts[i + 1]]].neighbors;
        } else {
          assert vs[j] != t && vs[j + 1] != t;
        }
      } else {
        TaskInOwnWorkflowOnly(topo, t, v);
        assert vs[j] != t && vs[j + 1] != t;
      }
    }
  }

  /** Every proposal is a relocation. */
  lemma MovedAtRelocated(topo: Topology, s: State, w: WorkflowId, i: nat, r: State)
    requires ValidTopology(topo) && Consistent(topo, s)
    requires w < |topo.workflows| && 1 <= i < |topo.workflows[w].tasks| && MovedAt(topo, s, w, i, r)
    ensures Relocated(topo, s, r)
  {
    var ts := topo.workflows[w].tasks;
    var n := r.taskToNode[ts[i]];
    RelocateAccepted(topo, s, w, i, n);
    if SymmetricLinks(topo) {
      forall v | 0 <= v < |topo.workflows| && Chained(topo, topo.workflows[v].tasks, s.taskToNode)
        ensures Chained(topo, topo.workflows[v].tasks, r.taskToNode)
      {
        RelocateKeepsChains(topo, s, w, i, n, v);
      }
    }
  }

  /** Relocation composes. */
  lemma RelocatedTransitive(topo: Topology, s: State, r: State, q: State)
    requires Relocated(topo, s, r) && Relocated(topo, r, q)
    ensures Relocated(topo, s, q)
  {
  }

  /** Relocation keeps the tasks the sweep reads, so whether it raises
      `KeyError` depends only on the allocation it started from. */
  lemma RelocatedSweepable(topo: Topology, s: State, r: State)
    requires Relocated(topo, s, r)
    ensures Sweepable(topo, r) <==> Sweepable(topo, s)
  {
  }

  /** Over the links `__init__` builds, a relocation keeps every workflow
      whose tasks sat on a chain of neighbouring nodes on such a chain. */
  lemma BuiltRelocatedKeepsChains(topo: Topology, drones: seq<NodeId>, edges: seq<NodeId>, clouds: seq<NodeId>,
                                  s: State, r: State, v: WorkflowId)
    requires BuiltLinks(topo, drones, edges, clouds) && Relocated(topo, s, r)
    requires v < |topo.workflows| && Chained(topo, topo.workflows[v].tasks, s.taskToNode)
    ensures Chained(topo, topo.workflows[v].tasks, r.taskToNode)
  {
    BuiltLinksSymmetric(topo, drones, edges, clouds);
  }

  /** The indices from i on whose triple is mapped and has a candidate node:
      the proposals one sweep of workflow w makes, in order. */
  ghost function Movable(topo: Topology, s: State, w: WorkflowId, i: nat): seq<nat>
    requires ValidTopology(topo) && Consistent(topo, s) && w < |topo.workflows| && 1 <= i
    decreases |topo.workflows[w].tasks| - i
  {
    if i >= |topo.workflows[w].tasks| then []
    else
      (if TripleMapped(topo, s, w, i) && exists n :: n in Replacements(topo, s, w, i) then [i] else [])
      + Movable(topo, s, w, i + 1)
  }

  /** The number of proposals one sweep of the workflows from w on makes. */
  ghost function Proposals(topo: Topology, s: State, w: nat): nat
    requires ValidTopology(topo) && Consistent(topo, s) && w <= |topo.workflows|
    decreases |topo.workflows| - w
  {
    if w == |topo.workflows| then 0
    else
      |Movable(topo, s, w, 1)| + Proposals(topo, s, w + 1)
  }

  /** The shared solution's state after each of the first n allocation
      passes from s: entry j holds the state after pass j + 1. */
  ghost function Passes(topo: Topology, cfg: Config, s: State, draws: nat, n: nat): (r: seq<State>)
    requires ValidTopology(topo) && Shaped(topo, s)
    ensures |r| == n
  {
    if n == 0 then [] else Passes(topo, cfg, s, draws, n - 1) + [Repeated(topo, cfg, s, draws, n).s]
  }

  // ---------------------------------------------------------------------------
  // Transition rates and the cumulative choice
  // ---------------------------------------------------------------------------

  /** `exp(-0.5 * beta * (cost_target - cost_base))`, with `math.exp` given as `exp`. */
  function Boltzmann(beta: int, exp: real -> real, costBase: real, costTarget: real): real {
    exp(-0.5 * (beta as real) * (costTarget - costBase))
  }

  /** `_get_transition_rate(base, target)`: the cost of a solution is
      `1 - evaluate()[1]`. */
  function TransitionRate(beta: int, exp: real -> real, base: Score, target: Score): real {
    Boltzmann(beta, exp, 1.0 - base.value, 1.0 - target.value)
  }

  /** Equal costs give the rate `exp(0)`, which is 1. */
  lemma SameCostRateOne(beta: int, exp: real -> real, costBase: real, costTarget: real)
    requires exp(0.0) == 1.0 && costTarget == costBase
    ensures Boltzmann(beta, exp, costBase, costTarget) == 1.0
  {
  }

  /** A target exactly as far as the base moves with rate 1. */
  lemma SameDistanceRateOne(beta: int, exp: real -> real, base: Score, target: Score)
    requires exp(0.0) == 1.0 && target.value == base.value
    ensures TransitionRate(beta, exp, base, target) == 1.0
  {
    SameCostRateOne(beta, exp, 1.0 - base.value, 1.0 - target.value);
  }

  /** With an increasing `exp` and a positive `beta`, the longer a target's
      distance sum, the higher its rate: the rate treats `evaluate()[1]` as a
      quantity to maximise, while the distance evaluator's sum is one to
      minimise. */
  lemma LongerDistanceHigherRate(beta: int, exp: real -> real, base: Score, a: Score, b: Score)
    requires forall x: real, y: real | x < y :: exp(x) < exp(y)
    requires beta > 0 && a.value < b.value
    ensures TransitionRate(beta, exp, base, a) < TransitionRate(beta, exp, base, b)
  {
    var xa := -0.5 * (beta as real) * ((1.0 - a.value) - (1.0 - base.value));
    var xb := -0.5 * (beta as real) * ((1.0 - b.value) - (1.0 - base.value));
    assert xb - xa == 0.5 * (beta as real) * (b.value - a.value);
    assert xa < xb;
  }

  /** The rates of a list of targets against one base. */
  function Rates(beta: int, exp: real -> real, base: Score, keys: seq<Score>): (r: seq<real>)
    ensures |r| == |keys|
    ensures forall j | 0 <= j < |keys| :: r[j] == TransitionRate(beta, exp, base, keys[j])
  {
    if keys == [] then []
    else Rates(beta, exp, base, keys[..|keys| - 1]) + [TransitionRate(beta, exp, base, keys[|keys| - 1])]
  }

  /** The sum of the first n rates. */
  function PrefixSum(rates: seq<real>, n: nat): real
    requires n <= |rates|
  {
    if n == 0 then 0.0 else PrefixSum(rates, n - 1) + rates[n - 1]
  }

  /** The first index from i on whose cumulative rate exceeds the threshold. */
  function FirstAbove(rates: seq<real>, threshold: real, i: nat): (r: Option<nat>)
    requires i <= |rates|
    ensures r.Some? ==> i <= r.value < |rates| && threshold < PrefixSum(rates, r.value + 1)
    ensures r.Some? ==> forall j | i < j <= r.value :: PrefixSum(rates, j) <= threshold
    ensures r.None? ==> forall j | i < j <= |rates| :: PrefixSum(rates, j) <= threshold
    decreases |rates| - i
  {
    if i == |rates| then None
    else if threshold < PrefixSum(rates, i + 1) then Some(i)
    else FirstAbove(rates, threshold, i + 1)
  }

  /** The index `_select` returns: none for no candidates, else the first whose
      cumulative rate exceeds the threshold, else the last. */
  function Choose(rates: seq<real>, threshold: real): (r: Option<nat>)
    ensures r.None? <==> |rates| == 0
    ensures r.Some? ==> r.value < |rates|
  {
    if |rates| == 0 then None
    else
      match FirstAbove(rates, threshold, 0)
      case Some(i) => Some(i)
      case None => Some(|rates| - 1)
  }

  /** The threshold `_select` draws: `random()` times the sum of the rates. */
  function Spin(rates: seq<real>, u: real): real {
    u * PrefixSum(rates, |rates|)
  }

  /** With non-negative rates the cumulative sums never decrease. */
  lemma {:induction false} PrefixSumMonotone(rates: seq<real>, a: nat, b: nat)
    requires a <= b <= |rates| && forall j | 0 <= j < |rates| :: rates[j] >= 0.0
    ensures PrefixSum(rates, a) <= PrefixSum(rates, b)
    decreases b - a
  {
    if a < b {
      PrefixSumMonotone(rates, a, b - 1);
    }
  }

  /** Roulette selection: with non-negative rates, candidate j is chosen
      exactly when the threshold falls in its slice of the cumulative sum. */
  lemma ChooseSlice(rates: seq<real>, threshold: real, j: nat)
    requires forall k | 0 <= k < |rates| :: rates[k] >= 0.0
    requires j < |rates| && PrefixSum(rates, j) <= threshold < PrefixSum(rates, j + 1)
    ensures Choose(rates, threshold) == Some(j)
  {
    var f := FirstAbove(rates, threshold, 0);
    match f
    case None =>
    case Some(k) =>
      if k < j {
        PrefixSumMonotone(rates, k + 1, j);
      }
  }

  /** `random() * total` is below a positive total. */
  lemma SpinBelowTotal(rates: seq<real>, u: real)
    requires PrefixSum(rates, |rates|) > 0.0 && 0.0 <= u < 1.0
    ensures Spin(rates, u) < PrefixSum(rates, |rates|)
  {
    var total := PrefixSum(rates, |rates|);
    calc {
      Spin(rates, u);
      u * total;
    < { ScaledBelow(total, u); }
      total;
    }
  }

  /** A fraction below one of a positive amount is less than the amount. */
  lemma ScaledBelow(total: real, u: real)
    requires total > 0.0 && 0.0 <= u < 1.0
    ensures u * total < total
  {
    assert total - u * total == (1.0 - u) * total;
  }

  /** `_select` never needs its fallback to the last candidate: for a
      positive total and a draw u in [0, 1), the threshold `u * total` is
      below the total, so some cumulative sum exceeds it and the choice is
      that first index. */
  lemma ChooseNeverFallsBack(rates: seq<real>, u: real)
    requires |rates| > 0 && PrefixSum(rates, |rates|) > 0.0 && 0.0 <= u < 1.0
    ensures FirstAbove(rates, Spin(rates, u), 0).Some?
    ensures Choose(rates, Spin(rates, u)) == FirstAbove(rates, Spin(rates, u), 0)
  {
    SpinBelowTotal(rates, u);
  }

  // ---------------------------------------------------------------------------
  // The solver object
  // ---------------------------------------------------------------------------

  /** `MarkovSolver(topology, allocator, evaluator, params)`, with `math.exp`
      given as `exp` and the distance evaluator of `Evaluation`. */
  class MarkovSolver {
    const topo: Topology
    const allocator: Allocator
    const params: MarkovParams
    const exp: real -> real

    ghost predicate Valid()
      reads this, allocator, allocator.solution
    {
      allocator.Valid() && allocator.topo == topo
    }

    constructor (topo: Topology, allocator: Allocator, params: MarkovParams, exp: real -> real)
      requires allocator.Valid() && allocator.topo == topo
      ensures Valid() && this.topo == topo && this.allocator == allocator
      ensures this.params == params && this.exp == exp
    {
      this.topo := topo;
      this.allocator := allocator;
      this.params := params;
      this.exp := exp;
    }

    /** The body of the innermost loop of `_solve` for triple i of workflow w:
        raises `KeyError` when a node it reads is missing, proposes nothing
        when no node qualifies, and otherwise returns a clone of `current` in
        which `tasks[i]` moved to a randomly chosen candidate node. */
    method Propose(current: Solution, w: WorkflowId, i: nat) returns (r: Attempt<Solution?>)
      requires current.Valid() && current.topo == topo
      requires w < |topo.workflows| && 1 <= i < |topo.workflows[w].tasks|
      ensures r.KeyError? <==> !TripleMapped(topo, current.Views(), w, i)
      ensures r.Returned? ==> (r.value == null <==> Replacements(topo, current.Views(), w, i) == {})
      ensures r.Returned? && r.value != null ==> fresh(r.value) && Proposal(topo, current.Views(), w, i, r.value)
    {
      var ts := topo.workflows[w].tasks;
      if ts[i - 1] !in current.taskToNode || ts[i] !in current.taskToNode
         || (i + 1 < |ts| && ts[i + 1] !in current.taskToNode) {
        return KeyError;
      }
      var node1 := current.taskToNode[ts[i - 1]];
      var candidates := Replacements(topo, current.Views(), w, i);
      if candidates == {} {
        return Returned(null);
      }
      var target :| target in candidates;
      ReplacementsMembers(topo, current.Views(), w, i, target);
      RelocateAccepted(topo, current.Views(), w, i, target);
      var next := current.Clone();
      var _ := next.Unmap(ts[i]);
      var _ := next.Map(Some(node1), ts[i], target);
      return Returned(next);
    }

    /** `Propose`, with the proposal seen as a relocation of `current`. */
    method ProposeRelocation(current: Solution, w: WorkflowId, i: nat) returns (r: Attempt<Solution?>)
      requires current.Valid() && current.topo == topo
      requires w < |topo.workflows| && 1 <= i < |topo.workflows[w].tasks|
      ensures r.KeyError? <==> !TripleMapped(topo, current.Views(), w, i)
      ensures r.Returned? ==> |Movable(topo, current.Views(), w, i)|
                              == (if r.value == null then 0 else 1) + |Movable(topo, current.Views(), w, i + 1)|
      ensures r.Returned? && r.value != null ==> fresh(r.value) && Descends(topo, current.Views(), r.value)
    {
      r := Propose(current, w, i);
      if r.Returned? && r.value != null {
        MovedAtRelocated(topo, current.Views(), w, i, r.value.Views());
      }
    }

    /** The loop over the triples of workflow w: the proposals it appends,
        one per movable triple, or `KeyError`. */
    method SweepWorkflow(current: Solution, w: WorkflowId) returns (failed: bool, more: seq<Solution>)
      requires current.Valid() && current.topo == topo && w < |topo.workflows|
      ensures failed <==> |topo.workflows[w].tasks| >= 2 && !AllMapped(topo.workflows[w].tasks, current.taskToNode)
      ensures !failed ==> |more| == |Movable(topo, current.Views(), w, 1)|
      ensures !failed ==> forall c | c in more :: fresh(c) && Descends(topo, current.Views(), c)
    {
      var ts := topo.workflows[w].tasks;
      ghost var s := current.Views();
      more := [];
      var i := 1;
      while i < |ts|
        invariant 1 <= i <= |ts| && current.Views() == s
        invariant TriplesMappedBelow(topo, s, w, i)
        invariant |more| + |Movable(topo, s, w, i)| == |Movable(topo, s, w, 1)|
        invariant forall c | c in more :: fresh(c) && Descends(topo, s, c)
      {
        var r := ProposeRelocation(current, w, i);
        assert current.Views() == s;
        if r.KeyError? {
          TriplesMappedIffAllMapped(topo, s, w);
          return true, more;
        }
        BelowStep(topo, s, w, i);
        if r.value != null {
          var c: Solution := r.value;
          assert fresh(c) && Descends(topo, s, c);
          more := more + [c];
        }
        i := i + 1;
      }
      TriplesMappedIffAllMapped(topo, s, w);
      failed := false;
    }

    /** One pass of the loop over the workflows in `_solve`: the proposals
        it appends, or `KeyError`. */
    method Sweep(current: Solution) returns (failed: bool, more: seq<Solution>)
      requires current.Valid() && current.topo == topo
      ensures failed <==> !Sweepable(topo, current.Views())
      ensures !failed ==> |more| == Proposals(topo, current.Views(), 0)
      ensures !failed ==> forall c | c in more :: fresh(c) && Descends(topo, current.Views(), c)
    {
      ghost var s := current.Views();
      more := [];
      var w := 0;
      while w < |topo.workflows|
        invariant w <= |topo.workflows|
        invariant forall v | 0 <= v < w && |topo.workflows[v].tasks| >= 2 :: AllMapped(topo.workflows[v].tasks, s.taskToNode)
        invariant |more| + Proposals(topo, s, w) == Proposals(topo, s, 0)
        invariant forall c | c in more :: fresh(c) && Descends(topo, s, c)
      {
        var found;
        failed, found := SweepWorkflow(current, w);
        if failed {
          return;
        }
        more := more + found;
        w := w + 1;
      }
      failed := false;
    }

    /** `_get_transition_rate(base, target)`: evaluates both solutions. */
    method RateOf(base: Solution, target: Solution) returns (rate: real)
      requires base.Valid() && target.Valid()
      modifies base, target
      ensures base.Valid() && base.Views() == old(base.Views())
      ensures target.Valid() && target.Views() == old(target.Views())
      ensures rate == TransitionRate(params.beta, exp, old(base.Key()), old(target.Key()))
    {
      var scoreBase := base.Evaluate();
      var scoreTarget := target.Evaluate();
      rate := TransitionRate(params.beta, exp, scoreBase, scoreTarget);
    }

    /** The rates `_select` computes: `_get_transition_rate(base, c)` for every
        candidate c, each call evaluating both solutions. */
    method EvaluateRates(base: Solution, candidates: seq<Solution>) returns (rates: seq<real>)
      requires base.Valid() && forall c | c in candidates :: c.Valid()
      modifies {base} + set c | c in candidates
      ensures base.Valid() && base.Views() == old(base.Views())
      ensures forall c | c in candidates :: c.Valid() && c.Views() == old(c.Views())
      ensures |rates| == |candidates|
      ensures forall k | 0 <= k < |candidates| ::
        rates[k] == TransitionRate(params.beta, exp, old(base.Key()), old(candidates[k].Key()))
    {
      rates := [];
      var j := 0;
      while j < |candidates|
        invariant j <= |candidates| && |rates| == j
        invariant base.Valid() && base.Views() == old(base.Views())
        invariant forall c | c in candidates :: c.Valid() && c.Views() == old(c.Views())
        invariant forall k | 0 <= k < j ::
          rates[k] == TransitionRate(params.beta, exp, old(base.Key()), old(candidates[k].Key()))
      {
        var rate := RateOf(base, candidates[j]);
        rates := rates + [rate];
        j := j + 1;
      }
    }

    /** The cumulative loop of `_select`: the first index whose running sum
        exceeds the threshold, else the last. */
    static method Pick(rates: seq<real>, threshold: real) returns (i: nat)
      requires |rates| > 0
      ensures Choose(rates, threshold) == Some(i)
    {
      var rateSum := 0.0;
      i := 0;
      while i < |rates|
        invariant i <= |rates| && rateSum == PrefixSum(rates, i)
        invariant FirstAbove(rates, threshold, 0) == FirstAbove(rates, threshold, i)
      {
        rateSum := rateSum + rates[i];
        if threshold < rateSum {
          return;
        }
        i := i + 1;
      }
      i := |rates| - 1;
    }

    /** `_select(base, candidates)` with `random()` given as u: none for no
        candidates, else the candidate `Choose` picks from their rates at the
        threshold `u` times the rates' sum. */
    method Select(base: Solution, candidates: seq<Solution>, u: real) returns (chosen: Solution?)
      requires base.Valid() && forall c | c in candidates :: c.Valid()
      modifies {base} + set c | c in candidates
      ensures base.Valid() && base.Views() == old(base.Views())
      ensures forall c | c in candidates :: c.Valid() && c.Views() == old(c.Views())
      ensures chosen == null <==> |candidates| == 0
      ensures chosen != null ==> chosen in candidates
      ensures chosen != null ==>
        var rates := Rates(params.beta, exp, old(base.Key()), old(Keys(candidates)));
        chosen == candidates[Choose(rates, Spin(rates, u)).value]
    {
      if |candidates| == 0 {
        return null;
      }
      ghost var expected := Rates(params.beta, exp, base.Key(), Keys(candidates));
      var rates := EvaluateRates(base, candidates);
      assert rates == expected;
      var i := Pick(rates, Spin(rates, u));
      chosen := candidates[i];
    }

    /** `_solve()`: allocates, then runs `n_iteration` sweeps; after each
        sweep that left any proposal in the (never emptied) candidate list it
        jumps to one chosen by `_select`.  Raises `KeyError` exactly when it
        sweeps at least once over an allocation that left a workflow of two
        or more tasks unallocated.  What it returns is the allocator's own
        solution or a fresh clone, reached by relocating tasks: the same
        workflows allocated, and chains kept over symmetric links. */
    method SolveOnce() returns (r: Attempt<Solution>)
      requires Valid()
      modifies allocator, allocator.solution
      ensures Valid()
      ensures Run(allocator.solution.Views(), allocator.draws)
           == AllocateAll(topo, allocator.cfg, old(allocator.solution.Views()), old(allocator.draws))
      ensures r.KeyError? <==> Rounds(params.nIteration) > 0 && !Sweepable(topo, allocator.solution.Views())
      ensures r.Returned? ==> r.value.Valid() && r.value.topo == topo && (r.value == allocator.solution || fresh(r.value))
      ensures r.Returned? ==> Relocated(topo, allocator.solution.Views(), r.value.Views())
    {
      var current: Solution := allocator.AllocateWorkflows();
      ghost var start, draws := current.Views(), allocator.draws;
      var candidates: seq<Solution> := [];
      var iter := 0;
      while iter < Rounds(params.nIteration)
        invariant iter <= Rounds(params.nIteration)
        invariant Valid() && allocator.solution.Views() == start && allocator.draws == draws
        invariant Descends(topo, start, current) && (current == allocator.solution || fresh(current))
        invariant forall c | c in candidates :: fresh(c) && Descends(topo, start, c)
        invariant iter > 0 ==> Sweepable(topo, start)
      {
        var failed, more := Grow(start, current);
        if failed {
          return KeyError;
        }
        candidates := candidates + more;
        current := Jump(start, current, candidates);
        iter := iter + 1;
      }
      return Returned(current);
    }

    /** The sweep of one iteration of `_solve`: its proposals descend from
        the start too, and it raises `KeyError` exactly when the start is
        not sweepable. */
    method Grow(ghost start: State, current: Solution) returns (failed: bool, more: seq<Solution>)
      requires Descends(topo, start, current)
      ensures failed <==> !Sweepable(topo, start)
      ensures !failed ==> forall c | c in more :: fresh(c) && Descends(topo, start, c)
    {
      ghost var now := current.Views();
      failed, more := Sweep(current);
      RelocatedSweepable(topo, start, now);
      if failed {
        return;
      }
      forall c | c in more
        ensures Descends(topo, start, c)
      {
        RelocatedTransitive(topo, start, now, c.Views());
      }
    }

    /** The jump of one iteration of `_solve`: to the candidate `_select`
        picks, or nowhere when there are none. */
    method Jump(ghost start: State, current: Solution, pool: seq<Solution>) returns (next: Solution)
      requires Descends(topo, start, current) && forall c | c in pool :: Descends(topo, start, c)
      modifies {current} + set c | c in pool
      ensures Descends(topo, start, current) && current.Views() == old(current.Views())
      ensures forall c | c in pool :: Descends(topo, start, c)
      ensures next == current || next in pool
    {
      next := current;
      if |pool| > 0 {
        var u :| 0.0 <= u < 1.0;
        var chosen := Select(current, pool, u);
        next := chosen;
      }
    }

    /** The runs of `solve()` so far against the passes they made: each is
        valid and is the allocator's own solution or a relocation of the
        state its pass left. */
    ghost predicate RunsOf(passes: seq<State>, solutions: seq<Solution>)
      reads this, allocator, set s | s in solutions
      requires |solutions| <= |passes|
    {
      && (forall s | s in solutions :: s.Valid() && s.topo == topo)
      && forall j | 0 <= j < |solutions| ::
           solutions[j] == allocator.solution || Relocated(topo, passes[j], solutions[j].Views())
    }

    /** A new run joins the earlier ones. */
    lemma RunsAppend(passes: seq<State>, solutions: seq<Solution>, run: Solution)
      requires |solutions| < |passes| && RunsOf(passes, solutions)
      requires run.Valid() && run.topo == topo
      requires run == allocator.solution || Relocated(topo, passes[|solutions|], run.Views())
      ensures RunsOf(passes, solutions + [run])
    {
      var more := solutions + [run];
      assert forall j | 0 <= j < |solutions| :: more[j] == solutions[j];
    }

    /** One more run of `_solve` inside `solve()`, after the runs in
        `solutions` and the passes they made: it makes the next allocation
        pass on the shared solution and leaves every earlier run that is not
        the allocator's own solution as it was. */
    method NextRun(ghost s0: State, ghost d0: nat, solutions: seq<Solution>, ghost passes: seq<State>)
      returns (run: Attempt<Solution>, ghost passes': seq<State>)
      requires Valid() && Shaped(topo, s0) && |passes| == |solutions|
      requires passes == Passes(topo, allocator.cfg, s0, d0, |passes|)
      requires Run(allocator.solution.Views(), allocator.draws) == Repeated(topo, allocator.cfg, s0, d0, |passes|)
      requires Rounds(params.nIteration) > 0 ==> forall j | 0 <= j < |passes| :: Sweepable(topo, passes[j])
      requires RunsOf(passes, solutions)
      modifies allocator, allocator.solution
      ensures Valid() && |passes'| == |passes| + 1 && passes'[..|passes|] == passes
      ensures passes' == Passes(topo, allocator.cfg, s0, d0, |passes'|)
      ensures Run(allocator.solution.Views(), allocator.draws) == Repeated(topo, allocator.cfg, s0, d0, |passes'|)
      ensures run.KeyError? <==> Rounds(params.nIteration) > 0 && !Sweepable(topo, passes'[|passes|])
      ensures Rounds(params.nIteration) > 0 ==> forall j | 0 <= j < |passes| :: Sweepable(topo, passes'[j])
      ensures run.Returned? && Rounds(params.nIteration) > 0 ==> Sweepable(topo, passes'[|passes|])
      ensures run.KeyError? ==> RunsOf(passes', solutions)
      ensures run.Returned? ==> RunsOf(passes', solutions + [run.value])
      ensures run.Returned? ==> run.value == allocator.solution || fresh(run.value)
    {
      RepeatedStep(topo, allocator.cfg, s0, d0, |passes|);
      run := SolveOnce();
      passes' := passes + [allocator.solution.Views()];
      assert passes' == Passes(topo, allocator.cfg, s0, d0, |passes| + 1);
      assert passes'[..|passes|] == passes;
      assert RunsOf(passes', solutions);
      if run.Returned? {
        RunsAppend(passes', solutions, run.value);
      }
    }

    /** The loop of `solve()`: up to `n_iter_iter` runs of `_solve`,
        stopping at the first `KeyError`.  Run j (from 0) starts with
        allocation pass j + 1 on the allocator's shared solution, whose
        state `passes[j]` records, and raises exactly when that pass leaves
        the solution unsweepable.  What a run returns is either the
        allocator's own solution, which later runs go on allocating into,
        or a fresh clone that is a relocation of the state its pass left. */
    method Runs() returns (failed: bool, ghost passes: seq<State>, solutions: seq<Solution>)
      requires Valid()
      modifies allocator, allocator.solution
      ensures Valid()
      ensures |solutions| <= RunsPerSolve && (!failed ==> |solutions| == RunsPerSolve)
      ensures |passes| == if failed then |solutions| + 1 else |solutions|
      ensures passes == Passes(topo, allocator.cfg, old(allocator.solution.Views()), old(allocator.draws), |passes|)
      ensures Run(allocator.solution.Views(), allocator.draws)
           == Repeated(topo, allocator.cfg, old(allocator.solution.Views()), old(allocator.draws), |passes|)
      ensures failed ==> Rounds(params.nIteration) > 0 && !Sweepable(topo, passes[|solutions|])
      ensures Rounds(params.nIteration) > 0 ==> forall j | 0 <= j < |solutions| :: Sweepable(topo, passes[j])
      ensures RunsOf(passes, solutions)
      ensures forall s | s in solutions :: s == allocator.solution || fresh(s)
    {
      ghost var s0, d0 := allocator.solution.Views(), allocator.draws;
      passes := [];
      solutions := [];
      failed := false;
      while |solutions| < RunsPerSolve && !failed
        invariant |solutions| <= RunsPerSolve && Valid()
        invariant |passes| == if failed then |solutions| + 1 else |solutions|
        invariant passes == Passes(topo, allocator.cfg, s0, d0, |passes|)
        invariant Run(allocator.solution.Views(), allocator.draws) == Repeated(topo, allocator.cfg, s0, d0, |passes|)
        invariant failed ==> Rounds(params.nIteration) > 0 && !Sweepable(topo, passes[|solutions|])
        invariant Rounds(params.nIteration) > 0 ==> forall j | 0 <= j < |solutions| :: Sweepable(topo, passes[j])
        invariant forall s | s in solutions :: s == allocator.solution || fresh(s)
        invariant RunsOf(passes, solutions)
        decreases RunsPerSolve - |solutions|, if failed then 0 else 1
      {
        var run;
        run, passes := NextRun(s0, d0, solutions, passes);
        if run.KeyError? {
          failed := true;
        } else {
          solutions := solutions + [run.value];
        }
      }
    }

    /** `solve()`: the best of `n_iter_iter` runs of `_solve` by `get_best`,
        or the `KeyError` of the first run that raises one; `runs` are the
        runs made and `passes` the allocation passes behind them, as
        `Runs` states. */
    method Solve() returns (r: Attempt<Solution?>, ghost passes: seq<State>, ghost runs: seq<Solution>)
      requires Valid()
      modifies allocator, allocator.solution
      ensures Valid()
      ensures |passes| == if r.KeyError? then |runs| + 1 else |runs|
      ensures |runs| <= RunsPerSolve && (r.Returned? ==> |runs| == RunsPerSolve)
      ensures passes == Passes(topo, allocator.cfg, old(allocator.solution.Views()), old(allocator.draws), |passes|)
      ensures Run(allocator.solution.Views(), allocator.draws)
           == Repeated(topo, allocator.cfg, old(allocator.solution.Views()), old(allocator.draws), |passes|)
      ensures r.KeyError? ==> Rounds(params.nIteration) > 0 && !Sweepable(topo, passes[|runs|])
      ensures Rounds(params.nIteration) > 0 ==> forall j | 0 <= j < |runs| :: Sweepable(topo, passes[j])
      ensures RunsOf(passes, runs)
      ensures r.Returned? ==> r.value != null && r.value == runs[ArgMin(Keys(runs)).value]
    {
      var failed, solutions;
      failed, passes, solutions := Runs();
      runs := solutions;
      if failed {
        return KeyError, passes, runs;
      }
      var best := BestRun(passes, solutions);
      return Returned(best), passes, runs;
    }

    /** `get_best` over the runs: it only evaluates them, so their states
        and the allocator's stay as they were. */
    method BestRun(ghost passes: seq<State>, solutions: seq<Solution>) returns (best: Solution)
      requires Valid() && |solutions| > 0 && |passes| == |solutions|
      requires RunsOf(passes, solutions)
      modifies set s | s in solutions
      ensures Valid()
      ensures forall s | s in solutions :: s.Views() == old(s.Views())
      ensures allocator.solution.Views() == old(allocator.solution.Views())
      ensures RunsOf(passes, solutions)
      ensures best == solutions[ArgMin(Keys(solutions)).value]
    {
      var chosen := GetBest(solutions);
      best := chosen;
    }
  }
}
