/** The legacy list-based Markov step (ma.py).  Its code reads three global
    tables, `WorkflowInfo`, `DelayFactorOfDEC` and `ConnectionInfo`, which are
    given here as one `Tables` value.  A chromosome's `workflow_status` holds a
    placeholder at index 0 and `(workflow id, allocated, task assignments)`
    entries after it.  Only `migrate` changes a list in place: the deep copies
    `build_markov_chain` makes are the fresh arrays it hands to `migrate`. */
module LegacyMarkov {
  import opened Options
  import opened Parameters
  import opened Solvers
  import Markov

  /** One row of `WorkflowInfo[w]`: `(task id, processing, bandwidth)`. */
  datatype TaskInfo = TaskInfo(taskId: int, proc: real, bw: real)

  /** `WorkflowInfo`, `DelayFactorOfDEC` and `ConnectionInfo`, indexed by
      workflow and node number. */
  datatype Tables = Tables(workflowInfo: seq<seq<TaskInfo>>, delayFactor: seq<real>, connection: seq<seq<bool>>)

  /** An entry of `workflow_status`: the falsy placeholder, or a triple. */
  datatype Status = Placeholder | Entry(wfNo: nat, isAllocated: bool, assignments: seq<nat>)

  datatype Chromosome = Chromosome(status: seq<Status>)

  /** The triple `cost_func` returns. */
  datatype Cost = Cost(proc: real, bw: real, delay: real)

  /** One entry of the Markov chain: a migrated copy and its probability. */
  datatype Link = Link(next: Chromosome, prob: real)

  /** The connection table is a square matrix and every node has a delay factor. */
  ghost predicate TablesOk(t: Tables) {
    && (forall r | r in t.connection :: |r| == |t.connection|)
    && |t.delayFactor| == |t.connection|
  }

  /** Every node of the list is below n. */
  ghost predicate NodesIn(nodes: seq<nat>, n: nat) {
    forall k | 0 <= k < |nodes| :: nodes[k] < n
  }

  /** What the code indexes without failing: every entry after the placeholder
      is a triple whose workflow has a row per position and whose nodes are
      in the tables. */
  ghost predicate WellFormed(t: Tables, c: Chromosome) {
    && TablesOk(t)
    && forall i | 1 <= i < |c.status| ::
         && c.status[i].Entry?
         && c.status[i].wfNo < |t.workflowInfo|
         && i < |t.workflowInfo| && |c.status[i].assignments| <= |t.workflowInfo[i]|
         && NodesIn(c.status[i].assignments, |t.connection|)
  }

  // ---------------------------------------------------------------------------
  // cost_func
  // ---------------------------------------------------------------------------

  /** The processing and bandwidth of the rows with a non-negative task id. */
  function Demand(rows: seq<TaskInfo>): Cost {
    if rows == [] then Cost(0.0, 0.0, 0.0)
    else
      var d := Demand(rows[..|rows| - 1]);
      var r := rows[|rows| - 1];
      if r.taskId >= 0 then Cost(d.proc + r.proc, d.bw + r.bw, 0.0) else d
  }

  /** The delay factors of the given nodes, added up. */
  function Delay(factors: seq<real>, nodes: seq<nat>): real
    requires NodesIn(nodes, |factors|)
  {
    if nodes == [] then 0.0 else Delay(factors, nodes[..|nodes| - 1]) + factors[nodes[|nodes| - 1]]
  }

  /** The cost of entries 1 to n-1: allocated workflows add their demand
      and the delay factors of their nodes. */
  function CostUpTo(t: Tables, c: Chromosome, n: nat): Cost
    requires WellFormed(t, c) && (n <= 1 || n <= |c.status|)
  {
    if n <= 1 then Cost(0.0, 0.0, 0.0)
    else
      var acc := CostUpTo(t, c, n - 1);
      var e := c.status[n - 1];
      if e.isAllocated then
        var d := Demand(t.workflowInfo[e.wfNo]);
        Cost(acc.proc + d.proc, acc.bw + d.bw, acc.delay + Delay(t.delayFactor, e.assignments))
      else acc
  }

  /** The cost of a whole chromosome. */
  function CostOf(t: Tables, c: Chromosome): Cost
    requires WellFormed(t, c)
  {
    CostUpTo(t, c, if |c.status| <= 1 then 1 else |c.status|)
  }

  /** `cost_func(solution)`. */
  method CostFunc(t: Tables, c: Chromosome) returns (cost: Cost)
    requires WellFormed(t, c)
    ensures cost == CostOf(t, c)
  {
    var proc, bw, delay := 0.0, 0.0, 0.0;
    var i := 1;
    while i < |c.status|
      invariant i == 1 || i <= |c.status|
      invariant Cost(proc, bw, delay) == CostUpTo(t, c, i)
    {
      var e := c.status[i];
      if e.isAllocated {
        proc, bw := AddDemand(t.workflowInfo[e.wfNo], proc, bw);
        delay := AddDelay(t.delayFactor, e.assignments, delay);
      }
      i := i + 1;
    }
    cost := Cost(proc, bw, delay);
  }

  /** The loop over the rows of one allocated workflow. */
  method AddDemand(rows: seq<TaskInfo>, proc0: real, bw0: real) returns (proc: real, bw: real)
    ensures proc == proc0 + Demand(rows).proc && bw == bw0 + Demand(rows).bw
  {
    proc, bw := proc0, bw0;
    var k := 0;
    while k < |rows|
      invariant k <= |rows|
      invariant proc == proc0 + Demand(rows[..k]).proc && bw == bw0 + Demand(rows[..k]).bw
    {
      assert rows[..k + 1][..k] == rows[..k];
      if rows[k].taskId >= 0 {
        proc := proc + rows[k].proc;
        bw := bw + rows[k].bw;
      }
      k := k + 1;
    }
    assert rows[..|rows|] == rows;
  }

  /** The loop over the nodes of one allocated workflow. */
  method AddDelay(factors: seq<real>, nodes: seq<nat>, delay0: real) returns (delay: real)
    requires NodesIn(nodes, |factors|)
    ensures delay == delay0 + Delay(factors, nodes)
  {
    delay := delay0;
    var k := 0;
    while k < |nodes|
      invariant k <= |nodes| && delay == delay0 + Delay(factors, nodes[..k])
    {
      assert nodes[..k + 1][..k] == nodes[..k];
      delay := delay + factors[nodes[k]];
      k := k + 1;
    }
    assert nodes[..|nodes|] == nodes;
  }

  /** c and d differ at most in the nodes their entries are assigned to. */
  ghost predicate Relabelled(c: Chromosome, d: Chromosome) {
    && |d.status| == |c.status|
    && forall i | 0 <= i < |c.status| ::
         && d.status[i].Entry? == c.status[i].Entry?
         && (c.status[i].Entry? ==>
               && d.status[i].wfNo == c.status[i].wfNo
               && d.status[i].isAllocated == c.status[i].isAllocated
               && |d.status[i].assignments| == |c.status[i].assignments|)
  }

  /** Where the workflows run does not change what they demand: relabelled
      chromosomes agree on processing and bandwidth cost. */
  lemma {:induction false} RelabelledKeepsDemand(t: Tables, c: Chromosome, d: Chromosome, n: nat)
    requires WellFormed(t, c) && WellFormed(t, d) && Relabelled(c, d) && (n <= 1 || n <= |c.status|)
    ensures CostUpTo(t, d, n).proc == CostUpTo(t, c, n).proc
    ensures CostUpTo(t, d, n).bw == CostUpTo(t, c, n).bw
  {
    if n > 1 {
      RelabelledKeepsDemand(t, c, d, n - 1);
    }
  }

  lemma RelabelledTransitive(c: Chromosome, d: Chromosome, e: Chromosome)
    requires Relabelled(c, d) && Relabelled(d, e)
    ensures Relabelled(c, e)
  {
  }

  // ---------------------------------------------------------------------------
  // calc_prob
  // ---------------------------------------------------------------------------

  /** Python's `<` on two cost tuples: lexicographic. */
  predicate LexLess(a: Cost, b: Cost) {
    a.proc < b.proc || (a.proc == b.proc && (a.bw < b.bw || (a.bw == b.bw && a.delay < b.delay)))
  }

  /** `sum(cost)`. */
  function Total(c: Cost): real {
    c.proc + c.bw + c.delay
  }

  /** `calc_prob(cur_cost, new_cost)`. */
  function CalcProb(cur: Cost, next: Cost): real {
    if LexLess(cur, next) then 0.0
    else 1.0 / (NumOfWorkflows as real) + (Total(cur) - Total(next)) / 2000.0
  }

  /** A move that is not lexicographically worse and does not raise the summed
      cost gets at least `1/NumOfWorkflows`; an unchanged cost gets exactly that. */
  lemma CalcProbNoWorse(cur: Cost, next: Cost)
    requires !LexLess(cur, next) && Total(next) <= Total(cur)
    ensures CalcProb(cur, next) >= 1.0 / 20.0 > 0.0
    ensures next == cur ==> CalcProb(cur, next) == 1.0 / 20.0
  {
  }

  /** A lexicographically worse move gets 0 however much lower its summed cost. */
  lemma CalcProbWorse(cur: Cost, next: Cost)
    requires LexLess(cur, next)
    ensures CalcProb(cur, next) == 0.0
  {
  }

  /** A move whose first component improves while the total rises by more than
      100 gets a negative value. */
  lemma CalcProbCanBeNegative()
    ensures CalcProb(Cost(1.0, 0.0, 0.0), Cost(0.0, 0.0, 200.0)) < 0.0
  {
  }

  // ---------------------------------------------------------------------------
  // transit
  // ---------------------------------------------------------------------------

  /** The probabilities of a chain. */
  function Probs(chain: seq<Link>): (ps: seq<real>)
    ensures |ps| == |chain| && forall k | 0 <= k < |chain| :: ps[k] == chain[k].prob
  {
    if chain == [] then [] else Probs(chain[..|chain| - 1]) + [chain[|chain| - 1].prob]
  }

  /** The first index from i on whose cumulative probability reaches the bound. */
  function Reached(ps: seq<real>, bound: real, i: nat): (r: Option<nat>)
    requires i <= |ps|
    ensures r.Some? ==> i <= r.value < |ps| && bound <= Markov.PrefixSum(ps, r.value + 1)
    ensures r.Some? ==> forall j | i < j <= r.value :: Markov.PrefixSum(ps, j) < bound
    ensures r.None? ==> forall j | i < j <= |ps| :: Markov.PrefixSum(ps, j) < bound
    decreases |ps| - i
  {
    if i == |ps| then None
    else if bound <= Markov.PrefixSum(ps, i + 1) then Some(i)
    else Reached(ps, bound, i + 1)
  }

  /** The entry `transit` returns as written: it never tests the first
      cumulative sum, and returns the entry before the first later one that
      reaches the bound; the last entry when none does; none (the assertion
      fails) for an empty chain. */
  function TransitIndexAsWritten(ps: seq<real>, bound: real): Option<nat> {
    if |ps| == 0 then None
    else
      match Reached(ps, bound, 1)
      case Some(i) => Some(i - 1)
      case None => Some(|ps| - 1)
  }

  /** The entry a cumulative choice returns: the first whose cumulative sum
      reaches the bound, else the last. */
  function TransitIndex(ps: seq<real>, bound: real): (r: Option<nat>)
    ensures r.None? <==> |ps| == 0
    ensures r.Some? ==> r.value < |ps|
  {
    if |ps| == 0 then None
    else
      match Reached(ps, bound, 0)
      case Some(i) => Some(i)
      case None => Some(|ps| - 1)
  }

  /** As written, a chain whose first entry has probability 0 can still
      return that entry. */
  lemma TransitAsWrittenPicksZero()
    ensures TransitIndexAsWritten([0.0, 1.0], 0.5) == Some(0)
    ensures TransitIndex([0.0, 1.0], 0.5) == Some(1)
  {
    assert Markov.PrefixSum([0.0, 1.0], 1) == 0.0;
    assert Markov.PrefixSum([0.0, 1.0], 2) == 1.0;
  }

  /** With non-negative probabilities and a positive bound no larger than
      their sum, the entry chosen has a positive probability and the bound
      falls in its slice. */
  lemma TransitIndexInSlice(ps: seq<real>, bound: real)
    requires forall k | 0 <= k < |ps| :: ps[k] >= 0.0
    requires 0.0 < bound <= Markov.PrefixSum(ps, |ps|)
    ensures TransitIndex(ps, bound).Some?
    ensures var i := TransitIndex(ps, bound).value;
      Markov.PrefixSum(ps, i) < bound <= Markov.PrefixSum(ps, i + 1) && ps[i] > 0.0
  {
    var r := Reached(ps, bound, 0);
    if r.Some? && r.value > 0 {
      assert Markov.PrefixSum(ps, r.value) < bound;
    }
  }

  /** `transit(markov_chain)` with `random()` given as u, choosing the entry
      whose slice holds u: none for an empty chain. */
  method Transit(chain: seq<Link>, u: real) returns (r: Option<Chromosome>)
    ensures r.None? <==> |chain| == 0
    ensures r.Some? ==> r.value == chain[TransitIndex(Probs(chain), u).value].next
  {
    if |chain| == 0 {
      return None;
    }
    ghost var ps := Probs(chain);
    var acc := 0.0;
    var i := 0;
    while i < |chain|
      invariant i <= |chain| && acc == Markov.PrefixSum(ps, i)
      invariant Reached(ps, u, 0) == Reached(ps, u, i)
    {
      acc := acc + chain[i].prob;
      if u <= acc {
        return Some(chain[i].next);
      }
      i := i + 1;
    }
    return Some(chain[|chain| - 1].next);
  }

  // ---------------------------------------------------------------------------
  // migrate
  // ---------------------------------------------------------------------------

  /** `assignable(node_no, proc, bw)`: accepts every node. */
  function Assignable(node: nat, proc: real, bw: real): bool {
    true
  }

  /** The node after position j, if any. */
  function NextNode(a: seq<nat>, j: nat): Option<nat>
    requires j < |a|
  {
    if j < |a| - 1 then Some(a[j + 1]) else None
  }

  /** `not next_node`: no next node, or node 0. */
  predicate NoNext(next: Option<nat>) {
    next.None? || next.value == 0
  }

  /** The candidates below n as written: neighbours of `start`, all of them
      when there is no next node or the OLD node `end` reaches it, none
      otherwise. */
  function TargetsAsWritten(conn: seq<seq<bool>>, start: nat, end: nat, next: Option<nat>, n: nat): seq<nat>
    requires forall r | r in conn :: |r| == |conn|
    requires start < |conn| && end < |conn| && n <= |conn| && (next.Some? ==> next.value < |conn|)
  {
    if n == 0 then []
    else
      TargetsAsWritten(conn, start, end, next, n - 1)
      + (if conn[start][n - 1] && (NoNext(next) || conn[end][next.value]) then [n - 1] else [])
  }

  /** The candidates below n: neighbours of `start` that reach the next node
      themselves when there is one. */
  function Targets(conn: seq<seq<bool>>, start: nat, next: Option<nat>, n: nat): (ks: seq<nat>)
    requires forall r | r in conn :: |r| == |conn|
    requires start < |conn| && n <= |conn| && (next.Some? ==> next.value < |conn|)
    ensures forall k | k in ks :: k < n && conn[start][k] && (NoNext(next) || conn[k][next.value])
  {
    if n == 0 then []
    else
      Targets(conn, start, next, n - 1)
      + (if conn[start][n - 1] && (NoNext(next) || conn[n - 1][next.value]) then [n - 1] else [])
  }

  /** As written, a node reached from `start` that does not reach the next
      node is a candidate: the migrated chain is then broken. */
  lemma TargetsAsWrittenBreakChain()
    ensures var conn := Links5();
      && 4 in TargetsAsWritten(conn, 1, 2, Some(3), 5) && !conn[4][3]
      && 4 !in Targets(conn, 1, Some(3), 5)
  {
    var conn := Links5();
    assert TargetsAsWritten(conn, 1, 2, Some(3), 5) == TargetsAsWritten(conn, 1, 2, Some(3), 4) + [4];
  }

  /** Five nodes, 0 unused: 1-2, 2-3 and 1-4 are linked. */
  function Links5(): (conn: seq<seq<bool>>)
    ensures |conn| == 5 && forall r | r in conn :: |r| == 5
  {
    [ [false, false, false, false, false],
      [false, false, true,  false, true ],
      [false, true,  false, true,  false],
      [false, false, true,  false, false],
      [false, true,  false, false, false] ]
  }

  /** The loop of `migrate` that collects the candidates for the task in
      row: every node, in order, that passes the tests. */
  method Candidates(conn: seq<seq<bool>>, start: nat, next: Option<nat>, row: TaskInfo) returns (candidates: seq<nat>)
    requires forall r | r in conn :: |r| == |conn|
    requires start < |conn| && (next.Some? ==> next.value < |conn|)
    ensures candidates == Targets(conn, start, next, |conn|)
  {
    candidates := [];
    var k := 0;
    while k < |conn|
      invariant k <= |conn| && candidates == Targets(conn, start, next, k)
    {
      if conn[start][k] && (NoNext(next) || conn[k][next.value]) && Assignable(k, row.proc, row.bw) {
        candidates := candidates + [k];
      }
      k := k + 1;
    }
  }

  /** `migrate(chromosome, wf_no, end_node_idx)` on the assignment list a of
      entry wfNo, with the next-node test on the candidate and
      `random.choice` as a nondeterministic pick: false and a unchanged when
      no node qualifies, else true with only position j moved to a node that
      qualifies. */
  method Migrate(t: Tables, a: array<nat>, wfNo: nat, j: nat) returns (ok: bool)
    requires TablesOk(t) && 1 <= j < a.Length && NodesIn(a[..], |t.connection|)
    requires wfNo < |t.workflowInfo| && j < |t.workflowInfo[wfNo]|
    modifies a
    ensures var ks := Targets(t.connection, old(a[j - 1]), NextNode(old(a[..]), j), |t.connection|);
      && (ok <==> |ks| > 0)
      && (!ok ==> a[..] == old(a[..]))
      && (ok ==> a[..] == old(a[..])[j := a[j]] && a[j] in ks)
  {
    var start := a[j - 1];
    var next: Option<nat> := if j < a.Length - 1 then Some(a[j + 1]) else None;
    var row := t.workflowInfo[wfNo][j];
    var candidates := Candidates(t.connection, start, next, row);
    if |candidates| == 0 {
      return false;
    }
    assert candidates[0] in candidates;
    var target :| target in candidates;
    a[j] := target;
    return true;
  }

  // ---------------------------------------------------------------------------
  // build_markov_chain and iterate
  // ---------------------------------------------------------------------------

  /** Position j of entry i can migrate somewhere. */
  predicate Migratable(t: Tables, c: Chromosome, i: nat, j: nat)
    requires WellFormed(t, c) && 1 <= i < |c.status| && 1 <= j < |c.status[i].assignments|
  {
    var a := c.status[i].assignments;
    |Targets(t.connection, a[j - 1], NextNode(a, j), |t.connection|)| > 0
  }

  /** d is c with position j of entry i moved to a node that qualifies. */
  ghost predicate MigratedAt(t: Tables, c: Chromosome, i: nat, j: nat, d: Chromosome)
    requires WellFormed(t, c) && 1 <= i < |c.status| && 1 <= j < |c.status[i].assignments|
  {
    var e := c.status[i];
    var a := e.assignments;
    && |d.status| == |c.status| && d.status[i].Entry? && |d.status[i].assignments| == |a|
    && d.status[i].assignments[j] in Targets(t.connection, a[j - 1], NextNode(a, j), |t.connection|)
    && d == Chromosome(c.status[i := Entry(e.wfNo, e.isAllocated, a[j := d.status[i].assignments[j]])])
  }

  /** A migrated copy is well formed and differs only in assignments. */
  lemma MigratedAtRelabelled(t: Tables, c: Chromosome, i: nat, j: nat, d: Chromosome)
    requires WellFormed(t, c) && 1 <= i < |c.status| && 1 <= j < |c.status[i].assignments|
    requires MigratedAt(t, c, i, j, d)
    ensures WellFormed(t, d) && Relabelled(c, d)
  {
    var a := c.status[i].assignments;
    var n := d.status[i].assignments[j];
    assert NodesIn(a, |t.connection|);
    assert NodesIn(a[j := n], |t.connection|);
  }

  /** Every hop of an assignment list is a link of the network, except hops
      to node 0, which `migrate` does not test. */
  ghost predicate Chained(conn: seq<seq<bool>>, a: seq<nat>)
    requires forall r | r in conn :: |r| == |conn|
    requires NodesIn(a, |conn|)
  {
    forall k | 1 <= k < |a| :: a[k] == 0 || conn[a[k - 1]][a[k]]
  }

  /** Migration keeps a chained assignment list chained: the new node is
      reached from its predecessor and reaches its successor. */
  lemma MigrationKeepsChain(t: Tables, c: Chromosome, i: nat, j: nat, d: Chromosome)
    requires WellFormed(t, c) && 1 <= i < |c.status| && 1 <= j < |c.status[i].assignments|
    requires MigratedAt(t, c, i, j, d)
    requires Chained(t.connection, c.status[i].assignments)
    ensures WellFormed(t, d) && Chained(t.connection, d.status[i].assignments)
  {
    MigratedAtRelabelled(t, c, i, j, d);
    var a, b := c.status[i].assignments, d.status[i].assignments;
    forall k | 1 <= k < |b|
      ensures b[k] == 0 || t.connection[b[k - 1]][b[k]]
    {
      if k == j + 1 {
        assert NextNode(a, j) == Some(a[k]);
      } else if k != j {
        assert a[k] == 0 || t.connection[a[k - 1]][a[k]];
      }
    }
  }

  /** A deep copy of c with position j of entry i migrated, by `migrate` on
      the copy's assignment list: none when the position cannot migrate. */
  method MigrateCopy(t: Tables, c: Chromosome, i: nat, j: nat) returns (r: Option<Chromosome>)
    requires WellFormed(t, c) && 1 <= i < |c.status| && 1 <= j < |c.status[i].assignments|
    ensures r.Some? <==> Migratable(t, c, i, j)
    ensures r.Some? ==> MigratedAt(t, c, i, j, r.value)
  {
    var e := c.status[i];
    var a := new nat[|e.assignments|](k requires 0 <= k < |e.assignments| => e.assignments[k]);
    assert a[..] == e.assignments;
    var ok := Migrate(t, a, i, j);
    if !ok {
      return None;
    }
    return Some(Chromosome(c.status[i := Entry(e.wfNo, e.isAllocated, a[..])]));
  }

  /** The positions of entry i from j on that can migrate. */
  function MigratablePositions(t: Tables, c: Chromosome, i: nat, j: nat): seq<nat>
    requires WellFormed(t, c) && 1 <= i < |c.status| && 1 <= j
    decreases |c.status[i].assignments| - j
  {
    if j >= |c.status[i].assignments| then []
    else (if Migratable(t, c, i, j) then [j] else []) + MigratablePositions(t, c, i, j + 1)
  }

  /** The number of links `build_markov_chain` makes from entry i on:
      allocated entries only. */
  function ChainLength(t: Tables, c: Chromosome, i: nat): nat
    requires WellFormed(t, c) && 1 <= i
    decreases |c.status| - i
  {
    if i >= |c.status| then 0
    else
      (if c.status[i].Entry? && c.status[i].isAllocated then |MigratablePositions(t, c, i, 1)| else 0)
      + ChainLength(t, c, i + 1)
  }

  /** d is c with one position of an allocated entry migrated. */
  ghost predicate Migrated(t: Tables, c: Chromosome, d: Chromosome)
    requires WellFormed(t, c)
  {
    exists i: nat, j: nat | 1 <= i < |c.status| && c.status[i].isAllocated && 1 <= j < |c.status[i].assignments| ::
      MigratedAt(t, c, i, j, d)
  }

  lemma MigratedRelabelled(t: Tables, c: Chromosome, d: Chromosome)
    requires WellFormed(t, c) && Migrated(t, c, d)
    ensures WellFormed(t, d) && Relabelled(c, d)
  {
    var i: nat, j: nat :| 1 <= i < |c.status| && c.status[i].isAllocated && 1 <= j < |c.status[i].assignments|
      && MigratedAt(t, c, i, j, d);
    MigratedAtRelabelled(t, c, i, j, d);
  }

  /** l is a link of the chain built from c, with current cost `cur`. */
  ghost predicate LinkFrom(t: Tables, c: Chromosome, cur: Cost, l: Link)
    requires WellFormed(t, c)
  {
    && Migrated(t, c, l.next) && WellFormed(t, l.next)
    && l.prob == CalcProb(cur, CostOf(t, l.next))
  }

  /** The inner loop of `build_markov_chain` for entry i: one link per
      position that can migrate, each a deep copy migrated at that position. */
  method ChainLinks(t: Tables, c: Chromosome, i: nat, cur: Cost) returns (links: seq<Link>)
    requires WellFormed(t, c) && 1 <= i < |c.status| && c.status[i].Entry? && c.status[i].isAllocated
    ensures |links| == |MigratablePositions(t, c, i, 1)|
    ensures forall l | l in links :: LinkFrom(t, c, cur, l)
  {
    var e := c.status[i];
    links := [];
    var j := 1;
    while j < |e.assignments|
      invariant 1 <= j && (j <= |e.assignments| || |e.assignments| <= 1)
      invariant |links| + |MigratablePositions(t, c, i, j)| == |MigratablePositions(t, c, i, 1)|
      invariant forall l | l in links :: LinkFrom(t, c, cur, l)
    {
      var l := LinkAt(t, c, i, j, cur);
      if l.Some? {
        links := links + [l.value];
      }
      j := j + 1;
    }
  }

  /** The body of the inner loop: a link for position j of entry i, none
      when it cannot migrate. */
  method LinkAt(t: Tables, c: Chromosome, i: nat, j: nat, cur: Cost) returns (l: Option<Link>)
    requires WellFormed(t, c) && 1 <= i < |c.status| && c.status[i].Entry? && c.status[i].isAllocated
    requires 1 <= j < |c.status[i].assignments|
    ensures l.Some? <==> Migratable(t, c, i, j)
    ensures l.Some? ==> LinkFrom(t, c, cur, l.value)
  {
    var d := MigrateCopy(t, c, i, j);
    if d.None? {
      return None;
    }
    MigratedAtRelabelled(t, c, i, j, d.value);
    assert Migrated(t, c, d.value);
    var cost := CostFunc(t, d.value);
    return Some(Link(d.value, CalcProb(cur, cost)));
  }

  /** `build_markov_chain(current_chromosome, cost_func)`: skips placeholders
      and unallocated entries, and links a migrated copy for every position
      that can migrate, with its `calc_prob` against the current cost. */
  method BuildMarkovChain(t: Tables, c: Chromosome) returns (chain: seq<Link>)
    requires WellFormed(t, c)
    ensures |chain| == ChainLength(t, c, 1)
    ensures forall l | l in chain :: LinkFrom(t, c, CostOf(t, c), l)
  {
    var cur := CostFunc(t, c);
    chain := [];
    var i := 1;
    while i < |c.status|
      invariant 1 <= i && (i <= |c.status| || |c.status| <= 1)
      invariant |chain| + ChainLength(t, c, i) == ChainLength(t, c, 1)
      invariant forall l | l in chain :: LinkFrom(t, c, cur, l)
    {
      if c.status[i].Entry? && c.status[i].isAllocated {
        var links := ChainLinks(t, c, i, cur);
        chain := chain + links;
      }
      i := i + 1;
    }
  }

  /** One round of `iterate`: build the chain of temp and transit, with
      `random()` a nondeterministic draw.  None when the chain is empty;
      else a migration of temp, which keeps the demand of c. */
  method Step(t: Tables, ghost c: Chromosome, temp: Chromosome) returns (next: Option<Chromosome>)
    requires WellFormed(t, c) && WellFormed(t, temp) && Relabelled(c, temp)
    ensures next.None? <==> ChainLength(t, temp, 1) == 0
    ensures next.Some? ==> Migrated(t, temp, next.value) && WellFormed(t, next.value) && Relabelled(c, next.value)
    ensures next.Some? ==> CostOf(t, next.value).proc == CostOf(t, c).proc && CostOf(t, next.value).bw == CostOf(t, c).bw
  {
    var chain := BuildMarkovChain(t, temp);
    var u :| 0.0 <= u < 1.0;
    next := Transit(chain, u);
    if next.Some? {
      var l := chain[TransitIndex(Probs(chain), u).value];
      assert l in chain;
      MigratedRelabelled(t, temp, l.next);
      RelabelledTransitive(c, temp, l.next);
      RelabelledKeepsDemand(t, c, l.next, if |c.status| <= 1 then 1 else |c.status|);
    }
  }

  /** `iterate(n_iteration, chromosome)` with `random()` a nondeterministic
      draw: none when a chain comes out empty (the assertion in `transit`),
      else `n_iteration + 1` cost records (one for a non-positive count), the
      first the cost of the start.  Migration only moves tasks, so every
      record keeps the start's processing and bandwidth cost. */
  method Iterate(t: Tables, nIteration: int, c: Chromosome) returns (r: Option<seq<Cost>>)
    requires WellFormed(t, c)
    ensures r.None? ==> Rounds(nIteration) > 0
    ensures r.Some? ==> |r.value| == Rounds(nIteration) + 1 && r.value[0] == CostOf(t, c)
    ensures r.Some? ==> forall k | 0 <= k < |r.value| ::
      r.value[k].proc == CostOf(t, c).proc && r.value[k].bw == CostOf(t, c).bw
  {
    var first := CostFunc(t, c);
    var record := [first];
    var temp := c;
    var iter := 0;
    while iter < Rounds(nIteration)
      invariant iter <= Rounds(nIteration) && |record| == iter + 1 && record[0] == first
      invariant WellFormed(t, temp) && Relabelled(c, temp)
      invariant forall k | 0 <= k < |record| :: record[k].proc == first.proc && record[k].bw == first.bw
    {
      var next := Step(t, c, temp);
      if next.None? {
        return None;
      }
      temp := next.value;
      var cost := CostFunc(t, temp);
      record := record + [cost];
      iter := iter + 1;
    }
    return Some(record);
  }
}
