# Drone task allocation, modelled in Dafny

This project models the core of the drone task-allocation engine. The engine places
sequential workflows onto a network of drones, edge servers and cloud servers. Each
workflow is an ordered chain of tasks with resource demands. The model covers:

- the resource vectors and their dominance order;
- how the topology's constructor links nodes, with its three `_connect` calls, and numbers workflows and tasks;
- the allocation state `Solution`, whose five views `map` and `unmap` update in place;
- the greedy and random depth-first allocators;
- the distance evaluator and its "best of a list" order;
- the simple, genetic and Markov-chain solvers;
- the older list-based Markov-chain module.

There is one Dafny module per source file:

- `Options` (options.dfy): `Option`, for the values the source writes as `None`.
- `Parameters` (parameters.dfy) models parameters.py: `Range` and the derived ranges.
- `ResourceVectors` (resources.dfy) models topology.py: `Resources`.
- `Topology` (topology.dfy) models topology.py: `_connect`, the neighbour lists the three `_connect` calls of `__init__` build, the distance table, workflows and tasks.
- `Mapping` (mapping.dfy) models solution.py: the five views as a value `State`, the pure `map`/`unmap` steps and their invariant.
- `Solutions` (solution.dfy) models solution.py: class `Solution`, whose methods update its fields and are proved equal to the `Mapping` steps.
- `Evaluation` (evaluation.dfy) models evaluator.py: `StupidEvaluator.evaluate` and `get_best`.
- `Allocation` (allocator.dfy) models allocator.py: the backtracking allocators over one shared `Solution`.
- `Solvers` (solver.dfy) models solver.py: base `solve`, `SimpleSolver`, `OptimalSolver`.
- `Genetic` (genetic.dfy) models solver_ga.py: `GeneticSolver`.
- `Markov` (markov.dfy) models solver_ma.py: `MarkovSolver`, with an `Attempt` outcome (a returned value or a `KeyError`).
- `LegacyMarkov` (legacy_markov.dfy) models ma.py: `cost_func`, `iterate`, `build_markov_chain`, `transit`, `calc_prob`, `migrate`.

Identities are indices: a node is its index in the topology's node list, and the same
holds for tasks and workflows. Random choices enter in one of three ways:

- as parameters: the `random()` threshold and the `shuffle` permutation, through a draw counter;
- as Dafny's nondeterministic choice (`:|`) for `random.choice`;
- as a given function `exp` with `exp(0) = 1` for `math.exp`.

Distances are a given non-negative table.

## Model

| member | source | states |
|---|---|---|
| Parameters.Width | parameters.py:13-16 | the width of a well-formed range is a natural number that, added to the start, gives the stop |
| Parameters.Shift | parameters.py:18-19 | `Range + k` moves both endpoints by exactly k |
| Parameters.ShiftPreservesWidth | parameters.py:13-19 | shifting keeps a range well formed and keeps its width |
| Parameters.ShiftMembership | parameters.py:8-19 | x lies in the shifted range exactly when x - k lies in the original one |
| Parameters.DerivedRanges | parameters.py:24-31 | the derived ranges are [40, 140), [100, 200) and [0, 200), so edge servers overlap the drone area and cloud servers overlap the edge-server area |
| ResourceVectors.Add | topology.py:112-113 | the sum has the left operand's names and each amount minus the right operand's amount is the left one's |
| ResourceVectors.Sub | topology.py:115-116 | the difference has the left operand's names and each amount plus the right operand's amount is the left one's |
| ResourceVectors.SubAddRoundTrip | topology.py:101-116 | (a - b) + b == a |
| ResourceVectors.AddSubRoundTrip | topology.py:101-116 | (a + b) - b == a |
| ResourceVectors.LeIffNonNegativeDifference | topology.py:109-116 | b <= a exactly when no amount of a - b is negative |
| ResourceVectors.LePreorder | topology.py:109-110 | `<=` is reflexive and transitive over vectors with the same names |
| ResourceVectors.SubtractionExample | topology.py:103-105 | the worked subtraction of the class comment holds |
| Topology.TaskInOwnWorkflowOnly | topology.py:179-213 | in a valid topology a task is listed by workflow w exactly when its own workflow is w |
| Topology.TableStep | topology.py:24-28 | one visit of the pair walk writes the pair in both orders and keeps the table invariant |
| Topology.TableNextRow | topology.py:24-28 | moving to the next row of the walk keeps the table invariant |
| Topology.BuildDistances | topology.py:23-28 | every ordered pair of nodes is measured, only nodes are keys, and the table is symmetric: each entry holds the value written by the later of its two visits |
| Topology.Row | topology.py:66 | the j-th pair of a row of `product` is (x, ys[j]) |
| Topology.AppendedSnoc | topology.py:66-76 | one more visited pair appends exactly what the loop body appends for it |
| Topology.ProductSnoc | topology.py:66 | `product` over one more left node is the old product followed by that node's row |
| Topology.ProductMembers | topology.py:66 | a pair is visited exactly when its first node is in the first list and its second in the second |
| Topology.ConnectPair | topology.py:67-76 | one visit appends node2 to node1's list and node1 to node2's list exactly when the pair is linked, and touches no other list |
| Topology.ConnectRow | topology.py:66-76 | node1 against every node of the second list appends to every list what the row of pairs appends |
| Topology.AppendedConcat | topology.py:66-76 | walking ps then qs appends what ps appends followed by what qs appends |
| Topology.Connect | topology.py:63-76 | `_connect` leaves every neighbour list extended by exactly what the walk over `product(nodes1, nodes2)` appends |
| Topology.AppendedNoSelf | topology.py:67-68 | no node is ever listed as its own neighbour |
| Topology.AppendedSymmetric | topology.py:75-76 | y is listed under x exactly when x is listed under y |
| Topology.AppendedFromLinkedPair | topology.py:66-76 | every listed neighbour comes from a visited pair that passed the linking test, in one order or the other |
| Topology.ConstrainedLinkInRange | topology.py:71-73 | under the distance constraint a link means the distance is within both nodes' transmission ranges |
| Topology.UnconstrainedLinksAll | topology.py:71 | without the constraint every visited pair of distinct nodes is linked both ways |
| Topology.AppendedCount | topology.py:66-76 | y occurs under x once per linked visit of (x, y) plus once per linked visit of (y, x) |
| Topology.ProductCount | topology.py:66 | a pair occurs in `product` as often as its first node times its second node occur in the lists |
| Topology.ConnectAll | topology.py:35-39 | from empty neighbour lists, the three `_connect` calls leave each node's list exactly what the walks over drones with drones (distance-constrained), drones with edge servers and edge servers with cloud servers append, in that order |
| Topology.AppendedInRange | topology.py:66-76 | every node a walk appends is one of the measured nodes |
| Topology.NeighbourhoodSymmetric | topology.py:37-39 | over the three walks, y is listed under x exactly when x is listed under y, no node lists itself and every listed node exists |
| Topology.BuiltLinksSymmetric | topology.py:35-39 | a topology whose neighbour lists are the ones `__init__` builds has symmetric links, no self-links and only existing nodes as neighbours |
| Topology.RowCount | topology.py:66 | a pair occurs in x's row as often as its second node occurs in the list, when its first node is x |
| Topology.DroneLinksListedTwice | topology.py:37 | linking drones with drones visits both orders, so two drones in range of each other list each other twice |
| Topology.Iota | topology.py:43 | the numbering 0..n-1 that `all_tasks` ends up being |
| Topology.NewWorkflow | topology.py:182-193 | one task per drawn demand, numbered after the existing tasks, labelled with the workflow and that demand; earlier tasks unchanged |
| Topology.NumberedStep | topology.py:179-193 | appending a new workflow keeps the workflows' task numbers consecutive |
| Topology.LabelledStep | topology.py:188-193 | appending a new workflow keeps every task labelled with its workflow and its drawn demand |
| Topology.DistinctStep | topology.py:188-193 | appending a new workflow keeps every workflow free of repeated tasks |
| Topology.ListedStep | topology.py:188-193 | appending a new workflow keeps every task listed by its own workflow |
| Topology.BuildWorkflows | topology.py:42-44 | one workflow per draw, each with as many tasks as demands; `all_tasks` is 0..n-1; each task carries its workflow and demand; no repeats; every task is listed by its workflow |
| Mapping.Place | solution.py:66-74 | a successful `map` leaves every view with one entry per workflow or node |
| Mapping.Unplace | solution.py:82-89 | a successful `unmap` leaves every view with one entry per workflow or node |
| Mapping.CountTrue | solution.py:92-94 | `workflow_alloc_cnt` never exceeds the number of workflows |
| Mapping.DeleteKeyMembers | solution.py:84 | deleting a key of the ordered node dictionary removes exactly that key |
| Mapping.DeleteKeyNoDup | solution.py:84 | deleting a key keeps the dictionary's keys distinct |
| Mapping.DeleteKeyMultiset | solution.py:84 | deleting a key removes every occurrence of it and nothing else |
| Mapping.DeleteKeyAppended | solution.py:67 | deleting the key just inserted gives back the original order (also line 84) |
| Mapping.HostNodesUpdate | solution.py:71 | mapping one more task adds its node to the nodes of its workflow's tasks |
| Mapping.HostNodesSize | solution.py:8-10 | a workflow's tasks have at most one node each, and exactly one each when all are mapped (also line 68) |
| Mapping.UsedBelowUpdate | solution.py:71-73 | mapping a task onto v adds its demand to what node v uses and nothing elsewhere |
| Mapping.InitialConsistent | solution.py:35-40 | a new solution keeps the five views in sync, has no workflow allocated and no task mapped, and every node has its full capacity available |
| Mapping.AllocatedIffAllMapped | solution.py:68-69 | under the invariant `wf_alloc[w]` holds exactly when every task of w is mapped (also line 85) |
| Mapping.NotAllMapped | solution.py:8 | a workflow with an unmapped task is not fully mapped |
| Mapping.PlaceInSync | solution.py:66-69 | an admitted placement keeps every workflow's node list and flag in sync |
| Mapping.PlaceAccounted | solution.py:71-73 | a placement within the available room keeps every node's room equal to capacity minus use, and non-negative |
| Mapping.PlaceConsistent | solution.py:58-75 | a placement the rule admits keeps all five views in sync |
| Mapping.UnplaceInSync | solution.py:82-85 | `unmap` keeps every workflow's node list and flag in sync |
| Mapping.UnplaceAccounted | solution.py:86-88 | `unmap` gives the task's demand back to its node |
| Mapping.UnplaceConsistent | solution.py:77-90 | `unmap` of a mapped task keeps the five views in sync |
| Mapping.MapConsistent | solution.py:49-75 | `map` keeps the invariant whether or not it succeeds; on success the task is on the target and the target's room shrank by the task's demand |
| Mapping.UnmapConsistent | solution.py:77-90 | `unmap` keeps the invariant, succeeds exactly when the task was mapped, and then removes it from every view and clears its workflow's flag |
| Mapping.MapUnmapRoundTrip | solution.py:58-90 | a successful `map` followed by `unmap` of the same task gives back the original state |
| Mapping.CountTrueCounts | solution.py:92-94 | the sum of the flags counts the flags that are set |
| Mapping.AllocCountIsAllocatedWorkflows | solution.py:92-94 | `workflow_alloc_cnt` is the number of workflows whose tasks are all mapped |
| Mapping.AsWrittenAgreesOnEmptyWorkflow | solution.py:49-56 | the rule as written and the corrected rule agree unless a first task targets a node its workflow already uses |
| Mapping.TwoTaskTopologyValid | solution.py:49-56 | the witness topology for the first-task finding is valid |
| Mapping.OneMappedConsistent | solution.py:49-56 | the witness state for the first-task finding is consistent |
| Mapping.AsWrittenFirstTaskBreaksInvariant | solution.py:49-56 | with task 0 on node 0, the rule as written maps task 1 of the same workflow onto node 0 too, which breaks the invariant; the corrected rule refuses |
| Evaluation.Evaluate | evaluator.py:23-33 | the loop returns the sum, over the workflows flagged allocated, of the distances between the nodes of consecutive tasks |
| Evaluation.ConsistentEvaluable | evaluator.py:26-30 | in a consistent state of a valid topology every lookup the evaluator makes succeeds |
| Evaluation.PathNonNegative | evaluator.py:27-30 | with non-negative distances the path of a workflow is never negative |
| Evaluation.DistanceBelowNonNegative | evaluator.py:25-30 | with non-negative distances every partial sum is non-negative |
| Evaluation.DistanceSumNonNegative | evaluator.py:23-33 | with non-negative distances the evaluation is never negative |
| Evaluation.PathFrame | evaluator.py:27-30 | a workflow's path depends only on where its own tasks are |
| Evaluation.DistanceBelowFrame | evaluator.py:25-30 | partial sums depend only on the allocation flags and the allocated workflows' tasks |
| Evaluation.DistanceSumOnlyAllocated | evaluator.py:25-26 | two states that agree on the flags and on the allocated workflows' nodes evaluate the same |
| Evaluation.DistanceBelowSingleTasks | evaluator.py:27 | workflows of one task contribute nothing to a partial sum |
| Evaluation.SingleTaskWorkflowsCostNothing | evaluator.py:27 | if every allocated workflow has one task the evaluation is 0 |
| Evaluation.FirstOrNone | evaluator.py:17-18 | the base evaluator's choice is None exactly for an empty list, else the first solution |
| Evaluation.ArgMin | evaluator.py:35-40 | None exactly for an empty list; otherwise the index of the first smallest key: no key is smaller, and every earlier key is larger |
| Evaluation.ArgMax | solver_ga.py:35 | None exactly for an empty list; otherwise the index of the first largest key: no key is larger, and every earlier key is smaller |
| Solutions.Solution.constructor | solution.py:16-47 | a new solution holds the initial state (nothing mapped, full capacity), keeps the invariant, and needs evaluation |
| Solutions.Solution.Mappable | solution.py:49-56 | the answer is exactly the admission rule: room for the task, a node the workflow does not use yet, and after the first task a neighbour of the previous node |
| Solutions.Solution.Map | solution.py:58-75 | the returned flag and the new views are those of `MapStep` on the old views, the invariant holds, and the solution needs evaluation after a success |
| Solutions.Solution.Unmap | solution.py:77-90 | the returned flag and the new views are those of `UnmapStep` on the old views, and the invariant holds |
| Solutions.Solution.WorkflowAllocCnt | solution.py:92-94 | the count is the number of workflows whose tasks are all mapped |
| Solutions.Solution.IsAllocated | solution.py:96-97 | a workflow is allocated exactly when every task of it is mapped |
| Solutions.Solution.AssignedNodes | solution.py:99-100 | the list holds, once each, exactly the nodes of the workflow's mapped tasks |
| Solutions.Solution.Evaluate | solution.py:102-108 | the views are unchanged, the cached value is the distance sum, and the key is `(-workflow_alloc_cnt, value)` with a non-positive first part |
| Solutions.Solution.Clone | solution.py:110-123 | a fresh solution with equal views, value and evaluation flag |
| Solutions.CloneIsIndependent | solution.py:110-123 | mapping a task on a clone leaves the original's views as they were |
| Solutions.Keys | evaluator.py:37-38 | one key per solution, each that solution's `(-workflow_alloc_cnt, evaluate())` |
| Solutions.GetBest | evaluator.py:35-40 | null exactly for an empty list; otherwise the first solution with the smallest key; every solution keeps its views |
| Allocation.Arrange | allocator.py:53-54 | the order nodes are tried in is a rearrangement of the list: the same nodes, the same number of times (also lines 73-74) |
| Allocation.ArrangeInRange | allocator.py:53-54 | a shuffled list of existing nodes holds existing nodes only (also lines 73-74) |
| Allocation.AllocWf | allocator.py:34-47 | the recursive search always leaves well-shaped views |
| Allocation.TryNext | allocator.py:41-44 | the neighbour loop always leaves well-shaped views |
| Allocation.StartLoop | allocator.py:24-26 | the start-node loop always leaves well-shaped views |
| Allocation.AllocateOne | allocator.py:23-26 | one workflow's turn always leaves well-shaped views (also lines 52-58) |
| Allocation.AllocateFrom | allocator.py:23-31 | the remaining workflows' turns always leave well-shaped views |
| Allocation.AllocateAll | allocator.py:22-31 | `allocate_workflows` always leaves well-shaped views |
| Allocation.NoDupTail | allocator.py:43 | dropping the first task of a duplicate-free list keeps it duplicate-free and drops that task |
| Allocation.UnmappedTail | allocator.py:35 | mapping the first of a list of unmapped tasks leaves the rest unmapped (also line 43) |
| Allocation.AllocWfRestores | allocator.py:34-47 | when the search on unmapped tasks fails, the state is exactly as it was found |
| Allocation.TryNextRestores | allocator.py:41-47 | when the neighbour loop fails, the state is exactly as it was entered |
| Allocation.AllocWfChains | allocator.py:34-44 | when the search on unmapped tasks succeeds, the views are consistent, every task sits on a neighbour of its predecessor's node, and no other task was mapped or moved |
| Allocation.GrowsCons | allocator.py:35 | mapping the first task and then growing by the rest grows by the whole list (also line 43) |
| Allocation.TryNextChains | allocator.py:41-44 | when the neighbour loop succeeds, the chain from the current node is complete and nothing outside the remaining tasks changed |
| Allocation.ChainedCons | allocator.py:41-44 | a chain extends at the front by one task placed on a node linked to the next one |
| Allocation.SharedTaskSameWorkflow | allocator.py:23-25 | a task listed by two workflows means they are the same workflow |
| Allocation.ChainedGrows | allocator.py:23-26 | a complete chain stays complete when mappings are only added |
| Allocation.StartFrom | allocator.py:24-26 | one start node for an all-or-nothing workflow either restores the state or completes the workflow as a chain |
| Allocation.StartLoopSound | allocator.py:24-26 | the start-node loop either leaves the state unchanged or allocates the workflow as a chain from one of the remaining start nodes, touching nothing else |
| Allocation.StartLoopAllOrNone | allocator.py:24-26 | after the start-node loop every workflow is still fully mapped or not mapped at all |
| Allocation.AllocateOneSound | allocator.py:23-26 | one workflow's turn keeps the views consistent and all-or-none; the workflow is either untouched or a chain of neighbouring nodes (also lines 52-58) |
| Allocation.AllocateFromKeeps | allocator.py:23-31 | the remaining turns keep the views consistent and all-or-none, and move or drop no mapped task |
| Allocation.AllocateFromChains | allocator.py:23-31 | every workflow newly allocated by the remaining turns is one of them and sits on a chain of neighbouring nodes |
| Allocation.NewlyMapped | allocator.py:23-26 | one turn's step for the chain property |
| Allocation.ChainsStep | allocator.py:23-31 | the chain property from turn w + 1 on, with turn w either changing nothing or allocating its workflow on a chain without moving mapped tasks, gives the property from turn w on |
| Allocation.AllocateAllFromInitial | allocator.py:10-31 | on a fresh solution the result is consistent and all-or-none, and every allocated workflow sits on a chain of neighbouring nodes, one node per task |
| Allocation.AllocateFromAllocated | allocator.py:23-26 | once every workflow is allocated, another run changes nothing |
| Allocation.Allocator.constructor | allocator.py:10-12 | a new allocator owns a fresh solution in the initial state |
| Allocation.Allocator.AllocWfTasks | allocator.py:34-47 | the flag, the new views and the shuffle count are those of the search function on the old views (also lines 66-81) |
| Allocation.Allocator.TryNeighbours | allocator.py:41-47 | the neighbour loop computes exactly the neighbour-loop function (also lines 73-81) |
| Allocation.Allocator.TryNeighbour | allocator.py:42-44 | one neighbour either completes the loop's result or leaves the state the rest of the loop starts from (also lines 76-78) |
| Allocation.Allocator.TryStarts | allocator.py:24-26 | the start-node loop computes exactly the start-loop function (also lines 56-58) |
| Allocation.Allocator.AllocateWorkflow | allocator.py:23-26 | one workflow's turn computes exactly its function, with the random allocator's shuffle of the start nodes (also lines 52-58) |
| Allocation.Allocator.AllocateWorkflows | allocator.py:22-31 | `allocate_workflows` returns the allocator's own solution, whose views and shuffle count are those of the search functions (also lines 51-63) |
| Solvers.Rounds | solver.py:71 | `range(size)` runs its body `size` times, and not at all for a size of zero or less |
| Solvers.Repeated | solver.py:71-72 | any number of allocation passes leaves well-shaped views |
| Solvers.RepeatedStep | solver.py:71-72 | pass k + 1 is `allocate_workflows` on the state and draw counter the first k passes left |
| Solvers.PassKeeps | solver.py:71-74 | each further pass of the allocator over the shared solution keeps the views consistent and all-or-none, and never moves or drops a mapped task |
| Solvers.PassChains | solver.py:71-74 | each further pass only adds workflows whose tasks sit on a chain of neighbouring nodes to those allocated since any earlier state |
| Solvers.ChainsCompose | solver.py:71-74 | "allocated only on chains" composes across passes when the later pass keeps the tasks the earlier ones mapped |
| Solvers.RepeatedSettled | solver.py:71-72 | once every workflow is allocated, further passes change nothing |
| Solvers.BaseSolve | solver.py:16-18 | `Solver.solve` returns the allocator's own solution after one allocation pass |
| Solvers.SimpleSolver.constructor | solver.py:65-67 | the solver keeps its topology, allocator and size |
| Solvers.SimpleSolver.WithDefaultSize | solver.py:65-67 | without a size the solver samples 100000 times |
| Solvers.SimpleSolver.Optimal | solver.py:86-88 | `OptimalSolver` is a simple solver of size one |
| Solvers.SimpleSolver.Sample | solver.py:70-74 | `Rounds(size)` results are kept, all of them the allocator's own solution, which holds the state of that many passes |
| Solvers.SimpleSolver.Solve | solver.py:69-80 | null exactly when the size is zero or less; otherwise the allocator's own solution, after `Rounds(size)` passes |
| Genetic.Trunc | solver_ga.py:54 | `int()` of a float truncates toward zero: the result is within one of x, on the side of zero (also line 67) |
| Genetic.InsertPermutes | solver_ga.py:65 | inserting a member into the ranked list adds exactly that member |
| Genetic.SortPermutes | solver_ga.py:65 | `sort(key=evaluate)` rearranges the population: the same members, the same number of times |
| Genetic.InsertSorted | solver_ga.py:65 | inserting into an ascending list keeps it ascending |
| Genetic.SortSorted | solver_ga.py:65 | the sorted population is in ascending key order |
| Genetic.WithKeyConcat | solver_ga.py:65 | the members with one key in a joined list are those of each part, in order |
| Genetic.WithKeyAbsent | solver_ga.py:65 | a list without a key has no members with it |
| Genetic.InsertStable | solver_ga.py:65 | insertion puts a member after every member with the same key |
| Genetic.SortStable | solver_ga.py:65 | the sort is stable: members that share a key keep their order |
| Genetic.InsertLast | solver_ga.py:65 | a member no smaller than every member goes to the end |
| Genetic.SortSortedUnchanged | solver_ga.py:65 | sorting an ascending list leaves it as it is |
| Genetic.Prefix | solver_ga.py:66-75 | the iterator loop takes a prefix of the population, of the length `PrefixLength` says: none for n <= 0, all when n is too large |
| Genetic.SliceTo | solver_ga.py:55 | the slice `population[:n]` is a prefix of the length `SliceLength` says, counting a negative n from the end |
| Genetic.SliceToBounds | solver_ga.py:55 | a non-negative slice bound takes what the iterator loop takes; a negative bound -d drops the last d members, or everything when d is too large (also lines 66-75) |
| Genetic.ChildrenPairs | solver_ga.py:44-51 | the crossover loop makes one child per pair of candidates, child k being the mother popped k-th: the (2k+1)-th candidate from the end (also lines 77-78) |
| Genetic.MutateAllIdentity | solver_ga.py:55-56 | the mutants of a list are that list (also lines 83-84) |
| Genetic.ChildrenMembers | solver_ga.py:44-51 | every child is one of the candidates |
| Genetic.SortIdempotent | solver_ga.py:65 | sorting the sorted population again changes nothing |
| Genetic.NextGenerationLayout | solver_ga.py:38-62 | a generation is the children of the best-ranked pairs, then the first `int(size*mutation_ratio)` members of the sorted population, then its best-ranked survivors |
| Genetic.NextGenerationMembers | solver_ga.py:38-62 | every member of a new generation was a member of the population before |
| Genetic.ShareBounds | solver_ga.py:54 | `int(size * ratio)` is between 0 and `size * ratio` for non-negative arguments (also line 67) |
| Genetic.SharesBounded | solver_ga.py:38-62 | the three shares of a generation add up to at most `population_size` |
| Genetic.NextGenerationBounded | solver_ga.py:38-62 | with ratios in [0, 1] adding up to at most 1 a generation is never larger than `population_size` |
| Genetic.MaxPicksFewerAllocated | solver_ga.py:35 | `max` by `evaluate()` picks the member with fewer allocated workflows where `get_best` picks the other |
| Genetic.SharedKeyHidesChoice | solver_ga.py:35 | when all members share one key, `max` and `min` both pick the first member |
| Genetic.Tagged | solver_ga.py:65 | every member of the list carries the one key |
| Genetic.Items | solver_ga.py:65 | the members of a ranked list, in order |
| Genetic.Copies | solver_ga.py:23-25 | n copies of one member |
| Genetic.Uniform | solver_ga.py:23-25 | two lists of one repeated member are equal when their lengths are |
| Genetic.NextGenerationLength | solver_ga.py:38-62 | a generation's length depends on the population's length only |
| Genetic.Zip | solver_ga.py:65 | members paired with their keys, position by position |
| Genetic.SortCopies | solver_ga.py:65 | sorting copies of one member with one key gives the same copies |
| Genetic.NextGenerationOfCopies | solver_ga.py:38-62 | a generation of n copies of one member is that member repeated `GenerationLength(p, n)` times |
| Genetic.GenerationsLengthBounded | solver_ga.py:32-33 | under the ratio bounds the population never grows beyond `population_size`, however many generations run |
| Genetic.AssembledCopies | solver_ga.py:38-62 | what the three loops assemble from n copies of one member is `GenerationLength(p, n)` copies |
| Genetic.GeneticSolver.constructor | solver_ga.py:16-19 | the solver keeps its topology, allocator and parameters and starts with an empty population |
| Genetic.GeneticSolver.SelectByRank | solver_ga.py:64-75 | the population is sorted by key (all copies of one solution, so the order is kept) and the selection is its first `int(size*ratio)` members |
| Genetic.GeneticSolver.EvaluateAll | solver_ga.py:65 | one key per member, each the shared solution's key, with its views unchanged |
| Genetic.GeneticSolver.TakeFirst | solver_ga.py:68-73 | the iterator loop takes exactly `Prefix(xs, n)` |
| Genetic.GeneticSolver.Crossovers | solver_ga.py:44-51 | the crossover loop computes exactly `Children(candidates)` |
| Genetic.GeneticSolver.Mutants | solver_ga.py:55-56 | the mutation loop computes exactly `MutateAll(chosen)` |
| Genetic.GeneticSolver.MakeNextGeneration | solver_ga.py:38-62 | the new generation is the shared solution repeated `GenerationLength(p, |population|)` times, as `NextGeneration` of the ranked population says |
| Genetic.GeneticSolver.InitialPopulation | solver_ga.py:22-25 | the population is the allocator's own solution `Rounds(population_size)` times, holding the state of that many passes |
| Genetic.GeneticSolver.Evolve | solver_ga.py:32-33 | after `n_generation` generations the population is the shared solution repeated `GenerationsLength` times |
| Genetic.GeneticSolver.Solve | solver_ga.py:21-35 | the population after the generations; None exactly when it is empty, else its best member by the `get_best` order |
| Markov.TriplesMappedIffAllMapped | solver_ma.py:29-34 | the sweep over `zip(tmp, tmp[1:], tmp[2:])` reads only mapped tasks exactly when the workflow has fewer than two tasks or all its tasks are mapped |
| Markov.ReplacementsMembers | solver_ma.py:37-43 | a node is a candidate iff it holds none of the workflow's tasks, neighbours the next task's node when there is one, differs from the task's node, neighbours the previous task's node and has room for the task's demand |
| Markov.RelocateAccepted | solver_ma.py:46-49 | for every candidate, `unmap` then `map` from the previous node succeed, the views stay consistent, only the moved task's node changes and the same workflows stay allocated |
| Markov.RelocateKeepsChains | solver_ma.py:37-49 | over symmetric links, moving a task to a candidate keeps every workflow whose tasks sat on a chain of neighbouring nodes chained |
| Markov.BuiltRelocatedKeepsChains | solver_ma.py:37-49 | over the links `__init__` builds, with no symmetry hypothesis, a relocation keeps every chained workflow chained |
| Markov.MovedAtRelocated | solver_ma.py:46-50 | every proposal keeps the mapped tasks and allocated workflows and, over symmetric links, the chains |
| Markov.RelocatedTransitive | solver_ma.py:28-53 | relocation composes across iterations |
| Markov.RelocatedSweepable | solver_ma.py:32-34 | after relocations the sweep raises `KeyError` exactly when it did on the start |
| Markov.SameCostRateOne | solver_ma.py:82-83 | equal costs give the rate exp(0) = 1 |
| Markov.SameDistanceRateOne | solver_ma.py:78-83 | a target whose evaluation equals the base's moves with rate 1 |
| Markov.LongerDistanceHigherRate | solver_ma.py:78-83 | with an increasing exp and positive beta, a target with a larger evaluation gets a strictly larger rate |
| Markov.Rates | solver_ma.py:68 | one rate per candidate, each the transition rate from the base to that candidate |
| Markov.FirstAbove | solver_ma.py:70-74 | the index found is the first whose running sum exceeds the threshold; no index means no running sum does |
| Markov.Choose | solver_ma.py:64-76 | no index exactly when there are no candidates, otherwise an index into the candidates |
| Markov.PrefixSumMonotone | solver_ma.py:70-72 | with non-negative rates the running sum never decreases |
| Markov.ChooseSlice | solver_ma.py:69-74 | roulette selection: with non-negative rates, candidate j is chosen exactly when the threshold falls in its slice [sum before j, sum through j) |
| Markov.ChooseNeverFallsBack | solver_ma.py:64-76 | for a positive total and a draw u in [0, 1), the threshold `u * total` is exceeded by some running sum, so `_select` returns the first such index and never takes the `candidates[-1]` fallback |
| Markov.MarkovSolver.constructor | solver_ma.py:14-17 | the solver keeps its topology, allocator, parameters and exp |
| Markov.MarkovSolver.Propose | solver_ma.py:31-50 | `KeyError` exactly when the triple reads an unmapped task; no proposal exactly when there is no candidate node; otherwise a fresh clone with the task moved to a candidate node |
| Markov.MarkovSolver.ProposeRelocation | solver_ma.py:31-50 | as Propose, with the proposal counted against the movable triples and seen as a relocation of `current` |
| Markov.MarkovSolver.SweepWorkflow | solver_ma.py:30-50 | `KeyError` exactly when a workflow of two or more tasks is not wholly mapped; otherwise one fresh relocation per movable triple |
| Markov.MarkovSolver.Sweep | solver_ma.py:29-50 | `KeyError` exactly when some workflow is not sweepable; otherwise one fresh relocation per movable triple over all workflows |
| Markov.MarkovSolver.RateOf | solver_ma.py:78-83 | the transition rate of the two evaluations, with both solutions left unchanged |
| Markov.MarkovSolver.EvaluateRates | solver_ma.py:68 | one rate per candidate, each the transition rate from the base, with every solution left unchanged |
| Markov.MarkovSolver.Pick | solver_ma.py:70-76 | the loop returns exactly the index `Choose` defines |
| Markov.MarkovSolver.Select | solver_ma.py:64-76 | none exactly when there are no candidates; otherwise the candidate `Choose` picks at `random()` times the sum of the rates |
| Markov.MarkovSolver.SolveOnce | solver_ma.py:25-61 | the allocator runs once; `KeyError` exactly when at least one iteration sweeps an unsweepable allocation; otherwise the result is the allocation or a fresh relocation of it |
| Markov.MarkovSolver.Grow | solver_ma.py:29-50 | the sweep's proposals descend from the start, and it fails exactly when the start is not sweepable |
| Markov.MarkovSolver.Jump | solver_ma.py:52-53 | the next solution is the current one or one of the candidates, all left unchanged |
| Markov.MarkovSolver.NextRun | solver_ma.py:20 | one more `_solve`: the next allocation pass on the shared solution, recorded in the pass list; `KeyError` exactly when iterations run and that pass leaves the solution unsweepable; a returned run is the allocator's own solution or a fresh relocation of that pass's state, and earlier runs keep theirs |
| Markov.MarkovSolver.Runs | solver_ma.py:20 | up to ten runs, stopping at the first `KeyError`: pass j + 1 lies behind run j, the allocator holds the state of the last pass, the run that raises follows an unsweepable pass and every earlier one a sweepable pass (when iterations run), and each run is the allocator's own solution or a relocation of its pass's state |
| Markov.MarkovSolver.BestRun | solver_ma.py:21 | `get_best` over the runs picks the first smallest key and leaves every run's state and the allocator's as they were |
| Markov.MarkovSolver.Solve | solver_ma.py:19-23 | `KeyError` exactly when iterations run and one of the first ten passes leaves the shared solution unsweepable, raised by the first such run; otherwise, after ten passes recorded in the allocator's state, the `get_best` choice among the ten runs, each the allocator's own solution or a relocation of its pass's state |
| LegacyMarkov.CostFunc | ma.py:26-43 | the loop's three totals are exactly `CostOf`: demands of the rows with non-negative task id of every allocated entry, and the delay factors of their nodes |
| LegacyMarkov.AddDemand | ma.py:34-37 | the loop adds exactly the processing and bandwidth demand of the rows with non-negative task id |
| LegacyMarkov.AddDelay | ma.py:38-39 | the loop adds exactly the delay factors of the nodes |
| LegacyMarkov.RelabelledKeepsDemand | ma.py:31-37 | chromosomes that differ only in the nodes of their entries have equal processing and bandwidth totals |
| LegacyMarkov.RelabelledTransitive | ma.py:46-54 | differing only in nodes composes across iterations |
| LegacyMarkov.CalcProbNoWorse | ma.py:94-98 | a move not lexicographically worse whose summed cost does not rise gets at least 1 / NumOfWorkflows = 1/20, and exactly that for equal costs |
| LegacyMarkov.CalcProbWorse | ma.py:95-96 | a lexicographically worse move gets 0 |
| LegacyMarkov.CalcProbCanBeNegative | ma.py:97-98 | a move that improves the first cost while raising the sum by more than 100 gets a negative probability |
| LegacyMarkov.Probs | ma.py:85-87 | one probability per link, the link's own |
| LegacyMarkov.Reached | ma.py:85-88 | the index found is the first from i whose cumulative probability reaches the bound; none means no cumulative sum does |
| LegacyMarkov.TransitIndex | ma.py:81-91 | no index exactly when the chain is empty, otherwise an index into the chain |
| LegacyMarkov.TransitAsWrittenPicksZero | ma.py:85-89 | as written, the chain with probabilities [0, 1] and bound 0.5 returns the entry of probability 0; the cumulative choice returns the other |
| LegacyMarkov.TransitIndexInSlice | ma.py:81-91 | with non-negative probabilities and a bound in (0, total], the chosen entry's slice holds the bound and its probability is positive |
| LegacyMarkov.Transit | ma.py:81-91 | none exactly when the chain is empty (the assertion); otherwise the chromosome of the entry `TransitIndex` picks, by a loop over the running sum |
| LegacyMarkov.Targets | ma.py:116-120 | every candidate is a node linked from the previous node that links to the next node when there is one |
| LegacyMarkov.TargetsAsWrittenBreakChain | ma.py:117-118 | as written, a node linked from the previous node but not to the next one is a candidate; with the link to the next node tested it is not |
| LegacyMarkov.Candidates | ma.py:115-120 | the loop collects exactly `Targets` over all nodes |
| LegacyMarkov.Migrate | ma.py:102-129 | succeeds exactly when there is a candidate; on failure the assignments are unchanged, on success only position j changes, to a candidate |
| LegacyMarkov.MigratedAtRelabelled | ma.py:71-72 | a migrated copy is well formed and differs from the original only in nodes |
| LegacyMarkov.MigrationKeepsChain | ma.py:116-128 | migration keeps an assignment list whose every hop is a network link (or to node 0) so chained |
| LegacyMarkov.MigrateCopy | ma.py:71-72 | a copy exactly when position j can migrate, and then the original with position j moved to a candidate |
| LegacyMarkov.MigratedRelabelled | ma.py:70-75 | every link's chromosome is well formed and differs from the current one only in nodes |
| LegacyMarkov.ChainLinks | ma.py:70-75 | one link per migratable position of the entry, each a migration with its `calc_prob` probability |
| LegacyMarkov.LinkAt | ma.py:71-75 | a link exactly when the position can migrate, then a migration with its `calc_prob` probability |
| LegacyMarkov.BuildMarkovChain | ma.py:57-78 | skips placeholders and unallocated entries; one link per migratable position of the allocated entries, each a migration of the chromosome with probability `calc_prob(current cost, new cost)` |
| LegacyMarkov.Step | ma.py:50-51 | fails exactly when the chain is empty; otherwise a migration of the current chromosome, with the processing and bandwidth totals of the start |
| LegacyMarkov.Iterate | ma.py:46-54 | fails only when iterations run; otherwise `n_iteration + 1` costs, the first the start's, all with the start's processing and bandwidth totals |

## Left out

- Plotting, rendering and debug output are not modelled: visualizer.py, `ma.display`, `print_summary`, `print_allocation`, `_print_nodes`, `_print_workflow_n_tasks`, `info`, `__repr__`, the `[DBG]` prints and the `input()` prompts. Apart from the `NameError` lines below, they do not change the allocation state.
- main.py is a driver script and is not part of this model.
- Node deployment with `randrange` and random workflow and task generation (topology.py:51-58, 186-193) are not modelled. The topology, its node positions and its distance table are given.
- The Euclidean distance (`pow(..., 0.5)`) is a given non-negative distance table, and `math.exp` is a given function with `exp(0) = 1`.
- All floating-point arithmetic is exact `real` arithmetic, so rounding is not modelled. `int()` of a ratio is modelled as truncation toward zero (`Genetic.Trunc`).
- `shuffle` is an injected rearrangement of a list, indexed by a draw counter. `random.choice` is a nondeterministic choice among the candidates, and `random()` is a parameter in [0, 1).
- The `id_base` counters are not modelled, because identities are list indices.
- The class-level `Solution.topology` and `Solution.evaluator` fallbacks (solution.py:13-30) are not modelled. The topology is an explicit constructor argument, and the evaluator is always the distance evaluator.
- `Solution.__lt__` and `__gt__` (solution.py:125-129) are not modelled separately. They are `get_best` of a pair, which `Solutions.GetBest` covers.
- The cached `value` of a solution is not modelled. `evaluate` recomputes it on every call, as the source's `if True:` branch does.
- Multi-hop routing, energy and fairness evaluators, and an exhaustive allocator do not exist in these files and are not modelled.
- `Solver.re_solve`, `SimpleSolver.re_solve`, `MarkovSolver.re_solve` and `GeneticSolver._fix` are stubs with no behaviour, so they are not modelled.
- solver.py:3 imports `BaseEvaluator`, which evaluator.py does not define. The model takes the distance evaluator in its place.
- `GeneticSolver.__init__` (solver_ga.py:17) passes two arguments to the three-argument `Solver.__init__`. The model builds the solver as if the evaluator were passed.
- `MarkovSolver._solve` passes `multihop=True` (solver_ma.py:41, 49), which `mappable` and `map` do not accept. It also intersects a set with a list (solver_ma.py:38). The model uses the single-hop `mappable` and `map`, and set intersection with the node's neighbours.
- Python's `KeyError` is modelled only where the source can reach it by design. That is `_solve` reading the node of an unallocated task, modelled by `Attempt`.
- The commented-out block at solver_ma.py:103-221 repeats ma.py and is modelled once, as `LegacyMarkov`.
- The ma.py globals `WorkflowInfo`, `DelayFactorOfDEC` and `ConnectionInfo` exist only as comments in parameters.py. They are a `Tables` parameter of every `LegacyMarkov` member.
- The `cost_func` argument of `iterate` and `build_markov_chain` is fixed to the default `cost_func`.
- `LegacyMarkov` inputs that would raise `IndexError` or `TypeError` are excluded by the `WellFormed` precondition. Such inputs are an entry index beyond `WorkflowInfo`, or a node beyond the connection table.
- `LegacyMarkov.Iterate`: when a round builds an empty chain, `transit` fails its assertion. The model returns None for this case instead of stopping.
- `LegacyMarkov.BuildMarkovChain`: states the number of links and that each link is a migration of some allocated position with its `calc_prob` probability. It does not pair the k-th link with the k-th (entry, position) in loop order.
- `LegacyMarkov.Step`: states that the next chromosome is some migration of the current one, not which link `transit` picks, because the threshold is a nondeterministic choice.
- `Genetic.GeneticSolver.Solve`: returns None for an empty population, where `max` at solver_ga.py:35 raises `ValueError`.
- `Topology.ValidTopology`: requires every workflow to have at least one task. The shipped parameters draw exactly 4 tasks (`randint` at topology.py:186); a workflow with no task would raise `IndexError` at `tasks[0]` (allocator.py:35), and the model does not cover that case.
- `Solvers.SimpleSolver.Solve`: with `DEBUG = True` (parameters.py:5) the source calls `print_summary` (solver.py:76-77), which reads the undefined name `DEBUG_ALL_CASES` (solver.py:48) and raises `NameError` whenever `get_best` finds a solution. The model treats the debug output as having no effect.
- `Markov.MarkovSolver.Solve`: calls `print_summary([result])` (solver_ma.py:22), which raises the same `NameError` at solver.py:48. The model treats it as having no effect.
- `Markov.MarkovSolver.SolveOnce`: the debug test at solver_ma.py:55 reads the undefined `DEBUG_ALL_CASES` first, so as written the first iteration that gets past its sweep raises `NameError`. The model treats the test as false.
- `Markov.MarkovSolver.Jump`: states only that the next solution is the current one or one of the candidates. `Select` states which candidate.
- `Markov.MarkovSolver.SolveOnce`: states what every returned solution shares with the allocation (a relocation of it). It does not state which sequence of choices led there.
- `Parameters` constants other than the ranges and the number of workflows are not modelled. They only size the random generation left out above.

## Findings

| source | as written | input that shows it | evidently intended | confidence | as-written member | corrected member |
|---|---|---|---|---|---|---|
| solution.py:49-56 | with no previous node, `mappable` checks only the resources and skips the "node already used by this workflow" test | task 0 of a two-task workflow on node 0, then `map(None, task 1, node 0)`: accepted, and the views fall out of sync, so a later `unmap` of task 1 drops node 0 while task 0 still sits there | the used-node test applies to every task, including the first | not executed | Mapping.AsWrittenFirstTaskBreaksInvariant | Mapping.MapConsistent |
| solver_ga.py:35 | `solve` returns `max(population, key=evaluate)`, and `evaluate` is `(-allocated count, distance)`, so the answer is the member with the fewest allocated workflows, then the longest distance | keys (-2, 5.0) and (-1, 1.0): `max` picks the second, the one with fewer workflows allocated | the best member, as `get_best` orders them (the smallest key) | not executed | Genetic.MaxPicksFewerAllocated | Genetic.GeneticSolver.Solve |
| ma.py:85-89 | `transit` returns entry `i-1` for the first `i >= 1` whose running sum through `i` reaches the bound, so the first entry's own probability is never tested | probabilities [0, 1] with bound 0.5: returns the entry of probability 0 | the first entry whose running sum reaches the bound (roulette selection) | not executed | LegacyMarkov.TransitAsWrittenPicksZero | LegacyMarkov.Transit |
| ma.py:116-118 | `migrate` tests `ConnectionInfo[end_node][next_node]`, a link of the old node, instead of a link from the candidate `k` | links 1-2, 2-3 and 1-4, with the list [1, 2, 3] migrating position 1: node 4 is a candidate though 4 and 3 are not linked | the candidate must link to the next node: `ConnectionInfo[k][next_node]` | not executed | LegacyMarkov.TargetsAsWrittenBreakChain | LegacyMarkov.Migrate |
