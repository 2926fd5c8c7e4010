/** `GeneticSolver` (solver_ga.py): a population of allocator results is
    ranked by `evaluate()`, and each generation is made of the children of
    the best-ranked pairs, mutants of the best members and the best-ranked
    survivors.  Crossover and mutation are identity stubs, so every generation
    is drawn from the members of the first one.  The generation rule is stated
    once as functions on ranked lists; the class `GeneticSolver` is proved to
    compute it. */
module Genetic {
  import opened Options
  import opened Topology
  import opened Mapping
  import opened Evaluation
  import opened Solutions
  import opened Allocation
  import opened Solvers

  /** `GeneticSolverParameters`; the ratios are floats in the source. */
  datatype Params = Params(populationSize: int, nGeneration: int, selectionRatio: real, mutationRatio: real)

  /** Python's `int(x)` on a float: truncation toward zero. */
  function Trunc(x: real): (n: int)
    ensures x >= 0.0 ==> n as real <= x < n as real + 1.0
    ensures x <= 0.0 ==> n as real - 1.0 < x <= n as real
  {
    if x >= 0.0 then x.Floor else -((-x).Floor)
  }

  /** `int(population_size * ratio)`. */
  function Share(p: Params, ratio: real): int {
    Trunc(p.populationSize as real * ratio)
  }

  // ---------------------------------------------------------------------------
  // Ranking: `list.sort(key=...)`, a stable sort by key
  // ---------------------------------------------------------------------------

  /** A member together with the key `evaluate()` gave it. */
  datatype Ranked<T> = Ranked(key: Score, item: T)

  ghost predicate SortedByKey<T>(xs: seq<Ranked<T>>) {
    forall i, j | 0 <= i < j < |xs| :: !Less(xs[j].key, xs[i].key)
  }

  /** Puts x after every member whose key is not greater than its own. */
  function Insert<T>(xs: seq<Ranked<T>>, x: Ranked<T>): (r: seq<Ranked<T>>)
    ensures |r| == |xs| + 1
  {
    if xs == [] || Less(x.key, xs[0].key) then [x] + xs else [xs[0]] + Insert(xs[1..], x)
  }

  /** The population in ascending key order, equal keys in their old order. */
  function SortByKey<T>(xs: seq<Ranked<T>>): (r: seq<Ranked<T>>)
    ensures |r| == |xs|
  {
    if xs == [] then [] else Insert(SortByKey(xs[..|xs| - 1]), xs[|xs| - 1])
  }

  /** The items whose key is k, in list order. */
  function WithKey<T>(xs: seq<Ranked<T>>, k: Score): seq<T> {
    if xs == [] then [] else (if xs[0].key == k then [xs[0].item] else []) + WithKey(xs[1..], k)
  }

  lemma {:induction false} InsertPermutes<T>(xs: seq<Ranked<T>>, x: Ranked<T>)
    ensures multiset(Insert(xs, x)) == multiset(xs) + multiset{x}
  {
    if xs != [] && !Less(x.key, xs[0].key) {
      InsertPermutes(xs[1..], x);
      assert xs == [xs[0]] + xs[1..];
    }
  }

  /** The sort rearranges the population. */
  lemma {:induction false} SortPermutes<T>(xs: seq<Ranked<T>>)
    ensures multiset(SortByKey(xs)) == multiset(xs)
  {
    if xs != [] {
      SortPermutes(xs[..|xs| - 1]);
      InsertPermutes(SortByKey(xs[..|xs| - 1]), xs[|xs| - 1]);
      assert xs == xs[..|xs| - 1] + [xs[|xs| - 1]];
    }
  }

  lemma {:induction false} InsertSorted<T>(xs: seq<Ranked<T>>, x: Ranked<T>)
    requires SortedByKey(xs)
    ensures SortedByKey(Insert(xs, x))
    decreases |xs|
  {
    if xs != [] && !Less(x.key, xs[0].key) {
      InsertSorted(xs[1..], x);
      InsertPermutes(xs[1..], x);
      var rest := Insert(xs[1..], x);
      forall j | 0 <= j < |rest| ensures !Less(rest[j].key, xs[0].key) {
        assert rest[j] in multiset(rest);
      }
    }
  }

  /** The sort is ascending. */
  lemma {:induction false} SortSorted<T>(xs: seq<Ranked<T>>)
    ensures SortedByKey(SortByKey(xs))
  {
    if xs != [] {
      SortSorted(xs[..|xs| - 1]);
      InsertSorted(SortByKey(xs[..|xs| - 1]), xs[|xs| - 1]);
    }
  }

  lemma {:induction false} WithKeyConcat<T>(a: seq<Ranked<T>>, b: seq<Ranked<T>>, k: Score)
    ensures WithKey(a + b, k) == WithKey(a, k) + WithKey(b, k)
  {
    if a == [] {
      assert a + b == b;
    } else {
      assert (a + b)[0] == a[0] && (a + b)[1..] == a[1..] + b;
      WithKeyConcat(a[1..], b, k);
      var h := if a[0].key == k then [a[0].item] else [];
      assert WithKey(a + b, k) == h + WithKey(a[1..] + b, k);
      assert h + (WithKey(a[1..], k) + WithKey(b, k)) == (h + WithKey(a[1..], k)) + WithKey(b, k);
    }
  }

  lemma {:induction false} WithKeyAbsent<T>(xs: seq<Ranked<T>>, k: Score)
    requires forall i | 0 <= i < |xs| :: xs[i].key != k
    ensures WithKey(xs, k) == []
  {
    if xs != [] {
      WithKeyAbsent(xs[1..], k);
    }
  }

  lemma {:induction false} InsertStable<T>(xs: seq<Ranked<T>>, x: Ranked<T>, k: Score)
    requires SortedByKey(xs)
    ensures WithKey(Insert(xs, x), k) == WithKey(xs, k) + (if x.key == k then [x.item] else [])
    decreases |xs|
  {
    if xs == [] {
    } else if Less(x.key, xs[0].key) {
      assert ([x] + xs)[1..] == xs;
      if x.key == k {
        WithKeyAbsent(xs, k);
      }
    } else {
      assert ([xs[0]] + Insert(xs[1..], x))[1..] == Insert(xs[1..], x);
      InsertStable(xs[1..], x, k);
    }
  }

  /** The sort is stable: the members that share a key keep their order. */
  lemma {:induction false} SortStable<T>(xs: seq<Ranked<T>>, k: Score)
    ensures WithKey(SortByKey(xs), k) == WithKey(xs, k)
  {
    if xs != [] {
      var init, last := xs[..|xs| - 1], xs[|xs| - 1];
      SortStable(init, k);
      SortSorted(init);
      InsertStable(SortByKey(init), last, k);
      assert xs == init + [last];
      WithKeyConcat(init, [last], k);
    }
  }

  lemma {:induction false} InsertLast<T>(xs: seq<Ranked<T>>, x: Ranked<T>)
    requires forall i | 0 <= i < |xs| :: !Less(x.key, xs[i].key)
    ensures Insert(xs, x) == xs + [x]
  {
    if xs != [] {
      InsertLast(xs[1..], x);
    }
  }

  /** Sorting a sorted population leaves it as it is. */
  lemma {:induction false} SortSortedUnchanged<T>(xs: seq<Ranked<T>>)
    requires SortedByKey(xs)
    ensures SortByKey(xs) == xs
  {
    if xs != [] {
      var init := xs[..|xs| - 1];
      SortSortedUnchanged(init);
      InsertLast(init, xs[|xs| - 1]);
      assert init + [xs[|xs| - 1]] == xs;
    }
  }

  // ---------------------------------------------------------------------------
  // One generation
  // ---------------------------------------------------------------------------

  /** The first `int(n)` members, as the iterator loop of `_select_by_rank`
      collects them: none for n <= 0, all of them when n is too large. */
  function Prefix<T>(xs: seq<T>, n: int): (r: seq<T>)
    ensures |r| == PrefixLength(|xs|, n)
    ensures r <= xs
  {
    if n <= 0 then [] else if n <= |xs| then xs[..n] else xs
  }

  /** How many members `Prefix` takes from a list of the given length. */
  function PrefixLength(length: nat, n: int): nat {
    if n <= 0 then 0 else if n <= length then n else length
  }

  /** How many members `SliceTo` takes from a list of the given length. */
  function SliceLength(length: nat, n: int): nat {
    if n >= 0 then (if n <= length then n else length)
    else if length + n >= 0 then length + n
    else 0
  }

  /** Python's slice `xs[:n]`: a negative n counts from the end. */
  function SliceTo<T>(xs: seq<T>, n: int): (r: seq<T>)
    ensures r <= xs
    ensures |r| == SliceLength(|xs|, n)
  {
    if n >= 0 then (if n <= |xs| then xs[..n] else xs)
    else if |xs| + n >= 0 then xs[..|xs| + n]
    else []
  }

  /** A slice with a non-negative bound takes the same members as the
      iterator loop; a negative bound -d drops the last d members. */
  lemma SliceToBounds<T>(xs: seq<T>, n: int)
    ensures n >= 0 ==> SliceTo(xs, n) == Prefix(xs, n)
    ensures n < 0 && -n <= |xs| ==> SliceTo(xs, n) + xs[|xs| + n..] == xs
    ensures n < 0 && -n > |xs| ==> SliceTo(xs, n) == []
  {
  }

  /** `_crossover`: the mother. */
  function Crossover<T>(mother: T, father: T): T {
    mother
  }

  /** `_mutate`: the member itself. */
  function Mutate<T>(x: T): T {
    x
  }

  /** The crossover loop: candidates popped in pairs from the end, the first
      of each pair being the mother; an odd one left over is dropped. */
  function Children<T>(c: seq<T>): seq<T> {
    if |c| < 2 then [] else [Crossover(c[|c| - 1], c[|c| - 2])] + Children(c[..|c| - 2])
  }

  /** One child per pair, and child k is the k-th member from the end taken
      two at a time. */
  lemma {:induction false} ChildrenPairs<T>(c: seq<T>)
    ensures |Children(c)| == |c| / 2
    ensures forall k | 0 <= k < |c| / 2 :: Children(c)[k] == c[|c| - 1 - 2 * k]
  {
    if |c| >= 2 {
      ChildrenPairs(c[..|c| - 2]);
    }
  }

  /** The mutation loop: each member's mutant, in order. */
  function MutateAll<T>(xs: seq<T>): seq<T> {
    if xs == [] then [] else [Mutate(xs[0])] + MutateAll(xs[1..])
  }

  lemma {:induction false} MutateAllIdentity<T>(xs: seq<T>)
    ensures MutateAll(xs) == xs
  {
    if xs != [] {
      MutateAllIdentity(xs[1..]);
    }
  }

  /** `_make_next_generation` on a ranked population: children of the best
      `int(size * selection_ratio)`, then mutants of the first
      `int(size * mutation_ratio)`, then `_select_by_rank` of what is left of
      the ratios. */
  function NextGeneration<T>(p: Params, pop: seq<Ranked<T>>): seq<Ranked<T>> {
    var sorted := SortByKey(pop);
    var candidates := Prefix(sorted, Share(p, p.selectionRatio));
    var mutants := MutateAll(SliceTo(sorted, Share(p, p.mutationRatio)));
    var survivors := Prefix(SortByKey(sorted), Share(p, 1.0 - p.selectionRatio - p.mutationRatio));
    Children(candidates) + mutants + survivors
  }

  lemma {:induction false} ChildrenMembers<T>(c: seq<T>)
    ensures forall x | x in Children(c) :: x in c
  {
    ChildrenPairs(c);
  }

  /** Sorting a sorted list again changes nothing. */
  lemma SortIdempotent<T>(xs: seq<Ranked<T>>)
    ensures SortByKey(SortByKey(xs)) == SortByKey(xs)
  {
    SortSorted(xs);
    SortSortedUnchanged(SortByKey(xs));
  }

  /** The generation is laid out on one sorted order of the population:
      children of its best pairs, then its first members as mutants, then
      its first members again as survivors (sorting it again changes
      nothing). */
  lemma NextGenerationLayout<T>(p: Params, pop: seq<Ranked<T>>)
    ensures var sorted := SortByKey(pop);
      NextGeneration(p, pop)
        == Children(Prefix(sorted, Share(p, p.selectionRatio)))
         + SliceTo(sorted, Share(p, p.mutationRatio))
         + Prefix(sorted, Share(p, 1.0 - p.selectionRatio - p.mutationRatio))
  {
    SortIdempotent(pop);
    MutateAllIdentity(SliceTo(SortByKey(pop), Share(p, p.mutationRatio)));
  }

  /** Every member of a generation was a member of the population before. */
  lemma NextGenerationMembers<T>(p: Params, pop: seq<Ranked<T>>)
    ensures forall x | x in NextGeneration(p, pop) :: x in pop
  {
    var sorted := SortByKey(pop);
    NextGenerationLayout(p, pop);
    SortPermutes(pop);
    var candidates := Prefix(sorted, Share(p, p.selectionRatio));
    ChildrenMembers(candidates);
    var next := NextGeneration(p, pop);
    forall x | x in next ensures x in pop {
      assert x in sorted;
      assert x in multiset(sorted);
    }
  }

  lemma ShareBounds(p: Params, ratio: real)
    requires p.populationSize >= 0 && ratio >= 0.0
    ensures 0 <= Share(p, ratio) && Share(p, ratio) as real <= p.populationSize as real * ratio
  {
    var size := p.populationSize as real;
    assert size * ratio >= 0.0;
  }

  /** The three shares of a generation add up to at most `population_size`. */
  lemma SharesBounded(p: Params)
    requires 0.0 <= p.selectionRatio && 0.0 <= p.mutationRatio && p.selectionRatio + p.mutationRatio <= 1.0
    requires p.populationSize >= 0
    ensures Share(p, p.selectionRatio) + Share(p, p.mutationRatio)
          + Share(p, 1.0 - p.selectionRatio - p.mutationRatio) <= p.populationSize
  {
    var size, s, m := p.populationSize as real, p.selectionRatio, p.mutationRatio;
    ShareBounds(p, s);
    ShareBounds(p, m);
    ShareBounds(p, 1.0 - s - m);
    assert size * s + size * m + size * (1.0 - s - m) == size;
  }

  /** With ratios in [0, 1] that add up to at most 1, a generation is never
      larger than `population_size`. */
  lemma NextGenerationBounded<T>(p: Params, pop: seq<Ranked<T>>)
    requires 0.0 <= p.selectionRatio && 0.0 <= p.mutationRatio && p.selectionRatio + p.mutationRatio <= 1.0
    requires |pop| <= p.populationSize
    ensures |NextGeneration(p, pop)| <= p.populationSize
  {
    var sorted := SortByKey(pop);
    NextGenerationLayout(p, pop);
    var candidates := Prefix(sorted, Share(p, p.selectionRatio));
    var mutants := SliceTo(sorted, Share(p, p.mutationRatio));
    var survivors := Prefix(sorted, Share(p, 1.0 - p.selectionRatio - p.mutationRatio));
    ChildrenPairs(candidates);
    SharesBounded(p);
    ShareBounds(p, p.selectionRatio);
    ShareBounds(p, p.mutationRatio);
    ShareBounds(p, 1.0 - p.selectionRatio - p.mutationRatio);
    assert |Children(candidates)| <= Share(p, p.selectionRatio);
    assert |mutants| <= Share(p, p.mutationRatio);
    assert |survivors| <= Share(p, 1.0 - p.selectionRatio - p.mutationRatio);
    assert NextGeneration(p, pop) == Children(candidates) + mutants + survivors;
  }

  // ---------------------------------------------------------------------------
  // Choosing the answer
  // ---------------------------------------------------------------------------

  /** `solve` returns `max(population, key=evaluate)`, the member with the
      largest key, which is the one with the fewest allocated workflows and
      then the longest distance: the worst member.  Two members that differ
      show it. */
  lemma MaxPicksFewerAllocated()
    ensures var keys := [Score(-2, 5.0), Score(-1, 1.0)];
      && ArgMax(keys) == Some(1) && ArgMin(keys) == Some(0)
      && keys[1].negAllocated > keys[0].negAllocated
  {
    var keys := [Score(-2, 5.0), Score(-1, 1.0)];
    assert keys[..1] == [Score(-2, 5.0)];
  }

  /** When all members share one key, as a population of one aliased
      solution does, the largest and the smallest key are both at the front. */
  lemma SharedKeyHidesChoice(keys: seq<Score>)
    requires |keys| > 0 && forall j | 0 <= j < |keys| :: keys[j] == keys[0]
    ensures ArgMax(keys) == Some(0) && ArgMin(keys) == Some(0)
  {
    var m, n := ArgMax(keys).value, ArgMin(keys).value;
    assert !Less(keys[0], keys[m]) && !Less(keys[n], keys[0]);
  }

  // ---------------------------------------------------------------------------
  // The solver object
  // ---------------------------------------------------------------------------

  /** A list in which every member carries the same key. */
  function Tagged<T>(xs: seq<T>, key: Score): (rs: seq<Ranked<T>>)
    ensures |rs| == |xs| && forall i | 0 <= i < |xs| :: rs[i] == Ranked(key, xs[i])
  {
    if xs == [] then [] else Tagged(xs[..|xs| - 1], key) + [Ranked(key, xs[|xs| - 1])]
  }

  function Items<T>(rs: seq<Ranked<T>>): (xs: seq<T>)
    ensures |xs| == |rs| && forall i | 0 <= i < |rs| :: xs[i] == rs[i].item
  {
    if rs == [] then [] else Items(rs[..|rs| - 1]) + [rs[|rs| - 1].item]
  }

  /** n copies of one member. */
  function Copies<T>(v: T, n: nat): (xs: seq<T>)
    ensures |xs| == n && forall i | 0 <= i < n :: xs[i] == v
  {
    if n == 0 then [] else Copies(v, n - 1) + [v]
  }

  /** Two lists of one repeated value are equal when their lengths are. */
  lemma Uniform<T>(xs: seq<T>, ys: seq<T>, v: T)
    requires |xs| == |ys|
    requires forall i | 0 <= i < |xs| :: xs[i] == v
    requires forall i | 0 <= i < |ys| :: ys[i] == v
    ensures xs == ys
  {
  }

  /** The length of a generation of a population of the given length. */
  function GenerationLength(p: Params, length: nat): nat {
    PrefixLength(length, Share(p, p.selectionRatio)) / 2
      + SliceLength(length, Share(p, p.mutationRatio))
      + PrefixLength(length, Share(p, 1.0 - p.selectionRatio - p.mutationRatio))
  }

  /** The length of a generation depends on the population's length only. */
  lemma NextGenerationLength<T>(p: Params, pop: seq<Ranked<T>>)
    ensures |NextGeneration(p, pop)| == GenerationLength(p, |pop|)
  {
    var sorted := SortByKey(pop);
    NextGenerationLayout(p, pop);
    ChildrenPairs(Prefix(sorted, Share(p, p.selectionRatio)));
  }

  /** Members paired with their keys. */
  function Zip<T>(keys: seq<Score>, xs: seq<T>): (rs: seq<Ranked<T>>)
    requires |keys| == |xs|
    ensures |rs| == |xs| && forall i | 0 <= i < |xs| :: rs[i] == Ranked(keys[i], xs[i])
  {
    if xs == [] then [] else Zip(keys[..|xs| - 1], xs[..|xs| - 1]) + [Ranked(keys[|xs| - 1], xs[|xs| - 1])]
  }

  /** Sorting copies of one member that all have one key. */
  lemma SortCopies<T>(pop: seq<T>, keys: seq<Score>, v: T, key: Score)
    requires |keys| == |pop|
    requires forall i | 0 <= i < |pop| :: pop[i] == v && keys[i] == key
    ensures var sorted := Items(SortByKey(Zip(keys, pop)));
      && Tagged(sorted, key) == SortByKey(Tagged(pop, key))
      && forall i | 0 <= i < |sorted| :: sorted[i] == v
  {
    var ranked := Zip(keys, pop);
    Uniform(ranked, Tagged(pop, key), Ranked(key, v));
    var sorted := SortByKey(ranked);
    SortPermutes(ranked);
    forall j | 0 <= j < |sorted| ensures sorted[j] == Ranked(key, v) {
      assert sorted[j] in multiset(ranked);
    }
    Uniform(Tagged(Items(sorted), key), sorted, Ranked(key, v));
  }

  /** A generation of n copies of one ranked member is that member repeated
      `GenerationLength(p, n)` times. */
  lemma NextGenerationOfCopies<T>(p: Params, v: T, key: Score, n: nat)
    ensures NextGeneration(p, Tagged(Copies(v, n), key)) == Tagged(Copies(v, GenerationLength(p, n)), key)
  {
    var ranked := Tagged(Copies(v, n), key);
    NextGenerationLength(p, ranked);
    NextGenerationMembers(p, ranked);
    var goal := NextGeneration(p, ranked);
    forall i | 0 <= i < |goal| ensures goal[i] == Ranked(key, v) {
      assert goal[i] in ranked;
    }
    Uniform(goal, Tagged(Copies(v, GenerationLength(p, n)), key), Ranked(key, v));
  }

  /** The population size after g generations from n members. */
  function GenerationsLength(p: Params, n: nat, g: nat): nat {
    if g == 0 then n else GenerationLength(p, GenerationsLength(p, n, g - 1))
  }

  /** Under the ratio bounds of `NextGenerationBounded`, the population
      never grows beyond `population_size`, however many generations run. */
  lemma {:induction false} GenerationsLengthBounded(p: Params, n: nat, g: nat)
    requires 0.0 <= p.selectionRatio && 0.0 <= p.mutationRatio && p.selectionRatio + p.mutationRatio <= 1.0
    requires n <= p.populationSize
    ensures GenerationsLength(p, n, g) <= p.populationSize
  {
    if g > 0 {
      GenerationsLengthBounded(p, n, g - 1);
      var m := GenerationsLength(p, n, g - 1);
      NextGenerationBounded(p, Tagged(Copies(0, m), Score(0, 0.0)));
      NextGenerationLength(p, Tagged(Copies(0, m), Score(0, 0.0)));
    }
  }

  /** What the loops of `_make_next_generation` assemble from n copies of one
      member: `GenerationLength(p, n)` copies. */
  lemma AssembledCopies<T>(p: Params, v: T, n: nat, children: seq<T>, mutants: seq<T>, survivors: seq<T>)
    requires children == Children(Prefix(Copies(v, n), Share(p, p.selectionRatio)))
    requires mutants == MutateAll(SliceTo(Copies(v, n), Share(p, p.mutationRatio)))
    requires survivors == Prefix(Copies(v, n), Share(p, 1.0 - p.selectionRatio - p.mutationRatio))
    ensures children + mutants + survivors == Copies(v, GenerationLength(p, n))
  {
    var candidates := Prefix(Copies(v, n), Share(p, p.selectionRatio));
    ChildrenPairs(candidates);
    MutateAllIdentity(SliceTo(Copies(v, n), Share(p, p.mutationRatio)));
    var next := children + mutants + survivors;
    forall i | 0 <= i < |next| ensures next[i] == v {
      if i < |children| {
        assert next[i] == candidates[|candidates| - 1 - 2 * i];
      }
    }
    Uniform(next, Copies(v, GenerationLength(p, n)), v);
  }

  /** `GeneticSolver`.  Every allocator call returns the allocator's one
      solution, so the population is that object repeated: its ranking gives
      every member the same key, and a generation is that object repeated as
      often as `GenerationLength` says (`NextGenerationOfCopies` ties one
      such generation to `NextGeneration` of the ranked population). */
  class GeneticSolver {
    const topo: Topology
    const allocator: Allocator
    const params: Params
    var population: seq<Solution>

    ghost predicate Valid()
      reads this, allocator, allocator.solution
    {
      && allocator.Valid() && allocator.topo == topo
      && population == Copies(allocator.solution, |population|)
    }

    /** `GeneticSolver(topology, allocator, params)`. */
    constructor (topo: Topology, allocator: Allocator, params: Params)
      requires allocator.Valid() && allocator.topo == topo
      ensures Valid() && this.topo == topo && this.allocator == allocator && this.params == params
      ensures population == []
    {
      this.topo := topo;
      this.allocator := allocator;
      this.params := params;
      population := [];
    }

    /** `_select_by_rank(ratio)`: sorts the population by `evaluate()` and
        returns its first `int(population_size * ratio)` members, or all of
        them when there are fewer.  Sorting copies that share one key leaves
        them in place. */
    method SelectByRank(ratio: real) returns (selected: seq<Solution>)
      requires Valid()
      modifies this, allocator.solution
      ensures Valid() && allocator.solution.Views() == old(allocator.solution.Views())
      ensures Tagged(population, allocator.solution.Key())
           == SortByKey(Tagged(old(population), allocator.solution.Key()))
      ensures population == old(population)
      ensures selected == Prefix(population, Share(params, ratio))
    {
      var keys := EvaluateAll();
      ghost var key := allocator.solution.Key();
      SortCopies(population, keys, allocator.solution, key);
      population := Items(SortByKey(Zip(keys, population)));
      selected := TakeFirst(population, Share(params, ratio));
    }

    /** The keys `sort(key=lambda c: c.evaluate())` computes, one per member. */
    method EvaluateAll() returns (keys: seq<Score>)
      requires Valid()
      modifies allocator.solution
      ensures Valid() && allocator.solution.Views() == old(allocator.solution.Views())
      ensures |keys| == |population| && forall j | 0 <= j < |keys| :: keys[j] == allocator.solution.Key()
    {
      keys := [];
      var i := 0;
      while i < |population|
        invariant i <= |population| && Valid()
        invariant allocator.solution.Views() == old(allocator.solution.Views())
        invariant |keys| == i && forall j | 0 <= j < i :: keys[j] == allocator.solution.Key()
      {
        var k := population[i].Evaluate();
        keys := keys + [k];
        i := i + 1;
      }
    }

    /** The iterator loop of `_select_by_rank`: `next()` up to n times,
        stopping early at `StopIteration`. */
    static method TakeFirst(xs: seq<Solution>, n: int) returns (selected: seq<Solution>)
      ensures selected == Prefix(xs, n)
    {
      selected := [];
      var k := 0;
      while k < n
        invariant 0 <= k <= |xs| && selected == xs[..k]
        invariant n <= 0 ==> k == 0
        invariant n > 0 ==> k <= n
      {
        if k >= |xs| {
          break;
        }
        selected := selected + [xs[k]];
        k := k + 1;
      }
      assert xs[..|xs|] == xs;
    }

    /** The crossover loop of `_make_next_generation`: pairs popped from the
        end of the candidates, one child per pair. */
    static method Crossovers(candidates: seq<Solution>) returns (children: seq<Solution>)
      ensures children == Children(candidates)
    {
      children := [];
      var rest := candidates;
      while |rest| > 0
        invariant children + Children(rest) == Children(candidates)
        decreases |rest|
      {
        ghost var popped := rest;
        var mother := rest[|rest| - 1];
        rest := rest[..|rest| - 1];
        if |rest| == 0 {
          break;
        }
        var father := rest[|rest| - 1];
        rest := rest[..|rest| - 1];
        assert popped[..|popped| - 2] == rest && popped[|popped| - 2] == father;
        assert Children(popped) == [Crossover(mother, father)] + Children(rest);
        children := children + [Crossover(mother, father)];
      }
    }

    /** The mutation loop of `_make_next_generation`: the mutant of each
        chosen member. */
    static method Mutants(chosen: seq<Solution>) returns (mutants: seq<Solution>)
      ensures mutants == MutateAll(chosen)
    {
      mutants := [];
      var i := 0;
      while i < |chosen|
        invariant i <= |chosen| && mutants == chosen[..i]
      {
        mutants := mutants + [Mutate(chosen[i])];
        i := i + 1;
      }
      MutateAllIdentity(chosen);
    }

    /** `_make_next_generation()`: the children of the best-ranked pairs, then
        the mutants of the first members, then the best-ranked survivors. */
    method MakeNextGeneration() returns (next: seq<Solution>)
      requires Valid()
      modifies this, allocator.solution
      ensures Valid() && allocator.solution.Views() == old(allocator.solution.Views())
      ensures population == old(population)
      ensures next == Copies(allocator.solution, GenerationLength(params, |population|))
    {
      var candidates := SelectByRank(params.selectionRatio);
      // the source shuffles `next_generation` here, while it is still empty
      var children := Crossovers(candidates);
      var mutants := Mutants(SliceTo(population, Share(params, params.mutationRatio)));
      var survivors := SelectByRank(1.0 - params.selectionRatio - params.mutationRatio);
      next := children + mutants + survivors;
      AssembledCopies(params, allocator.solution, |population|, children, mutants, survivors);
    }

    /** The initial population: `population_size` allocator results. */
    method InitialPopulation()
      requires Valid()
      modifies this, allocator, allocator.solution
      ensures Valid()
      ensures population == Copies(allocator.solution, Rounds(params.populationSize))
      ensures Run(allocator.solution.Views(), allocator.draws)
           == Repeated(topo, allocator.cfg, old(allocator.solution.Views()), old(allocator.draws), Rounds(params.populationSize))
    {
      population := [];
      ghost var s0, d0 := allocator.solution.Views(), allocator.draws;
      var k: nat := 0;
      while k < Rounds(params.populationSize)
        invariant k <= Rounds(params.populationSize) && Valid()
        invariant population == Copies(allocator.solution, k)
        invariant Run(allocator.solution.Views(), allocator.draws) == Repeated(topo, allocator.cfg, s0, d0, k)
      {
        RepeatedStep(topo, allocator.cfg, s0, d0, k);
        var chromosome := allocator.AllocateWorkflows();
        assert Run(allocator.solution.Views(), allocator.draws) == Repeated(topo, allocator.cfg, s0, d0, k + 1);
        population := population + [chromosome];
        k := k + 1;
      }
    }

    /** The generation loop: `n_generation` calls of `_make_next_generation`. */
    method Evolve()
      requires Valid()
      modifies this, allocator.solution
      ensures Valid() && allocator.solution.Views() == old(allocator.solution.Views())
      ensures population == Copies(allocator.solution, GenerationsLength(params, old(|population|), Rounds(params.nGeneration)))
    {
      ghost var n := |population|;
      var g: nat := 0;
      while g < Rounds(params.nGeneration)
        invariant g <= Rounds(params.nGeneration) && Valid()
        invariant allocator.solution.Views() == old(allocator.solution.Views())
        invariant population == Copies(allocator.solution, GenerationsLength(params, n, g))
      {
        population := MakeNextGeneration();
        g := g + 1;
      }
    }

    /** `solve()`: the initial population, `n_generation` generations, then
        the best member by the `get_best` order, or None where the source's
        `max` of an empty population raises.  The source takes the member
        with the largest key instead (see `MaxPicksFewerAllocated`). */
    method Solve() returns (best: Option<Solution>)
      requires Valid()
      modifies this, allocator, allocator.solution
      ensures Valid()
      ensures Run(allocator.solution.Views(), allocator.draws)
           == Repeated(topo, allocator.cfg, old(allocator.solution.Views()), old(allocator.draws), Rounds(params.populationSize))
      ensures population
           == Copies(allocator.solution, GenerationsLength(params, Rounds(params.populationSize), Rounds(params.nGeneration)))
      ensures best.None? <==> |population| == 0
      ensures best.Some? ==> best.value == allocator.solution
    {
      InitialPopulation();
      Evolve();
      var b := GetBest(population);
      if b == null {
        best := None;
      } else {
        best := Some(b);
      }
    }
  }
}
