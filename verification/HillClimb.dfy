/** Hill climbing to the best neighbour (hill_climb_best_neighbor.py): what one generation does, and
    why a run that stops has found an optimum. */
module HillClimb {
  import opened Sequences
  import opened FlagSets
  import opened FlagNeighbours

  /** A set of tasks. Tasks are equal when their flags are, so it is keyed by flags. */
  type Pool = map<Flags, Task>

  function NewTask(f: Flags): Task {
    Task(0, f, None, None)
  }

  /** Every task carries its cost; equal flags have equal costs. */
  ghost predicate Evaluated(cost: Flags -> Cost, pool: Pool) {
    forall f :: f in pool ==> CarriesCost(cost, pool[f]) && pool[f].flags == f
  }

  ghost predicate CarriesCost(cost: Flags -> Cost, t: Task) {
    t.cost == Some(cost(t.flags))
  }

  /** Task.IsImproved. */
  predicate Improves(t: Task, other: Task)
    requires t.cost.Some? && other.cost.Some?
  {
    t.cost.value < other.cost.value
  }

  ghost predicate Cheapest(cost: Flags -> Cost, f: Flags, fs: set<Flags>) {
    forall g :: g in fs ==> cost(f) <= cost(g)
  }

  function Neighbours(f: Flags, specs: seq<Spec>): set<Flags> {
    set spec, g | spec in specs && g in ClimbNext(f, spec) :: g
  }

  // ---------------------------------------------------------------- a generation

  /** Finds the best task of the pool, to be `next`, and says whether it beats the parent. Without a
      parent any task is an improvement. */
  method IsImproved(pool: Pool, parents: seq<Task>, ghost cost: Flags -> Cost)
    returns (improved: bool, next: Option<Task>)
    requires Evaluated(cost, pool) && |parents| <= 1 && forall t :: t in parents ==> CarriesCost(cost, t)
    ensures pool == map[] ==> !improved && next == None
    ensures pool != map[] ==>
        && next.Some? && next.value.flags in pool && next.value == pool[next.value.flags]
        && Cheapest(cost, next.value.flags, pool.Keys)
        && (improved <==> parents == [] || cost(next.value.flags) < cost(parents[0].flags))
  {
    var best: Option<Task> := None;
    var left := pool.Keys;
    while left != {}
      invariant left <= pool.Keys
      invariant best == None ==> left == pool.Keys
      invariant best.Some? ==>
          && best.value.flags in pool && best.value == pool[best.value.flags]
          && Cheapest(cost, best.value.flags, pool.Keys - left)
      decreases left
    {
      var f :| f in left;
      if best == None || Improves(pool[f], best.value) {
        best := Some(pool[f]);
      }
      left := left - {f};
    }
    if best == None {
      return false, None;
    }
    if parents != [] {
      assert parents[0] in parents;
      return Improves(best.value, parents[0]), best;
    }
    return true, best;
  }

  /** The uncached neighbours of the best task. */
  method Next(current: Task, specs: seq<Spec>, cache: set<Flags>) returns (children: Pool)
    ensures children.Keys == Neighbours(current.flags, specs) - cache
    ensures forall f :: f in children ==> children[f] == NewTask(f)
  {
    children := map[];
    for i := 0 to |specs|
      invariant children.Keys == Neighbours(current.flags, specs[..i]) - cache
      invariant forall f :: f in children ==> children[f] == NewTask(f)
    {
      var flagSets := ClimbNext(current.flags, specs[i]);
      ghost var before := children.Keys;
      for j := 0 to |flagSets|
        invariant children.Keys == before + (Elements(flagSets[..j]) - cache)
        invariant forall f :: f in children ==> children[f] == NewTask(f)
      {
        assert flagSets[..j + 1] == flagSets[..j] + [flagSets[j]];
        if flagSets[j] !in cache {
          children := children[flagSets[j] := NewTask(flagSets[j])];
        }
      }
      assert flagSets[..|flagSets|] == flagSets;
      NeighboursMore(current.flags, specs, i);
    }
    assert specs[..|specs|] == specs;
  }

  lemma NeighboursMore(f: Flags, specs: seq<Spec>, i: nat)
    requires i < |specs|
    ensures Neighbours(f, specs[..i + 1]) == Neighbours(f, specs[..i]) + Elements(ClimbNext(f, specs[i]))
  {
    assert specs[..i + 1] == specs[..i] + [specs[i]];
  }

  // ---------------------------------------------------------------- a run

  /** Between generations: everything sent is cached; the parent, if any, is cheapest of all that was
      evaluated before this pool, and all its neighbours have been sent. */
  ghost predicate Climbing(cost: Flags -> Cost, specs: seq<Spec>, cache: set<Flags>, pool: set<Flags>, parent: Option<Flags>) {
    && pool <= cache
    && match parent
       case None => cache == pool
       case Some(p) =>
         && p in cache - pool
         && Cheapest(cost, p, cache - pool)
         && Neighbours(p, specs) <= cache
  }

  /** Hill climbing optimality: when no task of the pool beats the parent, the parent is cheapest of
      every task ever evaluated and no neighbour of it is cheaper, evaluated now or earlier. */
  lemma ClimbStops(cost: Flags -> Cost, specs: seq<Spec>, cache: set<Flags>, pool: set<Flags>, p: Flags, best: Flags)
    requires Climbing(cost, specs, cache, pool, Some(p))
    requires best in pool && Cheapest(cost, best, pool) && !(cost(best) < cost(p))
    ensures Cheapest(cost, p, cache)
    ensures Cheapest(cost, p, Neighbours(p, specs))
  {
  }

  /** Otherwise the best task is the next parent, and the new pool is new. */
  lemma ClimbGoesOn(
    cost: Flags -> Cost, specs: seq<Spec>, cache: set<Flags>, pool: set<Flags>, parent: Option<Flags>, best: Flags)
    requires Climbing(cost, specs, cache, pool, parent)
    requires best in pool && Cheapest(cost, best, pool)
    requires parent.Some? ==> cost(best) < cost(parent.value)
    ensures var pool' := Neighbours(best, specs) - cache;
            pool' !! cache && Climbing(cost, specs, cache + pool', pool', Some(best))
  {
    var pool' := Neighbours(best, specs) - cache;
    assert cache + pool' - pool' == cache;
    forall g | g in cache ensures cost(best) <= cost(g) {
      if g !in pool {
        assert g in cache - pool;
      }
    }
  }
}
