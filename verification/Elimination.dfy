/** Iterative elimination (iterative_elimination.py): from a base line with every flag turned up,
    each generation lowers the one flag whose lowering pays most. */
module Elimination {
  import opened Sequences
  import opened FlagSets
  import opened FlagNeighbours
  import opened HillClimb

  /** The flag sets one decrease away. */
  function Decreases(f: Flags): set<Flags> {
    set spec | spec in f :: Decrease(f, spec)
  }

  // ---------------------------------------------------------------- a generation

  /** Whether some task of the pool, other than the parent, beats the parent. */
  method IsImproved(pool: Pool, parent: Task, ghost cost: Flags -> Cost) returns (improved: bool)
    requires Evaluated(cost, pool) && CarriesCost(cost, parent)
    ensures improved <==> exists f :: f in pool && cost(f) < cost(parent.flags)
  {
    var left := pool.Keys;
    while left != {}
      invariant left <= pool.Keys
      invariant forall f :: f in pool.Keys - left ==> !(cost(f) < cost(parent.flags))
      decreases left
    {
      var f :| f in left;
      if f != parent.flags && Improves(pool[f], parent) {
        return true;
      }
      left := left - {f};
    }
    return false;
  }

  /** The first generation also measures the base line: its parent is the measured task. */
  method FirstIsImproved(pool: Pool, parent: Task, ghost cost: Flags -> Cost) returns (improved: bool, measured: Task)
    requires Evaluated(cost, pool) && parent.flags in pool
    ensures measured == pool[parent.flags]
    ensures improved <==> exists f :: f in pool && cost(f) < cost(parent.flags)
  {
    measured := pool[parent.flags];
    improved := IsImproved(pool, measured, cost);
  }

  /** The best task that beats the parent is the new base line; its uncached decreases are the next
      pool, and there is no next generation when it has no flag left. */
  method Next(pool: Pool, parent: Task, cache: set<Flags>, ghost cost: Flags -> Cost)
    returns (worst: Task, children: Option<Pool>)
    requires Evaluated(cost, pool) && CarriesCost(cost, parent)
    requires exists f :: f in pool && cost(f) < cost(parent.flags)
    ensures worst.flags in pool && worst == pool[worst.flags]
    ensures cost(worst.flags) < cost(parent.flags) && Cheapest(cost, worst.flags, pool.Keys)
    ensures children == None <==> worst.flags == map[]
    ensures children.Some? ==>
        && children.value.Keys == Decreases(worst.flags) - cache
        && forall f :: f in children.value ==> children.value[f] == NewTask(f)
  {
    worst := parent;
    var left := pool.Keys;
    while left != {}
      invariant left <= pool.Keys && CarriesCost(cost, worst)
      invariant worst == parent || (worst.flags in pool && worst == pool[worst.flags] && cost(worst.flags) < cost(parent.flags))
      invariant forall f :: f in pool.Keys - left ==> cost(worst.flags) <= cost(f)
      decreases left
    {
      var f :| f in left;
      if f != parent.flags && Improves(pool[f], worst) {
        worst := pool[f];
      }
      left := left - {f};
    }
    ghost var better :| better in pool && cost(better) < cost(parent.flags);
    assert better in pool.Keys - left;
    assert worst != parent;
    if worst.flags == map[] {
      return worst, None;
    }
    var results: Pool := map[];
    var specs := worst.flags.Keys;
    while specs != {}
      invariant specs <= worst.flags.Keys
      invariant results.Keys == DecreasesOver(worst.flags, worst.flags.Keys - specs) - cache
      invariant forall f :: f in results ==> results[f] == NewTask(f)
      decreases specs
    {
      var spec :| spec in specs;
      var f := Decrease(worst.flags, spec);
      assert worst.flags.Keys - (specs - {spec}) == (worst.flags.Keys - specs) + {spec};
      if f !in cache {
        results := results[f := NewTask(f)];
      }
      specs := specs - {spec};
    }
    return worst, Some(results);
  }

  function DecreasesOver(f: Flags, specs: set<Spec>): set<Flags>
    requires specs <= f.Keys
  {
    set spec | spec in specs :: Decrease(f, spec)
  }

  // ---------------------------------------------------------------- a run

  /** Between generations, with `top` the rank of the first base line: the base line of generation k
      ranks k below it, the pool holds exactly its decreases (and, at first, the base line), and
      everything evaluated earlier ranks no lower and costs no less than the base line. */
  ghost predicate Eliminating(
    cost: Flags -> Cost, cache: set<Flags>, pool: set<Flags>, parent: Flags, first: bool, top: int, k: nat)
  {
    && WellFormed(parent) && Rank(parent) == top - k
    && parent in cache && pool <= cache
    && pool == Decreases(parent) + (if first then {parent} else {})
    && (first ==> cache == pool && k == 0)
    && (!first ==> parent in cache - pool)
    && Cheapest(cost, parent, cache - pool)
    && (forall f :: f in cache - pool ==> Rank(f) >= Rank(parent))
  }

  lemma DecreasesRank(f: Flags, g: Flags)
    requires WellFormed(f) && g in Decreases(f)
    ensures WellFormed(g) && Rank(g) == Rank(f) - 1
  {
    var spec :| spec in f && g == Decrease(f, spec);
    DecreaseRank(f, spec);
    DecreaseLevel(f, spec);
  }

  /** The pool of generation k ranks k + 1 below the first base line, so k stays below its rank. */
  lemma PoolRank(cost: Flags -> Cost, cache: set<Flags>, pool: set<Flags>, parent: Flags, first: bool, top: int, k: nat, f: Flags)
    requires Eliminating(cost, cache, pool, parent, first, top, k)
    requires f in pool && f != parent
    ensures Rank(f) == top - k - 1
    ensures k < top
  {
    DecreasesRank(parent, f);
    RankNotNegative(f);
  }

  /** The next pool is new and complete: every decrease of the new base line is in it. */
  lemma EliminationGoesOn(
    cost: Flags -> Cost, cache: set<Flags>, pool: set<Flags>, parent: Flags, first: bool, top: int, k: nat, worst: Flags)
    requires Eliminating(cost, cache, pool, parent, first, top, k)
    requires worst in pool && cost(worst) < cost(parent) && Cheapest(cost, worst, pool)
    ensures var pool' := Decreases(worst);
            && pool' !! cache && pool' - cache == pool'
            && (worst != map[] ==> pool' != {})
            && Eliminating(cost, cache + pool', pool', worst, false, top, k + 1)
            && Cheapest(cost, worst, cache)
  {
    var pool' := Decreases(worst);
    DecreasesRank(parent, worst);
    forall f | f in cache ensures Rank(f) >= Rank(worst) && cost(worst) <= cost(f) {
      if f in pool && f != parent {
        DecreasesRank(parent, f);
      } else if f !in pool {
        assert f in cache - pool;
      }
    }
    forall f | f in pool' ensures f !in cache {
      DecreasesRank(worst, f);
    }
    assert cache + pool' - pool' == cache;
    if worst != map[] {
      var spec :| spec in worst;
      assert Decrease(worst, spec) in pool';
    }
  }

  /** When no task beats the base line, the base line is cheapest of everything ever evaluated, and no
      one-step decrease beats it. */
  lemma EliminationStops(
    cost: Flags -> Cost, cache: set<Flags>, pool: set<Flags>, parent: Flags, first: bool, top: int, k: nat)
    requires Eliminating(cost, cache, pool, parent, first, top, k)
    requires !exists f :: f in pool && cost(f) < cost(parent)
    ensures Cheapest(cost, parent, cache)
    ensures Cheapest(cost, parent, Decreases(parent))
  {
  }
}
