/** The genetic algorithm's generation step (genetic_algorithm.py). Random draws are arbitrary
    members of the finite space of flag sets. */
module Genetic {
  import opened Sequences
  import opened FlagSets
  import opened HillClimb

  datatype Params = Params(stopThreshold: nat, numChromosomes: nat, numTrials: nat)

  // ---------------------------------------------------------------- sorting by cost

  ghost predicate AllCosted(ts: seq<Task>) {
    forall i :: 0 <= i < |ts| ==> ts[i].cost.Some?
  }

  ghost predicate SortedByCost(ts: seq<Task>)
    requires AllCosted(ts)
  {
    forall i, j :: 0 <= i < j < |ts| ==> ts[i].cost.value <= ts[j].cost.value
  }

  /** Insertion behind the tasks that cost no more. */
  function Insert(t: Task, ts: seq<Task>): (r: seq<Task>)
    requires t.cost.Some? && AllCosted(ts) && SortedByCost(ts)
    ensures forall x :: x in r <==> x == t || x in ts
    ensures |r| == |ts| + 1 && multiset(r) == multiset(ts) + multiset{t}
    ensures AllCosted(r) && SortedByCost(r)
  {
    if ts == [] then [t]
    else if ts[0].cost.value <= t.cost.value then
      var rest := Insert(t, ts[1..]);
      HeadFirst(ts, t, rest);
      assert ts == [ts[0]] + ts[1..];
      [ts[0]] + rest
    else [t] + ts
  }

  lemma HeadFirst(ts: seq<Task>, t: Task, rest: seq<Task>)
    requires ts != [] && AllCosted(ts) && SortedByCost(ts) && AllCosted(rest) && SortedByCost(rest)
    requires t.cost.Some? && ts[0].cost.value <= t.cost.value
    requires forall x :: x in rest <==> x == t || x in ts[1..]
    ensures AllCosted([ts[0]] + rest) && SortedByCost([ts[0]] + rest)
  {
    var r := [ts[0]] + rest;
    forall j | 0 <= j < |rest| ensures ts[0].cost.value <= rest[j].cost.value {
      assert rest[j] in rest;
      if rest[j] != t {
        var i :| 0 <= i < |ts[1..]| && ts[1..][i] == rest[j];
        assert ts[i + 1] == rest[j];
      }
    }
    forall i, j | 0 <= i < j < |r| ensures r[i].cost.value <= r[j].cost.value {
      if i > 0 {
        assert r[i] == rest[i - 1] && r[j] == rest[j - 1];
      }
    }
  }

  /** sorted(ts, key=cost). */
  function SortByCost(ts: seq<Task>): (r: seq<Task>)
    requires AllCosted(ts)
    ensures forall x :: x in r <==> x in ts
    ensures |r| == |ts| && multiset(r) == multiset(ts)
    ensures AllCosted(r) && SortedByCost(r)
  {
    if ts == [] then []
    else
      assert ts == [ts[0]] + ts[1..];
      Insert(ts[0], SortByCost(ts[1..]))
  }

  // ---------------------------------------------------------------- a generation

  /** The tasks of a pool in some order. */
  method Listed(pool: Pool, ghost cost: Flags -> Cost) returns (ts: seq<Task>)
    requires Evaluated(cost, pool)
    ensures forall t :: t in ts <==> t.flags in pool && t == pool[t.flags]
    ensures |ts| == |pool| && AllCosted(ts)
  {
    ts := [];
    var left := pool.Keys;
    while left != {}
      invariant left <= pool.Keys && |ts| == |pool| - |left|
      invariant forall t :: t in ts <==> t.flags in pool.Keys - left && t == pool[t.flags]
      decreases left
    {
      var f :| f in left;
      ts := ts + [pool[f]];
      left := left - {f};
    }
    forall i | 0 <= i < |ts| ensures ts[i].cost.Some? {
      assert ts[i] in ts;
    }
  }

  /** The cheapest task of a pool. */
  method BestOf(pool: Pool, ghost cost: Flags -> Cost) returns (best: Task)
    requires pool != map[] && Evaluated(cost, pool)
    ensures best.flags in pool && best == pool[best.flags] && Cheapest(cost, best.flags, pool.Keys)
  {
    var ts := Listed(pool, cost);
    var sorted := SortByCost(ts);
    ghost var some :| some in pool;
    assert pool[some] in sorted;
    best := sorted[0];
    assert best in sorted;
    forall f | f in pool ensures cost(best.flags) <= cost(f) {
      assert pool[f] in sorted;
      var i :| 0 <= i < |sorted| && sorted[i] == pool[f];
    }
  }

  /** Some task of the pool beats every parent. */
  ghost predicate Beats(cost: Flags -> Cost, pool: set<Flags>, parents: Pool) {
    exists f :: f in pool && forall p :: p in parents ==> cost(f) < cost(p)
  }

  /** Goes on while generations improve, and for stopThreshold generations that do not. */
  method IsImproved(pool: Pool, parents: Pool, stucks: nat, params: Params, ghost cost: Flags -> Cost)
    returns (goOn: bool, stucks': nat)
    requires pool != map[] && Evaluated(cost, pool) && Evaluated(cost, parents)
    ensures goOn <==> parents == map[] || Beats(cost, pool.Keys, parents) || stucks < params.stopThreshold
    ensures stucks' == if parents == map[] || !goOn then stucks else if Beats(cost, pool.Keys, parents) then 0 else stucks + 1
    ensures !goOn ==> exists p :: p in parents && Cheapest(cost, p, pool.Keys + parents.Keys)
  {
    if parents == map[] {
      return true, stucks;
    }
    var bestParent := BestOf(parents, cost);
    var bestCurrent := BestOf(pool, cost);
    if Improves(bestCurrent, bestParent) {
      assert Beats(cost, pool.Keys, parents);
      return true, 0;
    }
    assert !Beats(cost, pool.Keys, parents);
    assert Cheapest(cost, bestParent.flags, pool.Keys + parents.Keys);
    if stucks >= params.stopThreshold {
      return false, stucks;
    }
    return true, stucks + 1;
  }

  /** The flag sets of a stretch of the random draws. */
  function Drawn(draws: nat -> Flags, from: nat, upto: nat): set<Flags> {
    set i: nat | from <= i < upto :: draws(i)
  }

  lemma DrawnMore(draws: nat -> Flags, from: nat, upto: nat)
    requires from <= upto
    ensures Drawn(draws, from, upto + 1) == Drawn(draws, from, upto) + {draws(upto)}
  {
  }

  /** New tasks for what has been drawn and is not cached: no draw that could be used is wasted. */
  ghost predicate Children(children: Pool, draws: nat -> Flags, from: nat, upto: nat, cache: set<Flags>) {
    && from <= upto && children.Keys == Drawn(draws, from, upto) - cache
    && forall f :: f in children ==> children[f] == NewTask(f)
  }

  /** A draw becomes a child unless it is one already or has been run before. */
  method Try(children: Pool, cache: set<Flags>, draws: nat -> Flags, ghost from: nat, at: nat)
    returns (children': Pool, added: bool)
    requires Children(children, draws, from, at, cache)
    ensures Children(children', draws, from, at + 1, cache)
    ensures |children'| == if added then |children| + 1 else |children|
  {
    DrawChild(children, cache, draws, from, at);
    hide Children;
    var child := draws(at);
    added := child !in children && child !in cache;
    children' := children;
    if added {
      children' := children[child := NewTask(child)];
    }
  }

  lemma DrawChild(children: Pool, cache: set<Flags>, draws: nat -> Flags, from: nat, at: nat)
    requires Children(children, draws, from, at, cache)
    ensures var child := draws(at);
            if child in children || child in cache then Children(children, draws, from, at + 1, cache)
            else Children(children[child := NewTask(child)], draws, from, at + 1, cache)
  {
    DrawnMore(draws, from, at);
    hide Drawn, NewTask;
  }

  /** One retained task after the other is given its trials to produce a new child. Each that fails to has
      had all its trials, each that succeeds at most as many useless draws. */
  method CrossOver(retained: seq<Task>, params: Params, cache: set<Flags>, draws: nat -> Flags, from: nat)
    returns (children: Pool, at: nat)
    ensures Children(children, draws, from, at, cache) && |children| <= |retained|
    ensures Useless(at - from - |children|, |retained|, |children|, params.numTrials)
  {
    children, at := map[], from;
    NoChildren(draws, from, cache);
    hide Useless, Children;
    NoneUseless(params.numTrials);
    for i := 0 to |retained|
      invariant Children(children, draws, from, at, cache) && |children| <= i && |children| <= at - from
      invariant Useless(at - from - |children|, i, |children|, params.numTrials)
    {
      var found;
      ghost var useless, succeeded := at - from - |children|, |children|;
      children, at, found := TryFor(children, params, cache, draws, from, at);
      MoreUseless(useless, i, succeeded, params.numTrials, at - from - |children|, found);
    }
  }

  lemma NoChildren(draws: nat -> Flags, from: nat, cache: set<Flags>)
    ensures Children(map[], draws, from, from, cache)
  {
    assert Drawn(draws, from, from) == {};
  }

  /** Of n tasks c succeeded: what their trials wasted on the way. */
  ghost predicate Useless(draws: int, n: int, c: int, trials: int) {
    (n - c) * trials <= draws <= n * trials
  }

  lemma NoneUseless(trials: int)
    ensures Useless(0, 0, 0, trials)
  {
  }

  lemma MoreUseless(draws: int, n: int, c: int, trials: int, draws': int, found: bool)
    requires Useless(draws, n, c, trials) && draws <= draws' <= draws + trials && (!found ==> draws' == draws + trials)
    ensures Useless(draws', n + 1, if found then c + 1 else c, trials)
  {
    OneMoreTimes(n, trials);
    OneMoreTimes(n - c, trials);
  }

  lemma OneMoreTimes(i: int, n: int)
    ensures (i + 1) * n == i * n + n
  {
  }

  /** The trials of one retained task. */
  method TryFor(children: Pool, params: Params, cache: set<Flags>, draws: nat -> Flags, ghost from: nat, start: nat)
    returns (children': Pool, at: nat, found: bool)
    requires Children(children, draws, from, start, cache)
    ensures Children(children', draws, from, at, cache) && at >= start
    ensures |children'| == if found then |children| + 1 else |children|
    ensures 0 <= (at - start) - (|children'| - |children|) <= params.numTrials
    ensures !found ==> at - start == params.numTrials
  {
    hide Children;
    var trials := 0;
    children', at, found := children, start, false;
    while trials < params.numTrials && !found
      invariant Children(children', draws, from, at, cache) && trials <= params.numTrials
      invariant |children'| == if found then |children| + 1 else |children|
      invariant at - start == if found then trials + 1 else trials
      decreases params.numTrials - trials, !found
    {
      children', found := Try(children', cache, draws, from, at);
      at := at + 1;
      if !found {
        trials := trials + 1;
      }
    }
  }

  /** Passes over the retained tasks until there are enough children or too many trials failed. Each
      turn of the inner loop adds a child or fails a trial, so the passes end. */
  method Mutate(retained: seq<Task>, crossed: Pool, params: Params, cache: set<Flags>,
                draws: nat -> Flags, ghost from: nat, start: nat)
    returns (children: Pool, trials: nat, at: nat)
    requires Children(crossed, draws, from, start, cache) && |crossed| <= params.numChromosomes
    requires params.numChromosomes > 0 ==> retained != []
    ensures Children(children, draws, from, at, cache) && |children| <= params.numChromosomes
    ensures |children| == params.numChromosomes || trials >= params.numTrials
    ensures |children| < params.numChromosomes ==>
        trials < params.numTrials + |retained| && exists passes: nat :: at - start == passes * |retained|
    ensures at >= start && trials == (at - start) - (|children| - |crossed|)
  {
    hide Children;
    var target := params.numChromosomes;
    children, trials, at := crossed, 0, start;
    ghost var passes: nat := 0;
    while |children| < target && trials < params.numTrials
      invariant |children| <= target && Children(children, draws, from, at, cache)
      invariant |children| < target ==> at - start == passes * |retained| && trials < params.numTrials + |retained|
      invariant at >= start && trials == (at - start) - (|children| - |crossed|)
      decreases target - |children|, params.numTrials - trials
    {
      ghost var before, tried, pass := |children|, trials, at;
      OneMoreTimes(passes, |retained|);
      var i := 0;
      while i < |retained| && |children| < target
        invariant i <= |retained| && |children| <= target && Children(children, draws, from, at, cache)
        invariant at == pass + i && trials <= tried + i
        invariant at >= start && trials == (at - start) - (|children| - |crossed|)
        invariant |children| >= before && trials >= tried
        invariant i > 0 ==> |children| > before || trials > tried
        decreases |retained| - i
      {
        var added;
        children, added := Try(children, cache, draws, from, at);
        at := at + 1;
        if !added {
          trials := trials + 1;
        }
        i := i + 1;
      }
      passes := passes + 1;
    }
  }

  /** How many tasks are retained to breed from. */
  function Survivors(pool: Pool, parents: Pool, params: Params): nat {
    if |pool| + |parents| <= params.numChromosomes then |pool| + |parents| else params.numChromosomes
  }

  /** The draws up to `crossed` were crossed over from n parents. */
  ghost predicate CrossedOver(params: Params, cache: set<Flags>, draws: nat -> Flags, from: nat, crossed: nat, n: nat) {
    var children := |Drawn(draws, from, crossed) - cache|;
    from <= crossed && children <= n && Useless(crossed - from - children, n, children, params.numTrials)
  }

  /** The next generation, whatever is drawn: exactly numChromosomes tasks that have not been run
      before, everything usable that was drawn; or nothing, after numTrials useless draws. The
      numChromosomes best tasks so far are what it was bred from, and its parents. */
  method Next(pool: Pool, parents: Pool, params: Params, cache: set<Flags>, draws: nat -> Flags, from: nat,
              ghost cost: Flags -> Cost)
    returns (next: Option<Pool>, candidates: Pool, at: nat, ghost crossed: nat)
    requires pool != map[] && Evaluated(cost, pool) && Evaluated(cost, parents)
    ensures from <= crossed <= at && CrossedOver(params, cache, draws, from, crossed, Survivors(pool, parents, params))
    ensures next.Some? ==> |next.value| == params.numChromosomes && Children(next.value, draws, from, at, cache)
    ensures next == None ==> at - from - |Drawn(draws, from, at) - cache| >= params.numTrials
    ensures Best(pool, parents, candidates, params, cost)
    ensures params.numChromosomes > 0 ==>
        exists f :: f in candidates && Cheapest(cost, f, pool.Keys + parents.Keys)
  {
    var retained;
    retained, candidates := Select(pool, parents, params, cost);
    hide Evaluated, Best, Useless, Children, CrossedOver;
    var children, start;
    children, start := CrossOver(retained, params, cache, draws, from);
    crossed := start;
    CrossedOverIs(children, |retained|, params, draws, from, start, cache);
    var trials;
    children, trials, at := Mutate(retained, children, params, cache, draws, from, start);
    CrossedCount(children, draws, from, at, cache);
    if trials >= params.numTrials {
      return None, candidates, at, crossed;
    }
    return Some(children), candidates, at, crossed;
  }

  /** The best tasks so far, in order and as a set. */
  method Select(pool: Pool, parents: Pool, params: Params, ghost cost: Flags -> Cost)
    returns (retained: seq<Task>, candidates: Pool)
    requires pool != map[] && Evaluated(cost, pool) && Evaluated(cost, parents)
    ensures |retained| == Survivors(pool, parents, params) && Best(pool, parents, candidates, params, cost)
    ensures params.numChromosomes > 0 ==>
        retained != [] && exists f :: f in candidates && Cheapest(cost, f, pool.Keys + parents.Keys)
  {
    var tasks := Listed(pool, cost);
    var more := Listed(parents, cost);
    var sorted := SortByCost(tasks + more);
    var target := params.numChromosomes;
    retained := if |sorted| <= target then sorted else sorted[..target];
    ghost var some :| some in pool;
    assert pool[some] in sorted;
    assert Ranked(pool, parents, sorted, cost);
    hide Ranked, Best, Evaluated, AllCosted, SortedByCost;
    candidates := AsPool(retained);
    BestSelected(pool, parents, retained, sorted, candidates, params, cost);
    if retained != [] {
      CheapestFirst(pool, parents, sorted, cost);
      assert retained[0] == sorted[0];
    }
  }

  /** set(retained). */
  method AsPool(retained: seq<Task>) returns (candidates: Pool)
    ensures Collects(retained, candidates)
  {
    candidates := map[];
    for i := 0 to |retained|
      invariant Collects(retained[..i], candidates)
    {
      assert retained[..i + 1] == retained[..i] + [retained[i]];
      candidates := candidates[retained[i].flags := retained[i]];
    }
    assert retained[..|retained|] == retained;
  }

  /** The candidates are the best tasks of the pool and the parents: tasks of theirs, none left out that
      is cheaper, and as many as there should be. */
  ghost predicate Best(pool: Pool, parents: Pool, candidates: Pool, params: Params, cost: Flags -> Cost) {
    && Evaluated(cost, candidates)
    && (forall f :: f in candidates ==>
          (f in pool && candidates[f] == pool[f]) || (f in parents && candidates[f] == parents[f]))
    && (forall f, g :: f in pool.Keys + parents.Keys && f !in candidates && g in candidates ==> cost(g) <= cost(f))
    && (pool.Keys !! parents.Keys ==> |candidates| == Survivors(pool, parents, params))
  }

  lemma {:induction false} DrawnCount(draws: nat -> Flags, from: nat, upto: nat)
    requires from <= upto
    ensures |Drawn(draws, from, upto)| <= upto - from
    decreases upto
  {
    if from == upto {
      assert Drawn(draws, from, upto) == {};
    } else {
      DrawnCount(draws, from, upto - 1);
      DrawnMore(draws, from, upto - 1);
    }
  }

  lemma CrossedCount(children: Pool, draws: nat -> Flags, from: nat, at: nat, cache: set<Flags>)
    requires Children(children, draws, from, at, cache)
    ensures |children| <= at - from && |children| == |Drawn(draws, from, at) - cache|
  {
    DrawnCount(draws, from, at);
    assert |children| == |children.Keys|;
    Within(children.Keys, Drawn(draws, from, at));
  }

  lemma CrossedOverIs(
    children: Pool, n: nat, params: Params, draws: nat -> Flags, from: nat, at: nat, cache: set<Flags>)
    requires Children(children, draws, from, at, cache) && |children| <= n
    requires Useless(at - from - |children|, n, |children|, params.numTrials)
    ensures CrossedOver(params, cache, draws, from, at, n) && |children| <= at - from
  {
    CrossedCount(children, draws, from, at, cache);
    hide Useless, Drawn;
  }

  /** All tasks of two pools, ranked by cost. */
  ghost predicate Ranked(pool: Pool, parents: Pool, sorted: seq<Task>, cost: Flags -> Cost) {
    && Evaluated(cost, pool) && Evaluated(cost, parents)
    && (forall t :: t in sorted <==> (t.flags in pool && t == pool[t.flags]) || (t.flags in parents && t == parents[t.flags]))
    && AllCosted(sorted) && SortedByCost(sorted) && |sorted| == |pool| + |parents|
  }

  ghost predicate Collects(retained: seq<Task>, candidates: Pool) {
    && (forall f :: f in candidates ==> candidates[f] in retained && candidates[f].flags == f)
    && (forall k :: 0 <= k < |retained| ==> retained[k].flags in candidates)
  }

  lemma RankOf(pool: Pool, parents: Pool, sorted: seq<Task>, cost: Flags -> Cost, f: Flags) returns (i: nat)
    requires Ranked(pool, parents, sorted, cost) && (f in pool || f in parents)
    ensures i < |sorted| && sorted[i].flags == f
  {
    var t := if f in pool then pool[f] else parents[f];
    assert t in sorted;
    i :| 0 <= i < |sorted| && sorted[i] == t;
  }

  lemma InOrder(pool: Pool, parents: Pool, sorted: seq<Task>, cost: Flags -> Cost, i: nat, j: nat)
    requires Ranked(pool, parents, sorted, cost) && i <= j < |sorted|
    ensures cost(sorted[i].flags) <= cost(sorted[j].flags)
  {
    assert sorted[i] in sorted && sorted[j] in sorted;
  }

  lemma CheapestFirst(pool: Pool, parents: Pool, sorted: seq<Task>, cost: Flags -> Cost)
    requires Ranked(pool, parents, sorted, cost) && sorted != []
    ensures Cheapest(cost, sorted[0].flags, pool.Keys + parents.Keys)
  {
    forall f | f in pool.Keys + parents.Keys ensures cost(sorted[0].flags) <= cost(f) {
      var i := RankOf(pool, parents, sorted, cost, f);
      InOrder(pool, parents, sorted, cost, 0, i);
    }
  }

  function FlagSeq(ts: seq<Task>): seq<Flags> {
    seq(|ts|, i requires 0 <= i < |ts| => ts[i].flags)
  }

  lemma AllRanked(pool: Pool, parents: Pool, sorted: seq<Task>, cost: Flags -> Cost)
    requires Ranked(pool, parents, sorted, cost)
    ensures pool.Keys + parents.Keys <= Elements(FlagSeq(sorted))
  {
    forall f | f in pool.Keys + parents.Keys ensures f in FlagSeq(sorted) {
      var i := RankOf(pool, parents, sorted, cost, f);
      assert FlagSeq(sorted)[i] == f;
    }
  }

  lemma RankedCount(pool: Pool, parents: Pool, sorted: seq<Task>, cost: Flags -> Cost)
    requires pool.Keys !! parents.Keys && Ranked(pool, parents, sorted, cost)
    ensures |sorted| == |pool.Keys + parents.Keys|
  {
  }

  /** A ranking of two disjoint pools repeats none. */
  lemma AllDifferent(pool: Pool, parents: Pool, sorted: seq<Task>, cost: Flags -> Cost)
    requires pool.Keys !! parents.Keys && Ranked(pool, parents, sorted, cost)
    ensures Distinct(FlagSeq(sorted))
  {
    AllRanked(pool, parents, sorted, cost);
    RankedCount(pool, parents, sorted, cost);
    hide Ranked, Elements, Distinct;
    Within(pool.Keys + parents.Keys, Elements(FlagSeq(sorted)));
    CountDistinct(FlagSeq(sorted));
  }

  lemma BestSelected(
    pool: Pool, parents: Pool, retained: seq<Task>, sorted: seq<Task>, candidates: Pool, params: Params, cost: Flags -> Cost)
    requires Ranked(pool, parents, sorted, cost) && Collects(retained, candidates)
    requires retained <= sorted && |retained| == Survivors(pool, parents, params)
    ensures Best(pool, parents, candidates, params, cost)
  {
    hide Ranked, Collects, Survivors, Evaluated, Distinct, FlagSeq;
    RankedIs(pool, parents, retained, sorted, candidates, cost);
    NoneBetter(pool, parents, retained, sorted, candidates, cost);
    if pool.Keys !! parents.Keys {
      AllDifferent(pool, parents, sorted, cost);
      RetainedCount(retained, sorted, candidates);
    }
  }

  lemma NoneBetter(
    pool: Pool, parents: Pool, retained: seq<Task>, sorted: seq<Task>, candidates: Pool, cost: Flags -> Cost)
    requires Ranked(pool, parents, sorted, cost) && Collects(retained, candidates) && retained <= sorted
    ensures forall f, g :: f in pool.Keys + parents.Keys && f !in candidates && g in candidates ==> cost(g) <= cost(f)
  {
    hide Ranked, Collects;
    forall f, g | f in pool.Keys + parents.Keys && f !in candidates && g in candidates ensures cost(g) <= cost(f) {
      LeftOut(pool, parents, retained, sorted, candidates, cost, f, g);
    }
  }

  lemma RankedIs(
    pool: Pool, parents: Pool, retained: seq<Task>, sorted: seq<Task>, candidates: Pool, cost: Flags -> Cost)
    requires Ranked(pool, parents, sorted, cost) && Collects(retained, candidates) && retained <= sorted
    ensures Evaluated(cost, candidates)
    ensures forall f :: f in candidates ==>
        (f in pool && candidates[f] == pool[f]) || (f in parents && candidates[f] == parents[f])
  {
    forall f | f in candidates
      ensures CarriesCost(cost, candidates[f]) && candidates[f].flags == f
      ensures (f in pool && candidates[f] == pool[f]) || (f in parents && candidates[f] == parents[f])
    {
      var k :| 0 <= k < |retained| && retained[k] == candidates[f];
      assert sorted[k] == candidates[f] && sorted[k] in sorted;
    }
  }

  lemma LeftOut(
    pool: Pool, parents: Pool, retained: seq<Task>, sorted: seq<Task>, candidates: Pool, cost: Flags -> Cost, f: Flags, g: Flags)
    requires Ranked(pool, parents, sorted, cost) && Collects(retained, candidates) && retained <= sorted
    requires (f in pool || f in parents) && f !in candidates && g in candidates
    ensures cost(g) <= cost(f)
  {
    var k :| 0 <= k < |retained| && retained[k] == candidates[g];
    assert sorted[k] == candidates[g];
    var i := RankOf(pool, parents, sorted, cost, f);
    assert forall n :: 0 <= n < |retained| ==> retained[n] == sorted[n];
    hide Ranked;
    InOrder(pool, parents, sorted, cost, k, i);
  }

  lemma RetainedCount(retained: seq<Task>, sorted: seq<Task>, candidates: Pool)
    requires retained <= sorted && Distinct(FlagSeq(sorted)) && Collects(retained, candidates)
    ensures |candidates| == |retained|
  {
    var fs := FlagSeq(retained);
    forall i, j | 0 <= i < j < |fs| ensures fs[i] != fs[j] {
      assert FlagSeq(sorted)[i] == fs[i] && FlagSeq(sorted)[j] == fs[j];
    }
    DistinctCount(fs);
    assert Elements(fs) == candidates.Keys by {
      forall f | f in candidates ensures f in fs {
        var k :| 0 <= k < |retained| && retained[k] == candidates[f];
        assert fs[k] == f;
      }
    }
    assert |candidates| == |candidates.Keys|;
  }

  // ---------------------------------------------------------------- a run

  /** Between generations: the candidates were evaluated before this pool, and one of them is cheapest
      of everything that was. */
  ghost predicate Breeding(cost: Flags -> Cost, cache: set<Flags>, pool: set<Flags>, parents: Pool) {
    && pool <= cache
    && Evaluated(cost, parents) && parents.Keys <= cache - pool
    && (cache != pool ==> exists f :: f in parents && Cheapest(cost, f, cache - pool))
  }

  /** A cheapest of the pool and the candidates is cheapest of everything ever evaluated. */
  lemma BreedingBest(cost: Flags -> Cost, cache: set<Flags>, pool: set<Flags>, parents: Pool, best: Flags)
    requires Breeding(cost, cache, pool, parents) && Cheapest(cost, best, pool + parents.Keys)
    ensures Cheapest(cost, best, cache)
  {
    forall f | f in cache ensures cost(best) <= cost(f) {
      if f !in pool {
        var p :| p in parents && Cheapest(cost, p, cache - pool);
        assert cost(best) <= cost(p) && f in cache - pool;
      }
    }
  }

  lemma BreedingGoesOn(
    cost: Flags -> Cost, cache: set<Flags>, pool: set<Flags>, parents: Pool, pool': set<Flags>, parents': Pool)
    requires Breeding(cost, cache, pool, parents)
    requires pool' !! cache && Evaluated(cost, parents') && parents'.Keys <= pool + parents.Keys
    requires exists f :: f in parents' && Cheapest(cost, f, pool + parents.Keys)
    ensures Breeding(cost, cache + pool', pool', parents')
  {
    assert cache + pool' - pool' == cache;
    var best :| best in parents' && Cheapest(cost, best, pool + parents.Keys);
    BreedingBest(cost, cache, pool, parents, best);
    assert Cheapest(cost, best, cache);
  }
}
