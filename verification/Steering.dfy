/** Generations (generation.py) and the steering loop (steering.py) that sends their tasks out, takes
    the results in, and asks each finished generation for the next. */
module SteeringLoop {
  import opened Sequences
  import opened FlagSets
  import opened FlagNeighbours
  import opened HillClimb
  import opened Pipeline
  import E = Elimination
  import G = Genetic

  /** What a subclass of Generation adds to it. */
  datatype Algorithm =
    | HillClimbing(specs: seq<Spec>, parents: seq<Task>, nextTask: Option<Task>)
    | IterativeElimination(parent: Task, first: bool)
    | GeneticAlgorithm(params: G.Params, candidates: Pool, stucks: nat, draws: nat -> Flags, at: nat)

  /** The flag sets the algorithm may ever try. */
  ghost predicate InReach(algorithm: Algorithm, space: seq<Spec>) {
    && (forall spec :: spec in space && spec.Numeric? ==> spec.start <= spec.end)
    && match algorithm
       case HillClimbing(specs, _, _) => Elements(specs) <= Elements(space)
       case IterativeElimination(parent, _) => parent.flags in Space(space)
       case GeneticAlgorithm(params, _, _, draws, _) =>
         params.numChromosomes > 0 && forall i :: draws(i) in Space(space)
  }

  /** What the algorithm has achieved so far: see Climbing, Eliminating and Breeding. */
  ghost predicate Achieved(
    cost: Flags -> Cost, cache: set<Flags>, pool: set<Flags>, algorithm: Algorithm, top: int, k: nat)
  {
    match algorithm
    case HillClimbing(specs, parents, _) =>
      && |parents| <= 1 && (forall t :: t in parents ==> CarriesCost(cost, t))
      && Climbing(cost, specs, cache, pool, if parents == [] then None else Some(parents[0].flags))
    case IterativeElimination(parent, first) =>
      && (!first ==> CarriesCost(cost, parent))
      && E.Eliminating(cost, cache, pool, parent.flags, first, top, k)
    case GeneticAlgorithm(_, candidates, _, _, _) => G.Breeding(cost, cache, pool, candidates)
  }

  /** How the last generation ended a run: it did not improve, it had no next one, or its next pool was
      empty and failed the assertion that every new generation has a task. */
  datatype Ending = NotImproved | NoNext | EmptyPool

  /** The flag set a run has come to, by its last generation: the parent or base line that was not
      improved upon, or the best task when nothing is left to try. The genetic algorithm names none;
      its answer is among the tasks it has kept. */
  ghost predicate Answer(algorithm: Algorithm, pool: set<Flags>, ending: Ending, result: Flags) {
    match algorithm
    case HillClimbing(_, parents, next) =>
      || (ending.NotImproved? && parents != [] && result == parents[0].flags)
      || (ending.EmptyPool? && next.Some? && result == next.value.flags)
    case IterativeElimination(parent, _) =>
      || (ending.NotImproved? && result == parent.flags)
      || (ending.NoNext? && result == map[] && result in pool)
    case GeneticAlgorithm(_, candidates, _, _, _) =>
      || (ending.NotImproved? && result in candidates)
      || (ending.NoNext? && result in pool + candidates.Keys)
  }

  /** The answer is a cheapest of everything the run ever evaluated, and no neighbour, or no one-step
      decrease, beats it. */
  ghost predicate Optimal(
    cost: Flags -> Cost, cache: set<Flags>, algorithm: Algorithm, pool: set<Flags>, ending: Ending, result: Flags)
  {
    && Answer(algorithm, pool, ending, result)
    && result in cache && Cheapest(cost, result, cache)
    && match algorithm
       case HillClimbing(specs, _, _) => Cheapest(cost, result, Neighbours(result, specs))
       case IterativeElimination(_, _) => Cheapest(cost, result, E.Decreases(result))
       case GeneticAlgorithm(_, _, _, _, _) => true
  }

  /** A pool whose best task improves on the parent, but has no neighbour left to send. */
  ghost predicate Stranded(cost: Flags -> Cost, cache: set<Flags>, algorithm: Algorithm, pool: set<Flags>) {
    algorithm.HillClimbing? && BestImproves(cost, algorithm, pool)
    && Neighbours(algorithm.nextTask.value.flags, algorithm.specs) <= cache
  }

  ghost predicate BestImproves(cost: Flags -> Cost, algorithm: Algorithm, pool: set<Flags>)
    requires algorithm.HillClimbing?
  {
    && algorithm.nextTask.Some?
    && algorithm.nextTask.value.flags in pool && Cheapest(cost, algorithm.nextTask.value.flags, pool)
    && (algorithm.parents != [] ==> cost(algorithm.nextTask.value.flags) < cost(algorithm.parents[0].flags))
  }

  /** The stop rule of the genetic algorithm, with its count of generations without improvement. */
  ghost predicate StuckRule(cost: Flags -> Cost, pool: set<Flags>, a: Algorithm, a': Algorithm, goOn: bool)
    requires a.GeneticAlgorithm?
  {
    var beats := G.Beats(cost, pool, a.candidates);
    && (goOn <==> a.candidates == map[] || beats || a.stucks < a.params.stopThreshold)
    && a' == a.(stucks := if a.candidates == map[] || !goOn then a.stucks else if beats then 0 else a.stucks + 1)
  }

  /** The genetic algorithm's next generation: exactly as many new tasks as it needs, all from the draws,
      bred from the best of the pool and the candidates, which it keeps. */
  ghost predicate Bred(cost: Flags -> Cost, pool: Pool, a: Algorithm, cache: set<Flags>, next: Pool, b: Algorithm)
    requires a.GeneticAlgorithm?
  {
    && b.GeneticAlgorithm? && b == a.(candidates := b.candidates, at := b.at)
    && a.at <= b.at && G.Children(next, a.draws, a.at, b.at, cache) && |next| == a.params.numChromosomes
    && G.Best(pool, a.candidates, b.candidates, a.params, cost)
    && exists crossed: nat :: crossed <= b.at
         && G.CrossedOver(a.params, cache, a.draws, a.at, crossed, G.Survivors(pool, a.candidates, a.params))
  }

  /** As many draws as it may try were of no use. */
  ghost predicate Exhausted(a: Algorithm, cache: set<Flags>)
    requires a.GeneticAlgorithm?
  {
    exists at: nat :: a.at <= at && at - a.at - |G.Drawn(a.draws, a.at, at) - cache| >= a.params.numTrials
  }

  class Generation {
    var exeSet: Pool
    var pending: int
    var algorithm: Algorithm

    /** The tasks of the pool that have not come back. */
    ghost var awaited: set<Flags>

    ghost predicate Valid()
      reads this
    {
      && awaited <= exeSet.Keys && pending == |awaited|
      && forall f :: f in exeSet ==> exeSet[f].flags == f
    }

    constructor (exeSet: Pool, algorithm: Algorithm)
      requires forall f :: f in exeSet ==> exeSet[f].flags == f
      ensures Valid() && this.exeSet == exeSet && this.algorithm == algorithm && awaited == exeSet.Keys
    {
      this.exeSet, this.algorithm := exeSet, algorithm;
      pending, awaited := |exeSet.Keys|, exeSet.Keys;
    }

    predicate IsDone()
      reads this
    {
      pending == 0
    }

    /** Puts a finished task in the place of its equal, unless it has none here. The caller hands each
        task over once. */
    method UpdateTask(task: Task) returns (mine: bool)
      requires Valid() && (task.flags in exeSet ==> task.flags in awaited)
      modifies this
      ensures Valid() && algorithm == old(algorithm)
      ensures mine <==> task.flags in old(exeSet)
      ensures mine ==> exeSet == old(exeSet)[task.flags := task] && awaited == old(awaited) - {task.flags}
      ensures !mine ==> exeSet == old(exeSet) && awaited == old(awaited)
    {
      if task.flags !in exeSet {
        return false;
      }
      exeSet := exeSet[task.flags := task];
      pending := pending - 1;
      awaited := awaited - {task.flags};
      return true;
    }

    /** Whether the run goes on: by the algorithm's own rule, which also records what Next needs. */
    method IsImproved(ghost cost: Flags -> Cost, ghost cache: set<Flags>, ghost top: int, ghost k: nat)
      returns (goOn: bool)
      requires Valid() && Evaluated(cost, exeSet) && exeSet != map[]
      requires Achieved(cost, cache, exeSet.Keys, algorithm, top, k)
      modifies this`algorithm
      ensures Valid() && Achieved(cost, cache, exeSet.Keys, algorithm, top, k)
      ensures SameKind(old(algorithm), algorithm)
      ensures !goOn ==> exists result :: Optimal(cost, cache, algorithm, exeSet.Keys, NotImproved, result)
      ensures goOn ==> Promising(cost)
      ensures !algorithm.GeneticAlgorithm? ==> (goOn <==> Promising(cost))
      ensures algorithm.HillClimbing? ==> (goOn <==> BestImproves(cost, algorithm, exeSet.Keys))
      ensures old(algorithm).GeneticAlgorithm? ==> StuckRule(cost, exeSet.Keys, old(algorithm), algorithm, goOn)
    {
      match algorithm
      case HillClimbing(specs, parents, _) =>
        var next;
        goOn, next := HillClimb.IsImproved(exeSet, parents, cost);
        algorithm := HillClimbing(specs, parents, next);
        if !goOn {
          ClimbStops(cost, specs, cache, exeSet.Keys, parents[0].flags, next.value.flags);
          assert Optimal(cost, cache, algorithm, exeSet.Keys, NotImproved, parents[0].flags);
        }
      case IterativeElimination(parent, first) =>
        if first {
          var measured;
          goOn, measured := E.FirstIsImproved(exeSet, parent, cost);
          algorithm := IterativeElimination(measured, first);
        } else {
          goOn := E.IsImproved(exeSet, parent, cost);
        }
        if !goOn {
          E.EliminationStops(cost, cache, exeSet.Keys, parent.flags, first, top, k);
          assert Optimal(cost, cache, algorithm, exeSet.Keys, NotImproved, parent.flags);
        }
      case GeneticAlgorithm(params, candidates, stucks, draws, at) =>
        var stucks';
        goOn, stucks' := G.IsImproved(exeSet, candidates, stucks, params, cost);
        algorithm := GeneticAlgorithm(params, candidates, stucks', draws, at);
        if !goOn {
          ghost var best :| best in candidates && Cheapest(cost, best, exeSet.Keys + candidates.Keys);
          G.BreedingBest(cost, cache, exeSet.Keys, candidates, best);
          assert Optimal(cost, cache, algorithm, exeSet.Keys, NotImproved, best);
        }
    }

    /** What IsImproved leaves for Next. */
    ghost predicate Promising(cost: Flags -> Cost)
      reads this
    {
      match algorithm
      case HillClimbing(_, _, next) =>
        BestImproves(cost, algorithm, exeSet.Keys) && next.value == exeSet[next.value.flags]
      case IterativeElimination(parent, _) =>
        CarriesCost(cost, parent) && exists f :: f in exeSet && cost(f) < cost(parent.flags)
      case GeneticAlgorithm(_, _, _, _, _) => true
    }

    /** A next generation: its tasks have never been sent before; only hill climbing can come up with
        an empty pool. */
    ghost predicate Follows(
      from: Algorithm, cache: set<Flags>, cost: Flags -> Cost, space: seq<Spec>, top: int, k: nat)
      reads this
    {
      var pool := exeSet.Keys;
      && Valid() && awaited == pool && (forall f :: f in exeSet ==> exeSet[f] == NewTask(f))
      && pool !! cache && pool <= Space(space) && InReach(algorithm, space)
      && Achieved(cost, cache + pool, pool, algorithm, top, k + 1)
      && Alike(from, algorithm)
      && (pool == {} ==> from.HillClimbing?)
    }

    method NextClimb(cache: set<Flags>, ghost cost: Flags -> Cost, ghost space: seq<Spec>, ghost top: int, ghost k: nat)
      returns (next: Generation)
      requires algorithm.HillClimbing?
      requires Valid() && Evaluated(cost, exeSet) && exeSet != map[] && exeSet.Keys <= Space(space)
      requires Achieved(cost, cache, exeSet.Keys, algorithm, top, k) && InReach(algorithm, space)
      requires Promising(cost)
      ensures fresh(next) && next.Follows(algorithm, cache, cost, space, top, k)
      ensures next.exeSet.Keys == Neighbours(algorithm.nextTask.value.flags, algorithm.specs) - cache
    {
      var specs, parents, current := algorithm.specs, algorithm.parents, algorithm.nextTask.value;
      var children := HillClimb.Next(current, specs, cache);
      ClimbGoesOn(cost, specs, cache, exeSet.Keys, if parents == [] then None else Some(parents[0].flags), current.flags);
      NeighboursStay(space, specs, current.flags);
      next := new Generation(children, HillClimbing(specs, [current], None));
    }

    method NextDecrease(cache: set<Flags>, ghost cost: Flags -> Cost, ghost space: seq<Spec>, ghost top: int, ghost k: nat)
      returns (next: Option<Generation>)
      requires algorithm.IterativeElimination?
      requires Valid() && Evaluated(cost, exeSet) && exeSet != map[] && exeSet.Keys <= Space(space)
      requires Achieved(cost, cache, exeSet.Keys, algorithm, top, k) && InReach(algorithm, space)
      requires Promising(cost)
      ensures next == None ==> exists result :: Optimal(cost, cache, algorithm, exeSet.Keys, NoNext, result)
      ensures next.Some? ==> fresh(next.value) && next.value.Follows(algorithm, cache, cost, space, top, k)
    {
      var parent, first := algorithm.parent, algorithm.first;
      var worst, children := E.Next(exeSet, parent, cache, cost);
      E.EliminationGoesOn(cost, cache, exeSet.Keys, parent.flags, first, top, k, worst.flags);
      if children == None {
        assert Optimal(cost, cache, algorithm, exeSet.Keys, NoNext, worst.flags);
        return None;
      }
      DecreasesStay(space, worst.flags);
      var g := new Generation(children.value, IterativeElimination(worst, false));
      next := Some(g);
    }

    method NextBreed(cache: set<Flags>, ghost cost: Flags -> Cost, ghost space: seq<Spec>, ghost top: int, ghost k: nat)
      returns (next: Option<Generation>)
      requires algorithm.GeneticAlgorithm?
      requires Valid() && Evaluated(cost, exeSet) && exeSet != map[] && exeSet.Keys <= Space(space)
      requires Achieved(cost, cache, exeSet.Keys, algorithm, top, k) && InReach(algorithm, space)
      requires Promising(cost)
      ensures next == None ==> exists result :: Optimal(cost, cache, algorithm, exeSet.Keys, NoNext, result)
      ensures next.Some? ==> fresh(next.value) && next.value.Follows(algorithm, cache, cost, space, top, k)
      ensures next.Some? ==> Bred(cost, exeSet, algorithm, cache, next.value.exeSet, next.value.algorithm)
      ensures next == None ==> Exhausted(algorithm, cache)
    {
      var params, candidates, draws := algorithm.params, algorithm.candidates, algorithm.draws;
      var children, retained, at;
      ghost var crossed;
      children, retained, at, crossed := G.Next(exeSet, candidates, params, cache, draws, algorithm.at, cost);
      if children == None {
        ghost var best :| best in retained && Cheapest(cost, best, exeSet.Keys + candidates.Keys);
        G.BreedingBest(cost, cache, exeSet.Keys, candidates, best);
        assert Optimal(cost, cache, algorithm, exeSet.Keys, NoNext, best);
        return None;
      }
      G.BreedingGoesOn(cost, cache, exeSet.Keys, candidates, children.value.Keys, retained);
      var g := new Generation(children.value, GeneticAlgorithm(params, retained, algorithm.stucks, draws, at));
      next := Some(g);
    }

    /** The next generation, if there is one; else the run has found an optimum. */
    method Next(cache: set<Flags>, ghost cost: Flags -> Cost, ghost space: seq<Spec>, ghost top: int, ghost k: nat)
      returns (next: Option<Generation>)
      requires Valid() && Evaluated(cost, exeSet) && exeSet != map[] && exeSet.Keys <= Space(space)
      requires Achieved(cost, cache, exeSet.Keys, algorithm, top, k) && InReach(algorithm, space)
      requires Promising(cost)
      ensures next == None ==> exists result :: Optimal(cost, cache, algorithm, exeSet.Keys, NoNext, result)
      ensures next.Some? ==> fresh(next.value) && next.value.Follows(algorithm, cache, cost, space, top, k)
      ensures algorithm.HillClimbing? ==>
          && next.Some?
          && next.value.exeSet.Keys == Neighbours(algorithm.nextTask.value.flags, algorithm.specs) - cache
      ensures algorithm.GeneticAlgorithm? ==>
          if next.Some? then Bred(cost, exeSet, algorithm, cache, next.value.exeSet, next.value.algorithm)
          else Exhausted(algorithm, cache)
    {
      hide Achieved, InReach, Promising, Optimal, Space, Evaluated, Follows, Bred, Exhausted;
      match algorithm
      case HillClimbing(_, _, _) =>
        var g := NextClimb(cache, cost, space, top, k);
        next := Some(g);
      case IterativeElimination(_, _) => next := NextDecrease(cache, cost, space, top, k);
      case GeneticAlgorithm(_, _, _, _, _) => next := NextBreed(cache, cost, space, top, k);
    }
  }

  lemma NeighboursStay(space: seq<Spec>, specs: seq<Spec>, f: Flags)
    requires f in Space(space) && Elements(specs) <= Elements(space)
    requires forall spec :: spec in space && spec.Numeric? ==> spec.start <= spec.end
    ensures Neighbours(f, specs) <= Space(space)
  {
    forall g | g in Neighbours(f, specs) ensures g in Space(space) {
      var spec :| spec in specs && g in ClimbNext(f, spec);
      assert spec in Elements(specs);
      ClimbStays(space, f, spec, g);
    }
  }

  lemma DecreasesStay(space: seq<Spec>, f: Flags)
    requires f in Space(space)
    ensures E.Decreases(f) <= Space(space)
  {
    forall g | g in E.Decreases(f) ensures g in Space(space) {
      var spec :| spec in f && g == Decrease(f, spec);
      DecreaseStays(space, f, spec);
    }
  }

  /** The same search, some generations on. */
  ghost predicate Alike(a: Algorithm, b: Algorithm) {
    match a
    case HillClimbing(specs, _, _) => b.HillClimbing? && b.specs == specs
    case IterativeElimination(_, _) => b.IterativeElimination?
    case GeneticAlgorithm(params, _, _, _, _) => b.GeneticAlgorithm? && b.params == params
  }

  ghost predicate SameKind(a: Algorithm, b: Algorithm) {
    match a
    case HillClimbing(specs, parents, _) => b.HillClimbing? && b.specs == specs && b.parents == parents
    case IterativeElimination(parent, first) => b.IterativeElimination? && b.parent.flags == parent.flags && b.first == first
    case GeneticAlgorithm(params, candidates, _, draws, _) =>
      b.GeneticAlgorithm? && b.params == params && b.candidates == candidates && b.draws == draws
  }

  // ---------------------------------------------------------------- the loop

  /** The flag sets of the tasks sent, in order. */
  function Sent(queue: seq<Msg>): seq<Flags> {
    if queue == [] then []
    else (if queue[0].Job? then [queue[0].task.flags] else []) + Sent(queue[1..])
  }

  lemma {:induction false} SentMore(queue: seq<Msg>, m: Msg)
    ensures Sent(queue + [m]) == Sent(queue) + if m.Job? then [m.task.flags] else []
  {
    if queue == [] {
    } else {
      SentMore(queue[1..], m);
      assert (queue + [m])[1..] == queue[1..] + [m];
    }
  }

  /** What has been put on the queue so far: no pill, and every cached flag set exactly once. */
  ghost predicate SentOnce(queue: seq<Msg>, cache: set<Flags>) {
    && (forall i :: 0 <= i < |queue| ==> queue[i].Job?)
    && Distinct(Sent(queue)) && Elements(Sent(queue)) == cache
  }

  lemma SentOnceMore(queue: seq<Msg>, cache: set<Flags>, t: Task)
    requires SentOnce(queue, cache) && t.flags !in cache
    ensures SentOnce(queue + [Job(t)], cache + {t.flags})
  {
    SentMore(queue, Job(t));
    var sent := Sent(queue);
    assert Elements(sent + [t.flags]) == Elements(sent) + {t.flags};
    assert t.flags !in Elements(sent);
  }

  lemma {:induction false} SentOnceAll(queue: seq<Msg>, cache: set<Flags>, tasks: seq<Task>)
    requires SentOnce(queue, cache) && NewPool(tasks, cache)
    ensures SentOnce(queue + AsJobs(tasks), cache + FlagsOf(tasks))
  {
    if tasks == [] {
      assert queue + AsJobs(tasks) == queue && cache + FlagsOf(tasks) == cache;
    } else {
      var n := |tasks| - 1;
      hide SentOnce;
      SentOnceAll(queue, cache, tasks[..n]);
      SentOnceMore(queue + AsJobs(tasks[..n]), cache + FlagsOf(tasks[..n]), tasks[n]);
      assert tasks == tasks[..n] + [tasks[n]];
      assert AsJobs(tasks) == AsJobs(tasks[..n]) + [Job(tasks[n])];
      assert queue + AsJobs(tasks) == queue + AsJobs(tasks[..n]) + [Job(tasks[n])];
      assert cache + FlagsOf(tasks) == cache + FlagsOf(tasks[..n]) + {tasks[n].flags};
    }
  }

  /** Puts the tasks of a new pool, in some order, on the queue and into the cache. */
  method Send(pool: Pool, cache: set<Flags>) returns (sent: seq<Task>, cache': set<Flags>)
    requires pool.Keys !! cache
    requires forall f :: f in pool ==> pool[f] == NewTask(f)
    ensures NewPool(sent, cache) && FlagsOf(sent) == pool.Keys && |sent| == |pool.Keys|
    ensures cache' == cache + pool.Keys
  {
    sent, cache' := [], cache;
    var left := pool.Keys;
    while left != {}
      invariant left <= pool.Keys && cache' == cache + (pool.Keys - left)
      invariant NewPool(sent, cache) && FlagsOf(sent) == pool.Keys - left && |sent| == |pool.Keys| - |left|
      decreases left
    {
      var f :| f in left;
      OneMore(sent, cache, f);
      sent, cache' := sent + [pool[f]], cache' + {f};
      left := left - {f};
    }
  }

  lemma OneMore(sent: seq<Task>, cache: set<Flags>, f: Flags)
    requires NewPool(sent, cache) && f !in cache && f !in FlagsOf(sent)
    ensures NewPool(sent + [NewTask(f)], cache) && FlagsOf(sent + [NewTask(f)]) == FlagsOf(sent) + {f}
  {
    forall i | 0 <= i < |sent| ensures sent[i].flags != f {
      assert sent[i] in sent;
      assert sent[i].flags in FlagsOf(sent);
    }
  }

  /** The tasks that have come back carry their costs. */
  ghost predicate Back(cost: Flags -> Cost, pool: Pool, awaited: set<Flags>) {
    forall f :: f in pool && f !in awaited ==> CarriesCost(cost, pool[f]) && pool[f].flags == f
  }

  /** A waiting generation and the rest of the run: what is in flight is what it awaits. */
  ghost predicate Running(
    g: Generation, cost: Flags -> Cost, cache: set<Flags>, inflight: set<Flags>, space: seq<Spec>, top: int, k: nat)
    reads g
  {
    && g.Valid() && g.awaited == inflight
    && g.exeSet.Keys <= Space(space) && InReach(g.algorithm, space)
    && Back(cost, g.exeSet, inflight)
    && Achieved(cost, cache, g.exeSet.Keys, g.algorithm, top, k)
    && g.exeSet != map[]
  }

  /** Hands a finished task to the first waiting generation it belongs to. Steering relies on there
      being one: with one generation waiting, what is in flight is what that one awaits. */
  method FindGeneration(waiting: seq<Generation>, task: Task, ghost cost: Flags -> Cost, ghost cache: set<Flags>,
                        ghost inflight: set<Flags>, ghost space: seq<Spec>, ghost top: int, ghost k: nat)
    returns (generation: Generation)
    requires |waiting| == 1 && task.flags in inflight && CarriesCost(cost, task)
    requires Running(waiting[0], cost, cache, inflight, space, top, k)
    modifies waiting
    ensures generation == waiting[0] && generation.algorithm == old(waiting[0].algorithm)
    ensures generation.exeSet.Keys == old(waiting[0].exeSet.Keys)
    ensures Running(generation, cost, cache, inflight - {task.flags}, space, top, k)
    ensures generation.IsDone() <==> inflight - {task.flags} == {}
  {
    hide Achieved, Space, InReach;
    generation := waiting[0];
    ghost var keys := generation.exeSet.Keys;
    var mine := generation.UpdateTask(task);
    assert generation.exeSet.Keys == keys;
  }

  /** A run that has ended: its last generation has come to an optimum. The assertion on new pools has
      failed exactly when that generation improved and had no neighbour left to send. */
  ghost predicate Ended(
    cost: Flags -> Cost, cache: set<Flags>, algorithm: Algorithm, pool: set<Flags>, ending: Ending, top: int, k: nat)
  {
    && Achieved(cost, cache, pool, algorithm, top, k)
    && (exists result :: Optimal(cost, cache, algorithm, pool, ending, result))
    && (ending.EmptyPool? <==> Stranded(cost, cache, algorithm, pool))
    && (algorithm.GeneticAlgorithm? ==> BredOut(cost, cache, algorithm, pool, ending))
  }

  /** The genetic algorithm ends when the last pool has not improved and the count of such generations has
      reached the threshold, or when its draws are of no use any more. */
  ghost predicate BredOut(cost: Flags -> Cost, cache: set<Flags>, algorithm: Algorithm, pool: set<Flags>, ending: Ending)
    requires algorithm.GeneticAlgorithm?
  {
    match ending
    case NotImproved =>
      && algorithm.candidates != map[] && !G.Beats(cost, pool, algorithm.candidates)
      && algorithm.stucks >= algorithm.params.stopThreshold
    case NoNext => Exhausted(algorithm, cache)
    case EmptyPool => false
  }

  /** A next generation whose tasks have just been sent: it runs, and it is of the same search. */
  ghost predicate Renewed(
    g: Generation, sent: seq<Task>, from: Algorithm, cost: Flags -> Cost, cache: set<Flags>, cache': set<Flags>,
    space: seq<Spec>, top: int, k: nat)
    reads g
  {
    && Running(g, cost, cache', g.exeSet.Keys, space, top, k + 1)
    && sent != [] && FlagsOf(sent) == g.exeSet.Keys && |sent| == |g.exeSet.Keys|
    && cache' <= Space(space) && |Space(space) - cache'| < |Space(space) - cache|
    && Alike(from, g.algorithm)
    && (from.IterativeElimination? ==> k + 1 < top)
  }

  /** The generation's last task is back: the run ends, or the next generation's tasks are sent. */
  method Finish(g: Generation, cache: set<Flags>, ghost cost: Flags -> Cost,
                ghost space: seq<Spec>, ghost top: int, ghost k: nat)
    returns (next: Option<Generation>, ending: Ending, sent: seq<Task>, cache': set<Flags>)
    requires Running(g, cost, cache, {}, space, top, k) && cache <= Space(space)
    modifies g
    ensures Alike(old(g.algorithm), g.algorithm) && g.exeSet == old(g.exeSet)
    ensures old(g.algorithm).GeneticAlgorithm? ==>
              StuckRule(cost, g.exeSet.Keys, old(g.algorithm), g.algorithm, next.Some? || ending.NoNext?)
    ensures next.Some? && g.algorithm.GeneticAlgorithm? ==>
              Bred(cost, g.exeSet, g.algorithm, cache, next.value.exeSet, next.value.algorithm)
    ensures NewPool(sent, cache) && cache' == cache + FlagsOf(sent)
    ensures next == None ==> sent == [] && Ended(cost, cache, g.algorithm, g.exeSet.Keys, ending, top, k)
    ensures next.Some? ==>
              fresh(next.value) && Renewed(next.value, sent, g.algorithm, cost, cache, cache', space, top, k)
  {
    hide *;
    RunningAll(g, cost, cache, space, top, k);
    ghost var before := g.algorithm;
    var goOn := g.IsImproved(cost, cache, top, k);
    SameKindAlike(before, g.algorithm, space);
    if goOn {
      next, ending, sent, cache' := Proceed(g, cache, cost, space, top, k);
      if before.GeneticAlgorithm? {
        StillGenetic(before, g.algorithm, cost, cache, g.exeSet.Keys, ending, top, k);
      }
    } else {
      CountReached(cost, cache, before, g.algorithm, g.exeSet.Keys);
      NoneAfter(cost, cache, g.algorithm, g.exeSet.Keys, NotImproved, top, k);
      next, ending, sent, cache' := None, NotImproved, [], cache;
      NothingNew(cache);
    }
  }

  /** What follows a generation that goes on: the next one, unless there is none, or none that can be sent. */
  method Proceed(g: Generation, cache: set<Flags>, ghost cost: Flags -> Cost,
                 ghost space: seq<Spec>, ghost top: int, ghost k: nat)
    returns (next: Option<Generation>, ending: Ending, sent: seq<Task>, cache': set<Flags>)
    requires g.Valid() && Evaluated(cost, g.exeSet) && g.exeSet != map[] && g.exeSet.Keys <= Space(space)
    requires Achieved(cost, cache, g.exeSet.Keys, g.algorithm, top, k) && InReach(g.algorithm, space)
    requires g.Promising(cost) && cache <= Space(space)
    ensures next == None ==> !ending.NotImproved? && sent == []
    ensures next == None ==> Ended(cost, cache, g.algorithm, g.exeSet.Keys, ending, top, k)
    ensures next.Some? && g.algorithm.GeneticAlgorithm? ==>
              Bred(cost, g.exeSet, g.algorithm, cache, next.value.exeSet, next.value.algorithm)
    ensures NewPool(sent, cache) && cache' == cache + FlagsOf(sent)
    ensures next.Some? ==>
              fresh(next.value) && Renewed(next.value, sent, g.algorithm, cost, cache, cache', space, top, k)
  {
    hide *;
    next, ending, sent, cache' := None, NoNext, [], cache;
    NothingNew(cache);
    next := g.Next(cache, cost, space, top, k);
    if next == None {
      DrawsOut(cost, cache, g.algorithm, g.exeSet.Keys);
      NoneAfter(cost, cache, g.algorithm, g.exeSet.Keys, NoNext, top, k);
    } else if next.value.exeSet == map[] {
      StuckAtOptimum(g, next.value, cache, cost, space, top, k);
      next, ending := None, EmptyPool;
    } else {
      Launched(next.value, g.algorithm, cache, cost, space, top, k);
      sent, cache' := Send(next.value.exeSet, cache);
      AllSent(next.value, sent, g.algorithm, cost, cache, cache', space, top, k);
    }
  }

  /** The genetic algorithm never comes up with an empty pool. */
  lemma StillGenetic(before: Algorithm, after: Algorithm, cost: Flags -> Cost, cache: set<Flags>, pool: set<Flags>,
                     ending: Ending, top: int, k: nat)
    requires before.GeneticAlgorithm? && Alike(before, after)
    ensures Ended(cost, cache, after, pool, ending, top, k) ==> !ending.EmptyPool?
  {
  }

  /** No next generation: the run has ended, and not because of the assertion. */
  lemma NoneAfter(cost: Flags -> Cost, cache: set<Flags>, a: Algorithm, pool: set<Flags>, ending: Ending, top: int, k: nat)
    requires Achieved(cost, cache, pool, a, top, k) && (a.HillClimbing? ==> !BestImproves(cost, a, pool))
    requires !ending.EmptyPool? && exists result :: Optimal(cost, cache, a, pool, ending, result)
    requires a.GeneticAlgorithm? ==> BredOut(cost, cache, a, pool, ending)
    ensures Ended(cost, cache, a, pool, ending, top, k)
  {
    hide Achieved, Optimal, BestImproves, BredOut;
  }

  /** A launched generation has been sent. */
  lemma AllSent(g: Generation, sent: seq<Task>, from: Algorithm, cost: Flags -> Cost, cache: set<Flags>,
                cache': set<Flags>, space: seq<Spec>, top: int, k: nat)
    requires var pool := g.exeSet.Keys;
             && Running(g, cost, cache + pool, pool, space, top, k + 1)
             && pool != {} && cache + pool <= Space(space)
             && |Space(space) - (cache + pool)| < |Space(space) - cache|
             && FlagsOf(sent) == pool && |sent| == |pool| && cache' == cache + pool
    requires Alike(from, g.algorithm) && (from.IterativeElimination? ==> k + 1 < top)
    ensures Renewed(g, sent, from, cost, cache, cache', space, top, k)
  {
    hide Running, Space, Alike, FlagsOf;
    assert |g.exeSet.Keys| > 0;
  }

  lemma NothingNew(cache: set<Flags>)
    ensures NewPool([], cache) && FlagsOf([]) == {}
  {
  }

  lemma CountReached(cost: Flags -> Cost, cache: set<Flags>, a: Algorithm, a': Algorithm, pool: set<Flags>)
    requires a.GeneticAlgorithm? ==> StuckRule(cost, pool, a, a', false)
    requires Alike(a, a')
    ensures a'.GeneticAlgorithm? ==> BredOut(cost, cache, a', pool, NotImproved)
  {
  }

  lemma DrawsOut(cost: Flags -> Cost, cache: set<Flags>, a: Algorithm, pool: set<Flags>)
    requires a.GeneticAlgorithm? ==> Exhausted(a, cache)
    ensures a.GeneticAlgorithm? ==> BredOut(cost, cache, a, pool, NoNext)
  {
  }

  lemma SameKindAlike(a: Algorithm, b: Algorithm, space: seq<Spec>)
    requires SameKind(a, b)
    ensures Alike(a, b) && (InReach(a, space) ==> InReach(b, space))
  {
  }

  /** When nothing is awaited any more, all tasks of the generation carry their costs. */
  lemma RunningAll(g: Generation, cost: Flags -> Cost, cache: set<Flags>, space: seq<Spec>, top: int, k: nat)
    requires Running(g, cost, cache, {}, space, top, k)
    ensures g.Valid() && Evaluated(cost, g.exeSet) && g.exeSet != map[] && g.exeSet.Keys <= Space(space)
    ensures Achieved(cost, cache, g.exeSet.Keys, g.algorithm, top, k) && InReach(g.algorithm, space)
  {
  }

  /** Only hill climbing can come up with an empty pool, and then its best task is an optimum already:
      it is cheapest of everything evaluated, and that includes all its neighbours. */
  lemma StuckAtOptimum(
    g: Generation, next: Generation, cache: set<Flags>, cost: Flags -> Cost, space: seq<Spec>, top: int, k: nat)
    requires next.Follows(g.algorithm, cache, cost, space, top, k) && next.exeSet == map[]
    requires g.Promising(cost) && Achieved(cost, cache, g.exeSet.Keys, g.algorithm, top, k)
    requires g.algorithm.HillClimbing? ==>
               next.exeSet.Keys == Neighbours(g.algorithm.nextTask.value.flags, g.algorithm.specs) - cache
    ensures Ended(cost, cache, g.algorithm, g.exeSet.Keys, EmptyPool, top, k)
  {
    hide Space, InReach, Neighbours;
    assert next.exeSet.Keys == {};
    var best := g.algorithm.nextTask.value.flags;
    ClimbGoesOn(cost, g.algorithm.specs, cache, g.exeSet.Keys,
                if g.algorithm.parents == [] then None else Some(g.algorithm.parents[0].flags), best);
    assert Neighbours(best, g.algorithm.specs) - cache == {} && cache + {} - {} == cache;
    assert Optimal(cost, cache, g.algorithm, g.exeSet.Keys, EmptyPool, best);
  }

  /** A next generation with a task in it can be sent, and runs. */
  lemma Launched(
    g: Generation, from: Algorithm, cache: set<Flags>, cost: Flags -> Cost, space: seq<Spec>, top: int, k: nat)
    requires g.Follows(from, cache, cost, space, top, k) && g.exeSet != map[] && cache <= Space(space)
    ensures var pool := g.exeSet.Keys;
            && Running(g, cost, cache + pool, pool, space, top, k + 1)
            && pool != {} && pool !! cache && cache + pool <= Space(space)
            && |Space(space) - (cache + pool)| < |Space(space) - cache|
    ensures forall f :: f in g.exeSet ==> g.exeSet[f] == NewTask(f)
    ensures Alike(from, g.algorithm)
    ensures from.IterativeElimination? ==> k + 1 < top
  {
    hide Space, InReach, Achieved;
    var pool := g.exeSet.Keys;
    var some :| some in g.exeSet;
    assert some in pool;
    LeavesLess(Space(space), cache, pool);
    RunShort(g.algorithm, cost, cache + pool, pool, top, k + 1);
  }

  /** Every later generation of iterative elimination is numbered below the first base line's rank. */
  lemma RunShort(algorithm: Algorithm, cost: Flags -> Cost, cache: set<Flags>, pool: set<Flags>, top: int, k: nat)
    requires Achieved(cost, cache, pool, algorithm, top, k) && pool != {} && k > 0
    ensures algorithm.IterativeElimination? ==> k < top
  {
    if algorithm.IterativeElimination? {
      var f :| f in pool;
      E.PoolRank(cost, cache, pool, algorithm.parent.flags, algorithm.first, top, k, f);
    }
  }

  /** The last generation to wait, and how the run ended if none waits any more. */
  datatype Last = Last(algorithm: Algorithm, pool: set<Flags>, ending: Ending)

  /** The loop between two turns: at most one generation waits, and what is in flight is what it
      awaits; when none waits the run has ended. */
  ghost predicate Steered(
    kind: Algorithm, cost: Flags -> Cost, waiting: seq<Generation>, cache: set<Flags>,
    inflight: set<Flags>, last: Last, space: seq<Spec>, top: int, k: nat)
    reads waiting
  {
    && inflight <= cache <= Space(space)
    && Alike(kind, last.algorithm) && (kind.IterativeElimination? ==> k == 0 || k < top)
    && |waiting| <= 1
    && (waiting == [] ==> inflight == {} && Ended(cost, cache, last.algorithm, last.pool, last.ending, top, k))
    && (waiting != [] ==>
          && waiting[0].algorithm == last.algorithm && waiting[0].exeSet.Keys == last.pool
          && inflight != {} && Running(waiting[0], cost, cache, inflight, space, top, k))
  }

  /** One turn of the loop: a task comes back, any of those in flight. */
  method SteerTurn(
    ghost kind: Algorithm, ghost cost: Flags -> Cost, waiting: seq<Generation>, task: Task, cache: set<Flags>,
    inflight: set<Flags>, last: Last, ghost space: seq<Spec>, ghost top: int, ghost k: nat)
    returns (waiting': seq<Generation>, sent: seq<Task>, cache': set<Flags>, inflight': set<Flags>,
             last': Last, ghost k': nat)
    requires waiting != [] && Steered(kind, cost, waiting, cache, inflight, last, space, top, k)
    requires task.flags in inflight && CarriesCost(cost, task)
    modifies waiting
    ensures Steered(kind, cost, waiting', cache', inflight', last', space, top, k')
    ensures waiting' == [] || waiting' == waiting || (|waiting'| == 1 && fresh(waiting'[0]))
    ensures NewPool(sent, cache) && cache' == cache + FlagsOf(sent)
    ensures inflight - {task.flags} != {} ==>
        waiting' == waiting && sent == [] && last' == last && inflight' == inflight - {task.flags}
    ensures inflight - {task.flags} == {} ==>
        && inflight' == FlagsOf(sent) && (waiting' == [] <==> sent == [])
        && last'.pool == if sent == [] then last.pool else FlagsOf(sent)
    ensures |Space(space) - cache'| < |Space(space) - cache| || (cache' == cache && |inflight'| < |inflight|)
  {
    hide *;
    SteeredWaiting(kind, cost, waiting, cache, inflight, last, space, top, k);
    var generation := FindGeneration(waiting, task, cost, cache, inflight, space, top, k);
    inflight' := inflight - {task.flags};
    Within(inflight', inflight);
    if generation.IsDone() {
      waiting', sent, cache', inflight', last', k' := EndGeneration(kind, cost, generation, cache, space, top, k);
    } else {
      NothingNew(cache);
      assert waiting == [generation];
      SteeredOn(kind, cost, generation, cache, inflight', last, space, top, k);
      waiting', sent, cache', last', k' := waiting, [], cache, last, k;
    }
  }

  /** A turn that brings a generation's last task. */
  method EndGeneration(
    ghost kind: Algorithm, ghost cost: Flags -> Cost, g: Generation, cache: set<Flags>,
    ghost space: seq<Spec>, ghost top: int, ghost k: nat)
    returns (waiting: seq<Generation>, sent: seq<Task>, cache': set<Flags>, inflight: set<Flags>, last: Last, ghost k': nat)
    requires Running(g, cost, cache, {}, space, top, k) && cache <= Space(space)
    requires Alike(kind, g.algorithm) && (kind.IterativeElimination? ==> k == 0 || k < top)
    modifies g
    ensures Steered(kind, cost, waiting, cache', inflight, last, space, top, k')
    ensures waiting == [] || (|waiting| == 1 && fresh(waiting[0]))
    ensures NewPool(sent, cache) && cache' == cache + FlagsOf(sent) && inflight == FlagsOf(sent)
    ensures last.pool == if sent == [] then old(g.exeSet.Keys) else FlagsOf(sent)
    ensures (waiting == [] <==> sent == []) && (sent == [] ==> cache' == cache && inflight == {})
    ensures sent != [] ==> |Space(space) - cache'| < |Space(space) - cache|
  {
    hide *;
    NothingNew(cache);
    ghost var algorithm := g.algorithm;
    var next, ending;
    next, ending, sent, cache' := Finish(g, cache, cost, space, top, k);
    AlikeTransitive(kind, algorithm, g.algorithm);
    waiting, inflight, last, k' := [], {}, Last(g.algorithm, g.exeSet.Keys, ending), k;
    if next == None {
      assert cache' == cache;
      SteeredOver(kind, cost, cache, last, space, top, k);
    } else {
      RenewedAll(next.value, sent, g.algorithm, cost, cache, cache', space, top, k);
      AlikeTransitive(kind, g.algorithm, next.value.algorithm);
      SomeSent(sent);
      waiting, inflight, k' := [next.value], next.value.exeSet.Keys, k + 1;
      last := Last(next.value.algorithm, inflight, ending);
      SteeredOn(kind, cost, next.value, cache', inflight, last, space, top, k');
    }
  }

  lemma SteeredWaiting(
    kind: Algorithm, cost: Flags -> Cost, waiting: seq<Generation>, cache: set<Flags>, inflight: set<Flags>,
    last: Last, space: seq<Spec>, top: int, k: nat)
    requires waiting != [] && Steered(kind, cost, waiting, cache, inflight, last, space, top, k)
    ensures |waiting| == 1 && Running(waiting[0], cost, cache, inflight, space, top, k)
    ensures inflight != {} && inflight <= cache <= Space(space)
    ensures waiting[0].algorithm == last.algorithm && waiting[0].exeSet.Keys == last.pool
    ensures Alike(kind, last.algorithm) && (kind.IterativeElimination? ==> k == 0 || k < top)
  {
  }

  lemma SteeredOn(
    kind: Algorithm, cost: Flags -> Cost, g: Generation, cache: set<Flags>, inflight: set<Flags>,
    last: Last, space: seq<Spec>, top: int, k: nat)
    requires Running(g, cost, cache, inflight, space, top, k) && inflight != {} && inflight <= cache <= Space(space)
    requires g.algorithm == last.algorithm && g.exeSet.Keys == last.pool
    requires Alike(kind, last.algorithm) && (kind.IterativeElimination? ==> k == 0 || k < top)
    ensures Steered(kind, cost, [g], cache, inflight, last, space, top, k)
  {
  }

  lemma SteeredOver(
    kind: Algorithm, cost: Flags -> Cost, cache: set<Flags>, last: Last, space: seq<Spec>, top: int, k: nat)
    requires Ended(cost, cache, last.algorithm, last.pool, last.ending, top, k) && cache <= Space(space)
    requires Alike(kind, last.algorithm) && (kind.IterativeElimination? ==> k == 0 || k < top)
    ensures Steered(kind, cost, [], cache, {}, last, space, top, k)
  {
  }

  lemma RenewedAll(g: Generation, sent: seq<Task>, from: Algorithm, cost: Flags -> Cost, cache: set<Flags>,
                   cache': set<Flags>, space: seq<Spec>, top: int, k: nat)
    requires Renewed(g, sent, from, cost, cache, cache', space, top, k)
    ensures Running(g, cost, cache', g.exeSet.Keys, space, top, k + 1)
    ensures sent != [] && FlagsOf(sent) == g.exeSet.Keys
    ensures cache' <= Space(space) && |Space(space) - cache'| < |Space(space) - cache|
    ensures Alike(from, g.algorithm) && (from.IterativeElimination? ==> k + 1 < top)
  {
  }

  lemma SomeSent(sent: seq<Task>)
    requires sent != []
    ensures FlagsOf(sent) != {}
  {
    assert sent[0].flags in FlagsOf(sent);
  }

  lemma SteeredFromStart(
    g: Generation, cost: Flags -> Cost, ending: Ending, space: seq<Spec>, top: int)
    requires Running(g, cost, g.exeSet.Keys, g.exeSet.Keys, space, top, 0)
    ensures Steered(g.algorithm, cost, [g], g.exeSet.Keys, g.exeSet.Keys, Last(g.algorithm, g.exeSet.Keys, ending), space, top, 0)
    ensures g.exeSet.Keys != {}
  {
    RunningStart(g, cost, space, top);
    AlikeSelf(g.algorithm);
    hide Space, Running, Alike;
  }

  lemma SteeredToEnd(
    kind: Algorithm, cost: Flags -> Cost, waiting: seq<Generation>, cache: set<Flags>,
    inflight: set<Flags>, last: Last, space: seq<Spec>, top: int, k: nat)
    requires waiting == [] && Steered(kind, cost, waiting, cache, inflight, last, space, top, k)
    ensures Alike(kind, last.algorithm) && inflight == {}
    ensures Ended(cost, cache, last.algorithm, last.pool, last.ending, top, k)
    ensures kind.IterativeElimination? ==> k == 0 || k < top
  {
  }

  /** An initial generation has achieved what a run starts from. */
  lemma InitiallyAchieved(cost: Flags -> Cost, pool: set<Flags>, algorithm: Algorithm, top: int)
    requires match algorithm
             case HillClimbing(_, parents, _) => parents == []
             case IterativeElimination(parent, first) =>
               first && WellFormed(parent.flags) && top == Rank(parent.flags)
               && pool == E.Decreases(parent.flags) + {parent.flags}
             case GeneticAlgorithm(_, candidates, _, _, _) => candidates == map[]
    ensures Achieved(cost, pool, pool, algorithm, top, 0)
  {
  }

  /** The steering loop over one initial generation. The stages between its two queues are
      represented by the set of flag sets in flight: any of them may come back next, with its cost.
      However it ends, it has come to an optimum; the pill is not sent when the assertion fails. */
  method Steering(first: Generation, cost: Flags -> Cost, ghost space: seq<Spec>, ghost top: int)
    returns (queue: seq<Msg>, cache: set<Flags>, last: Last, ghost k: nat)
    requires forall f :: f in first.exeSet ==> first.exeSet[f] == NewTask(f)
    requires first.exeSet == map[] || Running(first, cost, first.exeSet.Keys, first.exeSet.Keys, space, top, 0)
    modifies first
    ensures old(first.exeSet) == map[] ==> queue == [Pill] && cache == {}
    ensures old(first.exeSet) != map[] ==>
        && Alike(old(first.algorithm), last.algorithm) && old(first.exeSet.Keys) <= cache
        && Ended(cost, cache, last.algorithm, last.pool, last.ending, top, k)
        && (last.algorithm.IterativeElimination? ==> k == 0 || k < top)
        && (last.ending.EmptyPool? ==> SentOnce(queue, cache))
        && (!last.ending.EmptyPool? ==> |queue| > 0 && queue[|queue| - 1] == Pill && SentOnce(queue[..|queue| - 1], cache))
  {
    hide SentOnce, Space, Optimal, Running, Alike, Ended;
    last, k := Last(first.algorithm, {}, NoNext), 0;
    if first.exeSet == map[] {
      return [Pill], {}, last, k;
    }
    queue, cache, last, k := SteerFrom(first, cost, space, top);
    if !last.ending.EmptyPool? {
      PillLast(queue, cache);
      queue := queue + [Pill];
    }
  }

  /** The loop itself, and what it sends. */
  method SteerFrom(first: Generation, cost: Flags -> Cost, ghost space: seq<Spec>, ghost top: int)
    returns (queue: seq<Msg>, cache: set<Flags>, last: Last, ghost k: nat)
    requires forall f :: f in first.exeSet ==> first.exeSet[f] == NewTask(f)
    requires Running(first, cost, first.exeSet.Keys, first.exeSet.Keys, space, top, 0)
    modifies first
    ensures Alike(old(first.algorithm), last.algorithm) && old(first.exeSet.Keys) <= cache
    ensures SentOnce(queue, cache)
    ensures Ended(cost, cache, last.algorithm, last.pool, last.ending, top, k)
    ensures last.algorithm.IterativeElimination? ==> k == 0 || k < top
  {
    hide SentOnce, Space, Optimal, Running, Alike, Ended, Steered, NewPool;
    ghost var kind, pool := first.algorithm, first.exeSet.Keys;
    var waiting, inflight := [first], first.exeSet.Keys;
    last, k := Last(first.algorithm, first.exeSet.Keys, NoNext), 0;
    SteeredFromStart(first, cost, NoNext, space, top);
    var sent;
    sent, cache := Send(first.exeSet, {});
    NothingSent();
    SentOnceAll([], {}, sent);
    queue := [] + AsJobs(sent);
    while waiting != []
      invariant Steered(kind, cost, waiting, cache, inflight, last, space, top, k) && pool <= cache
      invariant SentOnce(queue, cache)
      invariant waiting == [] || waiting == [first] || (|waiting| == 1 && fresh(waiting[0]))
      decreases |Space(space) - cache|, |inflight|
    {
      SteeredWaiting(kind, cost, waiting, cache, inflight, last, space, top, k);
      var f :| f in inflight;
      var task := NewTask(f).(cost := Some(cost(f)));
      ghost var cached := cache;
      waiting, sent, cache, inflight, last, k :=
        SteerTurn(kind, cost, waiting, task, cache, inflight, last, space, top, k);
      SentOnceAll(queue, cached, sent);
      queue := queue + AsJobs(sent);
    }
    SteeredToEnd(kind, cost, waiting, cache, inflight, last, space, top, k);
    AlikeKinds(kind, last.algorithm);
  }

  lemma PillLast(queue: seq<Msg>, cache: set<Flags>)
    requires SentOnce(queue, cache)
    ensures SentOnce((queue + [Pill])[..|queue + [Pill]| - 1], cache)
  {
    assert (queue + [Pill])[..|queue|] == queue;
  }

  lemma NothingSent()
    ensures SentOnce([], {})
  {
  }

  lemma AlikeSelf(a: Algorithm)
    ensures Alike(a, a)
  {
  }

  lemma AlikeKinds(a: Algorithm, b: Algorithm)
    requires Alike(a, b)
    ensures a.IterativeElimination? <==> b.IterativeElimination?
  {
  }

  lemma AlikeTransitive(a: Algorithm, b: Algorithm, c: Algorithm)
    requires Alike(a, b) && Alike(b, c)
    ensures Alike(a, c)
    ensures a.IterativeElimination? <==> c.IterativeElimination?
    ensures b.IterativeElimination? <==> c.IterativeElimination?
    ensures b.HillClimbing? <==> c.HillClimbing?
  {
  }

  lemma RunningStart(g: Generation, cost: Flags -> Cost, space: seq<Spec>, top: int)
    requires Running(g, cost, g.exeSet.Keys, g.exeSet.Keys, space, top, 0)
    ensures g.exeSet.Keys <= Space(space) && g.exeSet.Keys != {}
  {
    var f :| f in g.exeSet;
    assert f in g.exeSet.Keys;
  }

  // ---------------------------------------------------------------- a run into the assertion

  /** One boolean flag, off at first, that pays when it is on. The first pool holds only the empty flag
      set, the second only the set with the flag; that one improves, and its one neighbour has been
      sent before. */
  lemma ClimbsIntoAssertion(cost: Flags -> Cost, flag: Spec)
    requires flag.Boolean? && cost(map[flag := 0]) < cost(map[])
    ensures var off: Flags, on: Flags := map[], map[flag := 0];
            var first := HillClimbing([flag], [], Some(NewTask(off)));
            var second := HillClimbing([flag], [NewTask(off)], Some(NewTask(on)));
            && BestImproves(cost, first, {off}) && Neighbours(off, [flag]) - {off} == {on}
            && Stranded(cost, {off, on}, second, {on})
  {
    var off: Flags, on: Flags := map[], map[flag := 0];
    assert ClimbNext(off, flag) == [on];
    assert on - {flag} == off;
    assert ClimbNext(on, flag) == [off];
    OneSpec(off, flag);
    OneSpec(on, flag);
  }

  lemma OneSpec(f: Flags, spec: Spec)
    ensures Neighbours(f, [spec]) == Elements(ClimbNext(f, spec))
  {
    NeighboursMore(f, [spec], 0);
    assert [spec][..1] == [spec];
  }
}
