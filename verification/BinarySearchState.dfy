/** The driver object of binary_search_state.py. Its methods are proved against the functions of
    module Bisection; the environment the switch scripts act on is the set of items that are at
    their bad version. */
module BisectionDriver {
  import opened Sequences
  import opened BinarySearch
  import opened Bisection

  /** The position list.index returns. */
  method IndexOf(items: seq<Item>, item: Item) returns (index: nat)
    requires item in items
    ensures index < |items| && items[index] == item && item !in items[..index]
  {
    index := 0;
    while items[index] != item
      invariant index < |items| && item !in items[..index]
      invariant item in items[index..]
      decreases |items| - index
    {
      index := index + 1;
    }
  }

  /** The items not in a set, in list order: what is left of an incremental switch. */
  method Without(items: seq<Item>, except: set<Item>) returns (rest: seq<Item>)
    ensures Elements(rest) == Elements(items) - except
    ensures rest == [] ==> Elements(items) <= except
  {
    rest := [];
    for i := 0 to |items|
      invariant Elements(rest) == Elements(items[..i]) - except
    {
      assert items[..i + 1] == items[..i] + [items[i]];
      if items[i] !in except {
        assert Elements(rest + [items[i]]) == Elements(rest) + {items[i]};
        rest := rest + [items[i]];
      }
    }
    assert items[..|items|] == items;
    forall x | x in Elements(items) && rest == [] ensures x in except {
      assert x !in Elements(rest);
    }
  }

  lemma SomeElement(items: seq<Item>)
    ensures items == [] <==> Elements(items) == {}
  {
    if items != [] {
      assert items[0] in Elements(items);
    }
  }

  /** Some enumeration of a set. */
  method ToList(items: set<Item>) returns (list: seq<Item>)
    ensures Elements(list) == items
  {
    var left := items;
    list := [];
    while left != {}
      invariant Elements(list) + left == items
      decreases left
    {
      var x :| x in left;
      list, left := list + [x], left - {x};
    }
  }

  /** One run of a switch script, with the items it is given. */
  datatype Switch = Switch(bad: bool, items: set<Item>)

  /** The run of a script, unless there is nothing to give to it. */
  function Ran(bad: bool, items: set<Item>): seq<Switch> {
    if items == {} then [] else [Switch(bad, items)]
  }

  /** The last script that was given the item has put it there. */
  ghost predicate Put(switches: seq<Switch>, x: Item, bad: bool) {
    && switches != []
    && var n := |switches| - 1;
       if x in switches[n].items then switches[n].bad == bad else Put(switches[..n], x, bad)
  }

  /** No script has been given an item that the scripts before had already put where it puts it. */
  ghost predicate Sparing(switches: seq<Switch>) {
    forall k, x :: 0 <= k < |switches| && x in switches[k].items ==> !Put(switches[..k], x, switches[k].bad)
  }

  /** The two sets say where the scripts have put each item; incremental runs are sparing. */
  ghost predicate Switched(incremental: bool, switches: seq<Switch>, good: set<Item>, bad: set<Item>) {
    && (forall x :: (x in good <==> Put(switches, x, false)) && (x in bad <==> Put(switches, x, true)))
    && (incremental ==> Sparing(switches))
  }

  lemma SwitchedMore(incremental: bool, switches: seq<Switch>, good: set<Item>, bad: set<Item>, s: Switch)
    requires Switched(incremental, switches, good, bad)
    requires incremental ==> s.items !! if s.bad then bad else good
    ensures Switched(incremental, switches + [s], if s.bad then good - s.items else good + s.items,
                     if s.bad then bad + s.items else bad - s.items)
  {
    assert (switches + [s])[..|switches|] == switches;
    if incremental {
      SparingMore(switches, s);
    }
    hide Sparing;
  }

  lemma SparingMore(switches: seq<Switch>, s: Switch)
    requires Sparing(switches) && forall x :: x in s.items ==> !Put(switches, x, s.bad)
    ensures Sparing(switches + [s])
  {
    hide Put;
    forall k, x | 0 <= k <= |switches| && x in (switches + [s])[k].items
      ensures !Put((switches + [s])[..k], x, (switches + [s])[k].bad)
    {
      assert (switches + [s])[..k] == switches[..k] && switches[..|switches|] == switches;
    }
  }

  /** list.append(list.pop(i)). */
  function MovedToEnd(items: seq<Item>, i: nat): (moved: seq<Item>)
    requires i < |items|
    ensures |moved| == |items|
  {
    items[..i] + items[i + 1..] + [items[i]]
  }

  /** The next list: the culprit at the end, and what is below it cut off unless it was the first. */
  function NextItems(items: seq<Item>, i: nat): seq<Item>
    requires i < |items|
  {
    if i != 0 then MovedToEnd(items, i)[i..] else MovedToEnd(items, i)
  }

  function NextKnown(known: set<Item>, items: seq<Item>, i: nat): set<Item>
    requires i < |items|
  {
    if i != 0 then known + Elements(MovedToEnd(items, i)[..i]) else known
  }

  /** What pruning does, said as the code does it. */
  lemma PrunedByMoving(cfg: Config, c: Core, i: nat)
    requires i < |c.items| && Distinct(c.items)
    ensures i == |c.items| - 1 ==> Pruned(cfg, c, i) == Stop(c.(found := c.found + {c.items[|c.items| - 1]}))
    ensures i < |c.items| - 1 && c.items[i] in c.found ==> Pruned(cfg, c, i) == Stop(c)
    ensures i < |c.items| - 1 && c.items[i] !in c.found ==>
        var items, known := NextItems(c.items, i), NextKnown(c.known, c.items, i);
        var c' := c.(found := c.found + {c.items[i]}, known := known);
        && items != [] && Distinct(items)
        && Elements(items) + known == Elements(c.items) + known == Elements(c.items) + c.known
        && Pruned(cfg, c, i) == if cfg.prune then Again(Populated(c', items)) else Stop(c')
  {
    if i < |c.items| - 1 && c.items[i] !in c.found {
      PopAndAppend(c.items, i);
      RotatedCover(c.items, i);
      hide Elements, Populated;
    }
  }

  class BinarySearchState {
    const cfg: Config
    var resumed: bool
    var pruneCycles: nat
    var searchCycles: nat
    var binarySearch: BinarySearcher
    var allItems: seq<Item>
    var currentlyGood: set<Item>
    var currentlyBad: set<Item>
    var foundItems: set<Item>
    var knownGood: set<Item>

    /** The environment: the items that are at their bad version. */
    var env: set<Item>

    /** The items of the run. */
    ghost const originals: set<Item>

    /** The runs of the two switch scripts so far. */
    ghost var switches: seq<Switch>

    /** The states written to the state file, and the environments the tests ran in. */
    ghost var saved: seq<Core>
    ghost var tested: seq<set<Item>>

    /** The searcher is in a live state over the item list. */
    ghost predicate Searchable()
      reads this, binarySearch
    {
      binarySearch.sortedList == allItems && Inv(binarySearch.State())
    }

    ghost function State(): Core
      requires Searchable()
      reads this, binarySearch
    {
      Core(allItems, binarySearch.State(), foundItems, knownGood, pruneCycles, searchCycles, resumed)
    }

    /** What the driver believes about the environment is true, and every item is accounted for. */
    ghost predicate Sound()
      reads this
    {
      && currentlyGood !! env && currentlyBad <= env <= originals
      && Elements(allItems) + knownGood == originals
      && Switched(cfg.incremental, switches, currentlyGood, currentlyBad)
    }

    ghost predicate Valid()
      reads this, binarySearch
    {
      Searchable() && Sound() && Ready(State())
    }

    /** A new run. The environment starts out anyhow. */
    constructor (cfg: Config, items: seq<Item>, env: set<Item>)
      requires items != [] && Distinct(items) && env <= Elements(items)
      ensures this.cfg == cfg && Valid() && fresh(binarySearch)
      ensures State() == Initial(items)
      ensures this.env == env && originals == Elements(items) && saved == [] && tested == []
    {
      this.cfg := cfg;
      resumed, pruneCycles, searchCycles := false, 0, 0;
      var searcher := new BinarySearcher();
      searcher.SetSortedList(items);
      binarySearch, allItems := searcher, items;
      currentlyGood, currentlyBad, foundItems, knownGood := {}, {}, {}, {};
      this.env := env;
      originals := Elements(items);
      saved, tested, switches := [], [], [];
      new;
      assert State() == Initial(items);
    }

    /** LoadState: resuming from a saved state, in whatever environment there is now. */
    constructor LoadState(cfg: Config, core: ReadyCore, env: set<Item>)
      requires env <= Elements(core.items) + core.known
      ensures this.cfg == cfg && Valid() && fresh(binarySearch)
      ensures State() == Loaded(core)
      ensures this.env == env && originals == Elements(core.items) + core.known
      ensures saved == [] && tested == []
    {
      this.cfg := cfg;
      resumed, pruneCycles, searchCycles := true, core.pruneCycles, core.searchCycles;
      var searcher := new BinarySearcher();
      searcher.sortedList := core.items;
      searcher.lo, searcher.hi, searcher.current := core.search.lo, core.search.hi, core.search.current;
      searcher.skippedIndices := core.search.skipped;
      searcher.indexLog, searcher.statusLog := core.search.indices, core.search.statuses;
      binarySearch, allItems := searcher, core.items;
      currentlyGood, currentlyBad := {}, {};
      foundItems, knownGood := core.found, core.known;
      this.env := env;
      originals := Elements(core.items) + core.known;
      saved, tested, switches := [], [], [];
      new;
      assert binarySearch.State() == core.search;
    }

    /** Afterwards the items are good, whether or not all of them had to be switched: an incremental
        run leaves alone what is known to be good. */
    method SwitchToGood(itemList: seq<Item>)
      requires Sound() && Elements(itemList) <= originals
      modifies this`env, this`currentlyGood, this`currentlyBad, this`switches
      ensures Sound() && env == old(env) - Elements(itemList)
      ensures currentlyGood == old(currentlyGood) + Elements(itemList)
      ensures currentlyBad == old(currentlyBad) - Elements(itemList)
      ensures switches == old(switches)
                + Ran(false, Elements(itemList) - if cfg.incremental then old(currentlyGood) else {})
    {
      hide Switched, Elements;
      var items := itemList;
      if cfg.incremental {
        items := Without(itemList, currentlyGood);
      }
      SomeElement(items);
      assert Elements(items) == Elements(itemList) - if cfg.incremental then currentlyGood else {};
      if items == [] {
        assert Elements(itemList) <= currentlyGood;
        return;
      }
      SwitchedMore(cfg.incremental, switches, currentlyGood, currentlyBad, Switch(false, Elements(items)));
      switches := switches + [Switch(false, Elements(items))];
      env := env - Elements(items);
      currentlyGood := currentlyGood + Elements(items);
      currentlyBad := currentlyBad - Elements(items);
    }

    method SwitchToBad(itemList: seq<Item>)
      requires Sound() && Elements(itemList) <= originals
      modifies this`env, this`currentlyGood, this`currentlyBad, this`switches
      ensures Sound() && env == old(env) + Elements(itemList)
      ensures currentlyBad == old(currentlyBad) + Elements(itemList)
      ensures currentlyGood == old(currentlyGood) - Elements(itemList)
      ensures switches == old(switches)
                + Ran(true, Elements(itemList) - if cfg.incremental then old(currentlyBad) else {})
    {
      hide Switched, Elements;
      var items := itemList;
      if cfg.incremental {
        items := Without(itemList, currentlyBad);
      }
      SomeElement(items);
      assert Elements(items) == Elements(itemList) - if cfg.incremental then currentlyBad else {};
      if items == [] {
        assert Elements(itemList) <= currentlyBad;
        return;
      }
      SwitchedMore(cfg.incremental, switches, currentlyGood, currentlyBad, Switch(true, Elements(items)));
      switches := switches + [Switch(true, Elements(items))];
      env := env + Elements(items);
      currentlyBad := currentlyBad + Elements(items);
      currentlyGood := currentlyGood - Elements(items);
    }

    /** The setup and test scripts, run in the current environment. */
    method RunTest() returns (status: Status)
      modifies this`tested
      ensures status == Verdict(cfg, env) && tested == old(tested) + [env]
      ensures cfg.setup(env) != GOOD ==> status == cfg.setup(env)
      ensures cfg.setup(env) == GOOD ==> status == cfg.test(env)
    {
      tested := tested + [env];
      status := cfg.setup(env);
      if status == GOOD {
        status := cfg.test(env);
      }
    }

    /** SaveState. */
    ghost method SaveState()
      requires Valid()
      modifies this`saved
      ensures saved == old(saved) + [State()]
    {
      saved := saved + [State()];
    }

    method GetNextItems() returns (nextBad: seq<Item>, nextGood: seq<Item>)
      requires Valid() && |allItems| > 1
      modifies binarySearch`current
      ensures Searchable() && binarySearch.State() == Asked(old(binarySearch.State()))
      ensures 0 <= binarySearch.current < |allItems|
      ensures nextBad == allItems[..binarySearch.current + 1]
      ensures Elements(nextGood) == Elements(allItems[binarySearch.current + 1..]) + knownGood
      ensures Elements(nextBad) == Prefix(allItems, binarySearch.current)
      ensures Elements(nextBad) + Elements(nextGood) == originals
      ensures Distinct(allItems) && Elements(allItems) !! knownGood ==> Elements(nextBad) !! Elements(nextGood)
    {
      Unfinished(binarySearch.State());
      var borderItem := binarySearch.GetNext();
      var index := IndexOf(allItems, borderItem);
      nextBad := allItems[..index + 1];
      var known := ToList(knownGood);
      nextGood := allItems[index + 1..] + known;
      assert allItems == nextBad + allItems[index + 1..];
      assert Elements(nextGood) == Elements(allItems[index + 1..]) + knownGood;
    }

    /** Asks for an index, switches its prefix to bad and everything else to good, and tests. The
        test finds exactly the prefix at its bad version, however the environment was before. */
    method TestNext() returns (status: Status)
      requires Valid() && |allItems| > 1
      modifies this`env, this`currentlyGood, this`currentlyBad, this`switches, this`tested, binarySearch`current
      ensures Searchable() && Sound()
      ensures binarySearch.State() == Asked(old(binarySearch.State()))
      ensures status == Answers(cfg, allItems)(binarySearch.current)
      ensures tested == old(tested) + [Prefix(allItems, binarySearch.current)]
    {
      hide Inv, Ready, Asked, NextIndex, Switched, Prefix, Verdict, Elements, Distinct;
      var badItems, goodItems := GetNextItems();
      SwitchOver(badItems, goodItems);
      status := RunTest();
    }

    /** All items are switched: to good first. */
    method SwitchOver(badItems: seq<Item>, goodItems: seq<Item>)
      requires Sound() && Elements(badItems) + Elements(goodItems) == originals
      modifies this`env, this`currentlyGood, this`currentlyBad, this`switches
      ensures Sound() && env == Elements(badItems)
      ensures var good, bad := Elements(goodItems), Elements(badItems);
              switches == old(switches)
                + Ran(false, good - if cfg.incremental then old(currentlyGood) else {})
                + Ran(true, bad - if cfg.incremental then old(currentlyBad) - good else {})
    {
      hide Switched, Ran, Elements;
      SwitchToGood(goodItems);
      SwitchToBad(badItems);
    }

    /** One turn of the search loop: save, test, answer. */
    method DoTurn() returns (terminated: bool)
      requires Valid() && |allItems| > 1 && !resumed
      modifies this`searchCycles, this`env, this`currentlyGood, this`currentlyBad, this`switches
      modifies this`saved, this`tested, binarySearch
      ensures Searchable() && Sound()
      ensures State() == old(State()).(search := Turn(old(binarySearch.State()), Answers(cfg, allItems)),
                                       searchCycles := old(searchCycles) + 1)
      ensures terminated <==> Finished(binarySearch.State())
      ensures saved == old(saved) + [old(State())]
      ensures tested == old(tested) + [TestedAt(old(State()))]
    {
      ghost var before := binarySearch.State();
      SaveState();
      searchCycles := searchCycles + 1;
      Unfinished(before);
      StepKeepsInv(before, Answers(cfg, allItems)(NextIndex(before)));
      ghost var after := Turn(before, Answers(cfg, allItems));
      var status := TestNext();
      assert 0 <= binarySearch.current < |binarySearch.sortedList|;
      hide Inv, Answers, Ready, NextIndex, Prefix;
      terminated := binarySearch.SetStatus(status);
      assert binarySearch.State() == after;
    }

    /** A resumed search keeps its cycle count. */
    method EnterSearch()
      requires Valid()
      modifies this`resumed, this`searchCycles
      ensures Valid() && State() == Checkpoint(old(State()), old(binarySearch.State()), 0)
    {
      if !resumed {
        searchCycles := 0;
      } else {
        resumed := false;
      }
    }

    /** The loop of DoBinarySearchBadItems, begun in `start`: it stands at `now`, or has terminated. */
    ghost predicate Searching(start: ReadyCore, now: ReadyCore, saves: seq<Core>, terminated: bool)
      reads this, binarySearch
    {
      && Searchable() && Sound() && |allItems| > 1
      && if terminated then
           State() == SearchPhase(cfg, start) && saves == PhaseCheckpoints(cfg, start)
           && Finished(binarySearch.State())
         else
           State() == Checkpoint(now, now.search, 0) && Midway(cfg, start, now, saves)
    }

    /** One turn of that loop. */
    method SearchTurn(ghost start: ReadyCore, ghost now: ReadyCore, ghost saves: seq<Core>)
      returns (terminated: bool, ghost now': ReadyCore)
      requires Searching(start, now, saves, false) && searchCycles < cfg.iterations
      modifies this`searchCycles, this`env, this`currentlyGood, this`currentlyBad, this`switches
      modifies this`saved, this`tested, binarySearch
      ensures searchCycles == old(searchCycles) + 1
      ensures var top := old(State());
              && Searching(start, now', saves + [top], terminated)
              && Recorded(old(saved), old(tested), saved, tested, [top])
    {
      CheckpointReady(now, 0);
      NextTurnIs(cfg, now);
      ghost var next := NextTurn(cfg, now);
      hide SearchPhase, PhaseCheckpoints, Answers, Inv, TestedAt, NextTurn, Midway;
      MidwayTurn(cfg, start, now, saves);
      terminated := DoTurn();
      assert State() == next;
      assert TestedSets([old(State())]) == [TestedAt(old(State()))];
      now' := if terminated then now else Loaded(next);
    }

    /** DoBinarySearchBadItems. */
    method DoBinarySearchBadItems() returns (terminated: bool)
      requires Valid() && |allItems| > 1
      modifies this`resumed, this`searchCycles, this`env, this`currentlyGood, this`currentlyBad, this`switches
      modifies this`saved, this`tested, binarySearch
      ensures Searchable() && Sound()
      ensures State() == SearchPhase(cfg, old(State()))
      ensures terminated <==> Finished(binarySearch.State())
      ensures Recorded(old(saved), old(tested), saved, tested, PhaseCheckpoints(cfg, old(State())))
    {
      ghost var start: ReadyCore := State();
      ghost var now: ReadyCore, saves: seq<Core> := start, [];
      EnterSearch();
      MidwayStart(cfg, start);
      terminated := false;
      assert Recorded(saved, tested, saved, tested, []);
      hide SearchPhase, PhaseCheckpoints, Inv, TestedAt, Midway, Ready, Recorded, TestedSets;
      while searchCycles < cfg.iterations && !terminated
        invariant Searching(start, now, saves, terminated)
        invariant Recorded(old(saved), old(tested), saved, tested, saves)
        decreases cfg.iterations - searchCycles
      {
        CheckpointReady(now, 0);
        ghost var top := State();
        ghost var saved0, tested0 := saved, tested;
        terminated, now := SearchTurn(start, now, saves);
        RecordedTwice(old(saved), old(tested), saved0, tested0, saved, tested, saves, [top]);
        saves := saves + [top];
      }
      if !terminated {
        MidwayOver(cfg, start, now, saves);
      }
    }

    /** PopulateItemsUsingList: a new searcher over a new list. */
    method PopulateItemsUsingList(items: seq<Item>)
      requires items != [] && Distinct(items) && Sound() && Elements(items) + knownGood == originals
      requires Searchable()
      modifies this`allItems, this`binarySearch
      ensures Valid() && fresh(binarySearch) && State() == Populated(old(State()), items)
    {
      hide Ready, Inv, Finished, Populated, Elements, Distinct, Switched;
      PopulatedReady(State(), items);
      ghost var target := Populated(State(), items);
      var searcher := new BinarySearcher();
      searcher.SetSortedList(items);
      allItems, binarySearch := items, searcher;
      assert State() == target;
    }

    /** The driver stands where the turn of the loop says, and goes round again if it says so. */
    ghost predicate Reached(r: CycleResult, goOn: bool)
      reads this, binarySearch
    {
      match r
      case Stop(c) => !goOn && Searchable() && State() == c
      case Again(c) => goOn && Valid() && State() == c
    }

    /** The rest of a turn of DoSearchBadItems, once its search has terminated. */
    method PruneFound() returns (goOn: bool)
      requires Searchable() && Sound() && Distinct(State().items)
      modifies this`foundItems, this`knownGood, this`allItems, this`binarySearch
      ensures Sound() && (binarySearch == old(binarySearch) || fresh(binarySearch))
      ensures Reached(Pruned(cfg, old(State()), old(binarySearch.current)), goOn)
      ensures pruneCycles == old(pruneCycles)
    {
      var pruneIndex := binarySearch.current;
      PrunedByMoving(cfg, State(), pruneIndex);
      hide Pruned, Populated, Rotated, Elements, Distinct, Ready, Inv;
      if pruneIndex == |allItems| - 1 {
        foundItems := foundItems + {allItems[|allItems| - 1]};
        return false;
      }
      if allItems[pruneIndex] in foundItems {
        return false;
      }
      goOn := PruneAt(pruneIndex);
    }

    /** A culprit found for the first time, with items beyond it. */
    method PruneAt(pruneIndex: nat) returns (goOn: bool)
      requires Searchable() && Sound() && Distinct(State().items)
      requires pruneIndex < |allItems| - 1 && allItems[pruneIndex] !in foundItems
      modifies this`foundItems, this`knownGood, this`allItems, this`binarySearch
      ensures Sound() && (binarySearch == old(binarySearch) || fresh(binarySearch))
      ensures Reached(Pruned(cfg, old(State()), pruneIndex), goOn)
      ensures pruneCycles == old(pruneCycles)
    {
      PrunedByMoving(cfg, State(), pruneIndex);
      hide Pruned, Populated, Rotated, Elements, Distinct, Ready, Inv, Finished, NextItems, NextKnown;
      var newAllItems := MoveCulprit(pruneIndex);
      if cfg.prune {
        PopulateItemsUsingList(newAllItems);
      }
      goOn := cfg.prune;
    }

    /** Puts the culprit among the found items and what is below it among the known good ones. The result
        is the next list. */
    method MoveCulprit(pruneIndex: nat) returns (newAllItems: seq<Item>)
      requires pruneIndex < |allItems|
      modifies this`foundItems, this`knownGood
      ensures newAllItems == NextItems(allItems, pruneIndex)
      ensures foundItems == old(foundItems) + {allItems[pruneIndex]}
      ensures knownGood == NextKnown(old(knownGood), allItems, pruneIndex)
    {
      newAllItems := MovedToEnd(allItems, pruneIndex);
      foundItems := foundItems + {allItems[pruneIndex]};
      if pruneIndex != 0 {
        knownGood := knownGood + Elements(newAllItems[..pruneIndex]);
        newAllItems := newAllItems[pruneIndex..];
      }
    }

    /** One turn of the loop of DoSearchBadItems. */
    method DoCycle() returns (goOn: bool)
      requires Valid() && Going(cfg, State())
      modifies this, binarySearch
      ensures Sound() && (binarySearch == old(binarySearch) || fresh(binarySearch))
      ensures Reached(Cycle(cfg, old(State())), goOn) && pruneCycles == old(pruneCycles) + 1
      ensures Recorded(old(saved), old(tested), saved, tested, PhaseCheckpoints(cfg, old(State())))
    {
      ghost var start: ReadyCore := State();
      CycleCases(cfg, start);
      assert Distinct(start.items);
      hide SearchPhase, PhaseCheckpoints, Recorded, Inv, Ready, Cycle, Pruned, Finished, Distinct, Elements, Switched;
      var terminated := DoBinarySearchBadItems();
      pruneCycles := pruneCycles + 1;
      ghost var searched := State();
      if !terminated {
        return false;
      }
      hide Reached;
      goOn := PruneFound();
    }

    /** DoSearchBadItems: the whole run, with every state it saves and every environment it tests. */
    method DoSearchBadItems()
      requires Valid()
      modifies this, binarySearch
      ensures Searchable() && Sound()
      ensures State() == SearchAll(cfg, old(State()))
      ensures Recorded(old(saved), old(tested), saved, tested, Checkpoints(cfg, old(State())))
    {
      ghost var start: ReadyCore := State();
      ghost var now: ReadyCore, saves: seq<Core> := start, [];
      MidRunStart(cfg, start);
      assert Recorded(saved, tested, saved, tested, []);
      hide SearchAll, Checkpoints, PhaseCheckpoints, Recorded, MidRun, Ready, Inv, Cycle;
      var goOn := true;
      while goOn && |allItems| > 1 && pruneCycles < cfg.pruneIterations
        invariant Sound() && Searchable() && (binarySearch == old(binarySearch) || fresh(binarySearch))
        invariant goOn ==> Valid() && State() == now && MidRun(cfg, start, now, saves)
        invariant !goOn ==> State() == SearchAll(cfg, start) && saves == Checkpoints(cfg, start)
        invariant Recorded(old(saved), old(tested), saved, tested, saves)
        decreases goOn, cfg.pruneIterations - pruneCycles
      {
        ghost var saved0, tested0 := saved, tested;
        MidRunCycle(cfg, start, now, saves);
        goOn := DoCycle();
        RecordedTwice(old(saved), old(tested), saved0, tested0, saved, tested, saves, PhaseCheckpoints(cfg, now));
        saves := saves + PhaseCheckpoints(cfg, now);
        if goOn {
          now := Cycle(cfg, now).next;
        }
      }
      if goOn {
        MidRunOver(cfg, start, now, saves);
      }
    }

    /** DoVerify. The result says whether its assertions hold; a failed one ends the program. */
    method DoVerify() returns (ok: bool)
      requires Valid() && knownGood == {}
      modifies this`env, this`currentlyGood, this`currentlyBad, this`switches, this`tested
      ensures Valid() && State() == old(State())
      ensures ok <==> !cfg.verify || VerifyPasses(cfg, allItems)
      ensures ok ==> tested == old(tested) + if cfg.verify then [{}, Elements(allItems)] else []
    {
      if !cfg.verify {
        return true;
      }
      SwitchToGood(allItems);
      assert env == {};
      var status := RunTest();
      if status != GOOD {
        return false;
      }
      SwitchToBad(allItems);
      assert env == Elements(allItems);
      status := RunTest();
      ok := status == BAD;
    }
  }

  /** Run, without --resume: verification, then the search. */
  method Run(cfg: Config, items: seq<Item>, env: set<Item>) returns (bss: BinarySearchState, ok: bool)
    requires items != [] && Distinct(items) && env <= Elements(items)
    ensures ok <==> !cfg.verify || VerifyPasses(cfg, items)
    ensures cfg.incremental ==> Sparing(bss.switches)
    ensures ok ==>
        && bss.Searchable() && bss.State() == SearchAll(cfg, Initial(items))
        && Recorded([], if cfg.verify then [{}, Elements(items)] else [], bss.saved, bss.tested,
                    Checkpoints(cfg, Initial(items)))
  {
    hide SearchAll, Checkpoints, Recorded, Ready, Inv, VerifyPasses;
    bss := new BinarySearchState(cfg, items, env);
    ok := bss.DoVerify();
    if ok {
      assert bss.tested == if cfg.verify then [{}, Elements(items)] else [];
      bss.DoSearchBadItems();
    }
  }

  /** Run with --resume: no verification, and whatever environment the crash left. */
  method RunResumed(cfg: Config, core: ReadyCore, env: set<Item>) returns (bss: BinarySearchState)
    requires env <= Elements(core.items) + core.known
    ensures bss.Searchable() && bss.State() == SearchAll(cfg, Loaded(core))
    ensures cfg.incremental ==> Sparing(bss.switches)
    ensures Recorded([], [], bss.saved, bss.tested, Checkpoints(cfg, Loaded(core)))
  {
    hide SearchAll, Checkpoints, Recorded, Ready, Inv;
    bss := new BinarySearchState.LoadState(cfg, core, env);
    bss.DoSearchBadItems();
  }
}
