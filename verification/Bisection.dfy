/** The bisection driver of binary_search_state.py as values: what one search, one prune cycle and
    a whole run do to the driver's state, and which states a run saves on the way. The methods of
    class BinarySearchState are proved against these functions. */
module Bisection {
  import opened Sequences
  import opened BinarySearch

  /** The options of a run. `setup` and `test` are the two scripts, as functions of the set of
      items that are at their bad version when they run. */
  datatype Config = Config(
    incremental: bool,
    prune: bool,
    verify: bool,
    iterations: nat,
    pruneIterations: nat,
    setup: set<Item> -> Status,
    test: set<Item> -> Status)

  /** What SaveState pickles, but for the two currently_* sets that LoadState empties. */
  datatype Core = Core(
    items: seq<Item>,
    search: Live,
    found: set<Item>,
    known: set<Item>,
    pruneCycles: nat,
    searchCycles: nat,
    resumed: bool)

  datatype CycleResult = Stop(last: Core) | Again(next: ReadyCore)

  /** The status of one test: the test script only runs when the setup script succeeds. */
  function Verdict(cfg: Config, bad: set<Item>): Status {
    if cfg.setup(bad) != GOOD then cfg.setup(bad) else cfg.test(bad)
  }

  /** DoVerify: all items good must test good, and all items bad must test bad. */
  predicate VerifyPasses(cfg: Config, items: seq<Item>) {
    Verdict(cfg, {}) == GOOD && Verdict(cfg, Elements(items)) == BAD
  }

  /** The items switched to bad to test index i. */
  function Prefix(items: seq<Item>, i: int): set<Item> {
    if 0 <= i < |items| then Elements(items[..i + 1]) else {}
  }

  function Answers(cfg: Config, items: seq<Item>): int -> Status {
    i => Verdict(cfg, Prefix(items, i))
  }

  /** The searcher belongs to the items and has not finished, except for a single item. */
  ghost predicate Ready(c: Core) {
    && c.items != [] && Distinct(c.items)
    && c.search.n == |c.items|
    && (|c.items| > 1 ==> !Finished(c.search))
  }

  /** The driver's state between searches and at the top of every turn of a search. */
  type ReadyCore = c: Core | Ready(c) witness Core([Item("")], Start(1), {}, {}, 0, 0, false)

  function CyclesSoFar(c: Core): nat {
    if c.resumed then c.searchCycles else 0
  }

  function Budget(cfg: Config, c: Core): nat {
    if CyclesSoFar(c) < cfg.iterations then cfg.iterations - CyclesSoFar(c) else 0
  }

  /** DoBinarySearchBadItems. */
  function SearchPhase(cfg: Config, c: ReadyCore): (r: Core)
    ensures r.search.n == |c.items|
  {
    var s := Drive(c.search, Answers(cfg, c.items), Budget(cfg, c));
    c.(search := s, searchCycles := CyclesSoFar(c) + |s.indices| - |c.search.indices|, resumed := false)
  }

  function Populated(c: Core, items: seq<Item>): (r: ReadyCore)
    requires items != [] && Distinct(items)
  {
    if |items| > 1 then
      FreshUnfinished(|items|);
      c.(items := items, search := Start(|items|))
    else c.(items := items, search := Start(|items|))
  }

  /** The state a run starts from. */
  function Initial(items: seq<Item>): (c: ReadyCore)
    requires items != [] && Distinct(items)
  {
    Populated(Core([Item("")], Start(1), {}, {}, 0, 0, false), items)
  }

  lemma PopulatedReady(c: Core, items: seq<Item>)
    requires items != [] && Distinct(items)
    ensures Populated(c, items) == c.(items := items, search := Start(|items|))
    ensures Ready(Populated(c, items))
  {
  }

  /** The list after the culprit at index i has moved to the end and everything below it is gone. */
  function Rotated(items: seq<Item>, i: nat): (r: seq<Item>)
    requires i < |items|
    ensures r != [] && (Distinct(items) ==> Distinct(r))
  {
    items[i + 1..] + [items[i]]
  }

  /** What DoSearchBadItems does with the culprit found at index i of the list. */
  function Pruned(cfg: Config, c: Core, i: nat): CycleResult
    requires i < |c.items| && Distinct(c.items)
  {
    if i == |c.items| - 1 then Stop(c.(found := c.found + {c.items[i]}))
    else if c.items[i] in c.found then Stop(c)
    else
      var c' := c.(found := c.found + {c.items[i]}, known := c.known + Elements(c.items[..i]));
      if cfg.prune then Again(Populated(c', Rotated(c.items, i))) else Stop(c')
  }

  /** One turn of the loop of DoSearchBadItems. */
  function Cycle(cfg: Config, c: ReadyCore): (r: CycleResult)
    ensures r.Again? ==> r.next.pruneCycles == c.pruneCycles + 1
  {
    var searched := SearchPhase(cfg, c).(pruneCycles := c.pruneCycles + 1);
    if !Finished(searched.search) then Stop(searched)
    else Pruned(cfg, searched, searched.search.current)
  }

  /** A cycle is its search, then the pruning of what the search found. */
  lemma CycleCases(cfg: Config, c: ReadyCore)
    ensures var searched := SearchPhase(cfg, c).(pruneCycles := c.pruneCycles + 1);
            && searched.items == c.items && searched.found == c.found && searched.known == c.known
            && !searched.resumed
            && Cycle(cfg, c) == if Finished(searched.search) then Pruned(cfg, searched, searched.search.current)
                                else Stop(searched)
  {
  }

  predicate Going(cfg: Config, c: Core) {
    |c.items| > 1 && c.pruneCycles < cfg.pruneIterations
  }

  /** DoSearchBadItems. */
  function SearchAll(cfg: Config, c: ReadyCore): Core
    decreases cfg.pruneIterations - c.pruneCycles
  {
    if !Going(cfg, c) then c
    else
      match Cycle(cfg, c)
      case Stop(c') => c'
      case Again(c') => SearchAll(cfg, c')
  }

  /** The state at the top of turn j of the current search. */
  function Checkpoint(c: Core, top: Live, j: nat): Core {
    c.(search := top, searchCycles := CyclesSoFar(c) + j, resumed := false)
  }

  lemma CheckpointReady(c: ReadyCore, j: nat)
    ensures Ready(Checkpoint(c, c.search, j))
  {
  }

  function PhaseTops(cfg: Config, c: ReadyCore): seq<Live> {
    Tops(c.search, Answers(cfg, c.items), Budget(cfg, c))
  }

  /** The states one search saves. */
  function PhaseCheckpoints(cfg: Config, c: ReadyCore): (cps: seq<ReadyCore>) {
    var tops := PhaseTops(cfg, c);
    seq(|tops|, j requires 0 <= j < |tops| => Checkpoint(c, tops[j], j))
  }

  /** The states a run saves, in order. */
  function Checkpoints(cfg: Config, c: ReadyCore): seq<ReadyCore>
    decreases cfg.pruneIterations - c.pruneCycles
  {
    if !Going(cfg, c) then []
    else
      PhaseCheckpoints(cfg, c)
      + match Cycle(cfg, c)
        case Stop(_) => []
        case Again(c') => Checkpoints(cfg, c')
  }

  /** The items at their bad version when the test that follows a checkpoint runs. */
  ghost function TestedAt(c: Core): set<Item> {
    if !Finished(c.search) then
      Unfinished(c.search);
      Prefix(c.items, NextIndex(c.search))
    else {}
  }

  ghost function TestedSets(cps: seq<Core>): seq<set<Item>> {
    seq(|cps|, j requires 0 <= j < |cps| => TestedAt(cps[j]))
  }

  /** The record of a run in progress: the states saved and environments tested since it stood at
      `saved` and `tested`. */
  ghost predicate Recorded(saved: seq<Core>, tested: seq<set<Item>>, saved': seq<Core>, tested': seq<set<Item>>, saves: seq<Core>) {
    saved' == saved + saves && tested' == tested + TestedSets(saves)
  }

  lemma RecordedTwice(
    saved0: seq<Core>, tested0: seq<set<Item>>, saved1: seq<Core>, tested1: seq<set<Item>>,
    saved2: seq<Core>, tested2: seq<set<Item>>, saves: seq<Core>, more: seq<Core>)
    requires Recorded(saved0, tested0, saved1, tested1, saves)
    requires Recorded(saved1, tested1, saved2, tested2, more)
    ensures Recorded(saved0, tested0, saved2, tested2, saves + more)
  {
    assert TestedSets(saves + more) == TestedSets(saves) + TestedSets(more);
  }

  // ---------------------------------------------------------------- resuming

  /** LoadState: everything is as saved, and the next search keeps its cycle count. */
  function Loaded(saved: ReadyCore): ReadyCore {
    saved.(resumed := true)
  }

  lemma PhaseCheckpointAt(cfg: Config, c: ReadyCore, j: nat)
    ensures |PhaseCheckpoints(cfg, c)| == |PhaseTops(cfg, c)|
    ensures j < |PhaseCheckpoints(cfg, c)| ==> PhaseCheckpoints(cfg, c)[j] == Checkpoint(c, PhaseTops(cfg, c)[j], j)
  {
  }

  /** Resuming inside a search repeats the rest of that search ... */
  lemma ResumePhase(cfg: Config, c: ReadyCore, j: nat)
    requires j < |PhaseCheckpoints(cfg, c)|
    ensures var saved := PhaseCheckpoints(cfg, c)[j];
            && saved.pruneCycles == c.pruneCycles && saved.items == c.items
            && SearchPhase(cfg, Loaded(saved)) == SearchPhase(cfg, c)
  {
    hide PhaseCheckpoints, Drive, Tops, Answers, Ready, Inv, Finished;
    PhaseCheckpointAt(cfg, c, j);
    DriveFrom(c.search, Answers(cfg, c.items), Budget(cfg, c), j);
  }

  lemma ResumeCycle(cfg: Config, c: ReadyCore, j: nat)
    requires j < |PhaseCheckpoints(cfg, c)|
    ensures var saved := PhaseCheckpoints(cfg, c)[j];
            saved.pruneCycles == c.pruneCycles && saved.items == c.items
            && Cycle(cfg, Loaded(saved)) == Cycle(cfg, c)
  {
    hide PhaseCheckpoints, SearchPhase, Pruned, Ready, Inv, Finished, Cycle;
    ResumePhase(cfg, c, j);
    CycleCases(cfg, c);
    CycleCases(cfg, Loaded(PhaseCheckpoints(cfg, c)[j]));
  }

  /** ... and saves the same later states. */
  lemma ResumeCheckpoints(cfg: Config, c: ReadyCore, j: nat, k: nat)
    requires j + k < |PhaseCheckpoints(cfg, c)|
    ensures var saved := PhaseCheckpoints(cfg, c)[j];
            var again := PhaseCheckpoints(cfg, Loaded(saved));
            && |again| == |PhaseCheckpoints(cfg, c)| - j
            && again[k] == PhaseCheckpoints(cfg, c)[j + k]
  {
    hide PhaseCheckpoints, Tops, Drive, Answers, Ready, Inv, Finished;
    PhaseCheckpointAt(cfg, c, j);
    PhaseCheckpointAt(cfg, c, j + k);
    DriveFrom(c.search, Answers(cfg, c.items), Budget(cfg, c), j);
    TopsFrom(c.search, Answers(cfg, c.items), Budget(cfg, c), j, k);
    PhaseCheckpointAt(cfg, Loaded(PhaseCheckpoints(cfg, c)[j]), k);
  }

  /** How many states a run saves in the cycles after the first. */
  function LaterCount(cfg: Config, c: ReadyCore): nat
    requires Going(cfg, c)
  {
    match Cycle(cfg, c)
    case Stop(_) => 0
    case Again(c') => |Checkpoints(cfg, c')|
  }

  lemma CheckpointAt(cfg: Config, c: ReadyCore, j: nat)
    requires j < |Checkpoints(cfg, c)|
    ensures Going(cfg, c)
    ensures |Checkpoints(cfg, c)| == |PhaseCheckpoints(cfg, c)| + LaterCount(cfg, c)
    ensures j < |PhaseCheckpoints(cfg, c)| ==> Checkpoints(cfg, c)[j] == PhaseCheckpoints(cfg, c)[j]
    ensures j >= |PhaseCheckpoints(cfg, c)| ==>
        var later := j - |PhaseCheckpoints(cfg, c)|;
        && Cycle(cfg, c).Again?
        && later < |Checkpoints(cfg, Cycle(cfg, c).next)|
        && Checkpoints(cfg, c)[j] == Checkpoints(cfg, Cycle(cfg, c).next)[later]
  {
    hide PhaseCheckpoints, Cycle, Ready, Inv;
  }

  /** The state after one turn of a search, the first of which saves and tests in state c. */
  function NextTurn(cfg: Config, c: ReadyCore): Core
    requires |c.items| > 1
  {
    Checkpoint(c, Turn(c.search, Answers(cfg, c.items)), 1)
  }

  lemma NextTurnIs(cfg: Config, c: ReadyCore)
    requires |c.items| > 1
    ensures var top := Checkpoint(c, c.search, 0);
            NextTurn(cfg, c) == top.(search := Turn(c.search, Answers(cfg, c.items)), searchCycles := top.searchCycles + 1)
  {
  }

  lemma PhaseTurn(cfg: Config, c: ReadyCore)
    requires |c.items| > 1 && Budget(cfg, c) > 0
    ensures var next := NextTurn(cfg, c);
            && |PhaseCheckpoints(cfg, c)| > 0 && PhaseCheckpoints(cfg, c)[0] == Checkpoint(c, c.search, 0)
            && if Finished(next.search) then SearchPhase(cfg, c) == next && |PhaseCheckpoints(cfg, c)| == 1
               else Ready(next) && SearchPhase(cfg, c) == SearchPhase(cfg, Loaded(next))
  {
    var next := NextTurn(cfg, c);
    hide Answers, Inv, Turn;
    PhaseCheckpointAt(cfg, c, 0);
    if !Finished(next.search) {
      assert Budget(cfg, Loaded(next)) == Budget(cfg, c) - 1;
    }
  }

  /** The later turns of a search are the turns from its second one on. */
  lemma NextTops(cfg: Config, c: ReadyCore, k: nat)
    requires |c.items| > 1 && Budget(cfg, c) > 0
    requires !Finished(NextTurn(cfg, c).search) && Ready(NextTurn(cfg, c))
    ensures var later := PhaseTops(cfg, Loaded(NextTurn(cfg, c)));
            && |PhaseTops(cfg, c)| == |later| + 1
            && (k < |later| ==> PhaseTops(cfg, c)[k + 1] == later[k])
  {
    assert !Finished(c.search);
    hide Answers, Inv, Turn, Ready, Finished, Tops;
    assert Budget(cfg, Loaded(NextTurn(cfg, c))) == Budget(cfg, c) - 1;
    TopsNext(c.search, Answers(cfg, c.items), Budget(cfg, c), k);
  }

  lemma SameCheckpoint(cfg: Config, c: ReadyCore, top: Live, k: nat)
    requires |c.items| > 1 && Ready(NextTurn(cfg, c))
    ensures Checkpoint(c, top, k + 1) == Checkpoint(Loaded(NextTurn(cfg, c)), top, k)
  {
    hide Answers, Inv, Turn, Ready;
  }

  lemma PhaseTurnCheckpoints(cfg: Config, c: ReadyCore, k: nat)
    requires |c.items| > 1 && Budget(cfg, c) > 0
    requires !Finished(NextTurn(cfg, c).search)
    ensures var next := NextTurn(cfg, c);
            && Ready(next)
            && |PhaseCheckpoints(cfg, c)| == |PhaseCheckpoints(cfg, Loaded(next))| + 1
            && (k < |PhaseCheckpoints(cfg, Loaded(next))| ==>
                  PhaseCheckpoints(cfg, c)[k + 1] == PhaseCheckpoints(cfg, Loaded(next))[k])
  {
    hide *;
    PhaseTurn(cfg, c);
    var later: ReadyCore := Loaded(NextTurn(cfg, c));
    NextTops(cfg, c, k);
    PhaseCheckpointAt(cfg, c, k + 1);
    PhaseCheckpointAt(cfg, later, k);
    if k < |PhaseTops(cfg, later)| {
      SameCheckpoint(cfg, c, PhaseTops(cfg, later)[k], k);
    }
  }

  lemma PhaseTurnSplit(cfg: Config, c: ReadyCore)
    requires |c.items| > 1 && Budget(cfg, c) > 0
    requires !Finished(NextTurn(cfg, c).search)
    ensures Ready(NextTurn(cfg, c))
    ensures PhaseCheckpoints(cfg, c)
            == [Checkpoint(c, c.search, 0)] + PhaseCheckpoints(cfg, Loaded(NextTurn(cfg, c)))
  {
    PhaseTurn(cfg, c);
    hide NextTurn, PhaseCheckpoints, Loaded, Ready, Inv;
    var later := PhaseCheckpoints(cfg, Loaded(NextTurn(cfg, c)));
    PhaseTurnCheckpoints(cfg, c, 0);
    forall k | 0 <= k < |later| ensures PhaseCheckpoints(cfg, c)[k + 1] == later[k] {
      PhaseTurnCheckpoints(cfg, c, k);
    }
    Prepend(PhaseCheckpoints(cfg, c), Checkpoint(c, c.search, 0), later);
  }

  /** Midway through the search that began in `start`: it has saved `saves` and stands at `now`. */
  ghost predicate Midway(cfg: Config, start: ReadyCore, now: ReadyCore, saves: seq<Core>) {
    && SearchPhase(cfg, now) == SearchPhase(cfg, start)
    && saves + PhaseCheckpoints(cfg, now) == PhaseCheckpoints(cfg, start)
  }

  lemma MidwayStart(cfg: Config, start: ReadyCore)
    ensures Midway(cfg, start, start, [])
  {
    hide PhaseCheckpoints, SearchPhase;
  }

  lemma MidwayOver(cfg: Config, start: ReadyCore, now: ReadyCore, saves: seq<Core>)
    requires Midway(cfg, start, now, saves) && |now.items| > 1 && Budget(cfg, now) == 0
    ensures SearchPhase(cfg, start) == Checkpoint(now, now.search, 0)
    ensures PhaseCheckpoints(cfg, start) == saves
    ensures !Finished(now.search)
  {
    hide Inv;
    assert PhaseCheckpoints(cfg, now) == [];
  }

  lemma MidwayTurn(cfg: Config, start: ReadyCore, now: ReadyCore, saves: seq<Core>)
    requires Midway(cfg, start, now, saves) && |now.items| > 1 && Budget(cfg, now) > 0
    ensures var next, saves' := NextTurn(cfg, now), saves + [Checkpoint(now, now.search, 0)];
            if Finished(next.search) then
              SearchPhase(cfg, start) == next && PhaseCheckpoints(cfg, start) == saves'
            else Ready(next) && Midway(cfg, start, Loaded(next), saves')
  {
    hide SearchPhase, PhaseCheckpoints, NextTurn, Ready, Inv, Loaded;
    PhaseTurn(cfg, now);
    if Finished(NextTurn(cfg, now).search) {
      assert PhaseCheckpoints(cfg, now) == [Checkpoint(now, now.search, 0)];
    } else {
      PhaseTurnSplit(cfg, now);
    }
  }

  /** Midway through the run that began in `start`: it has saved `saves` and stands at `now`. */
  ghost predicate MidRun(cfg: Config, start: ReadyCore, now: ReadyCore, saves: seq<Core>) {
    && SearchAll(cfg, now) == SearchAll(cfg, start)
    && saves + Checkpoints(cfg, now) == Checkpoints(cfg, start)
  }

  lemma MidRunStart(cfg: Config, start: ReadyCore)
    ensures MidRun(cfg, start, start, [])
  {
    hide SearchAll, Checkpoints;
  }

  lemma MidRunCycle(cfg: Config, start: ReadyCore, now: ReadyCore, saves: seq<Core>)
    requires MidRun(cfg, start, now, saves) && Going(cfg, now)
    ensures Cycle(cfg, now).Stop? ==>
        && SearchAll(cfg, start) == Cycle(cfg, now).last
        && Checkpoints(cfg, start) == saves + PhaseCheckpoints(cfg, now)
    ensures Cycle(cfg, now).Again? ==>
        MidRun(cfg, start, Cycle(cfg, now).next, saves + PhaseCheckpoints(cfg, now))
  {
    hide Cycle, PhaseCheckpoints, Ready, Inv;
  }

  lemma MidRunOver(cfg: Config, start: ReadyCore, now: ReadyCore, saves: seq<Core>)
    requires MidRun(cfg, start, now, saves) && !Going(cfg, now)
    ensures SearchAll(cfg, start) == now && Checkpoints(cfg, start) == saves
  {
    assert Checkpoints(cfg, now) == [];
  }

  /** Resume equivalence: a run resumed from any state it saved ends as the uninterrupted run does. */
  lemma {:induction false} Resume(cfg: Config, c: ReadyCore, j: nat)
    requires j < |Checkpoints(cfg, c)|
    ensures SearchAll(cfg, Loaded(Checkpoints(cfg, c)[j])) == SearchAll(cfg, c)
    decreases cfg.pruneIterations - c.pruneCycles
  {
    hide Checkpoints, PhaseCheckpoints, Cycle, Ready, Inv;
    CheckpointAt(cfg, c, j);
    if j < |PhaseCheckpoints(cfg, c)| {
      ResumeCycle(cfg, c, j);
    } else {
      Resume(cfg, Cycle(cfg, c).next, j - |PhaseCheckpoints(cfg, c)|);
    }
  }

  lemma CheckpointCount(cfg: Config, c: ReadyCore)
    requires Going(cfg, c)
    ensures |Checkpoints(cfg, c)| == |PhaseCheckpoints(cfg, c)| + LaterCount(cfg, c)
  {
    hide PhaseCheckpoints, Cycle, Ready, Inv;
  }

  /** The resumed run saves again exactly the states the interrupted run had still to save. */
  lemma {:induction false} ResumeSaves(cfg: Config, c: ReadyCore, j: nat, k: nat)
    requires j + k < |Checkpoints(cfg, c)|
    ensures var again := Checkpoints(cfg, Loaded(Checkpoints(cfg, c)[j]));
            && |again| == |Checkpoints(cfg, c)| - j
            && again[k] == Checkpoints(cfg, c)[j + k]
    decreases cfg.pruneIterations - c.pruneCycles
  {
    hide Checkpoints, PhaseCheckpoints, Cycle, Ready, Inv;
    var count := |PhaseCheckpoints(cfg, c)|;
    CheckpointAt(cfg, c, j);
    CheckpointAt(cfg, c, j + k);
    if j < count {
      var saved := Loaded(PhaseCheckpoints(cfg, c)[j]);
      ResumeCycle(cfg, c, j);
      ResumeCheckpoints(cfg, c, j, if j + k < count then k else 0);
      CheckpointCount(cfg, saved);
      CheckpointAt(cfg, saved, k);
    } else {
      ResumeSaves(cfg, Cycle(cfg, c).next, j - count, k);
    }
  }

  /** A run crashed and resumed any number of times: crash k strikes when state js[k] of the
      current attempt was the last one saved. */
  ghost function AfterCrashes(cfg: Config, c: ReadyCore, js: seq<nat>): ReadyCore
    decreases |js|
  {
    hide Checkpoints;
    if js == [] then c
    else if js[0] < |Checkpoints(cfg, c)| then AfterCrashes(cfg, Loaded(Checkpoints(cfg, c)[js[0]]), js[1..])
    else AfterCrashes(cfg, c, js[1..])
  }

  lemma {:induction false} ResumeRepeatedly(cfg: Config, c: ReadyCore, js: seq<nat>)
    ensures SearchAll(cfg, AfterCrashes(cfg, c, js)) == SearchAll(cfg, c)
    decreases |js|
  {
    hide Checkpoints, SearchAll;
    if js == [] {
    } else if js[0] < |Checkpoints(cfg, c)| {
      Resume(cfg, c, js[0]);
      ResumeRepeatedly(cfg, Loaded(Checkpoints(cfg, c)[js[0]]), js[1..]);
    } else {
      ResumeRepeatedly(cfg, c, js[1..]);
    }
  }

  lemma RotatedCover(items: seq<Item>, i: nat)
    requires i < |items|
    ensures Elements(Rotated(items, i)) + Elements(items[..i]) == Elements(items)
    ensures Distinct(items) ==> Elements(Rotated(items, i)) !! Elements(items[..i])
  {
    assert items == items[..i] + [items[i]] + items[i + 1..];
  }

  /** Popping the culprit and appending it again, then cutting off what was below it. */
  lemma PopAndAppend(items: seq<Item>, i: nat)
    requires i < |items|
    ensures var moved := items[..i] + items[i + 1..] + [items[i]];
            && |moved| == |items| && moved[..i] == items[..i] && moved[i..] == Rotated(items, i)
            && (i == 0 ==> Elements(items[..i]) == {} && moved == Rotated(items, i))
  {
  }

  lemma CycleCovers(cfg: Config, c: ReadyCore)
    requires Cycle(cfg, c).Again?
    ensures var next := Cycle(cfg, c).next;
            && Elements(next.items) + next.known == Elements(c.items) + c.known
            && (Elements(c.items) !! c.known ==> Elements(next.items) !! next.known)
  {
    var i := SearchPhase(cfg, c).search.current;
    RotatedCover(c.items, i);
    hide Elements, Rotated, Drive, Inv;
  }

  /** Pruning loses no item: at every test, the list and the known good items are two parts of the
      items the run started with. */
  lemma {:induction false} CheckpointsCover(cfg: Config, c: ReadyCore, j: nat)
    requires j < |Checkpoints(cfg, c)| && Elements(c.items) !! c.known
    ensures var saved := Checkpoints(cfg, c)[j];
            Elements(saved.items) + saved.known == Elements(c.items) + c.known && Elements(saved.items) !! saved.known
    decreases cfg.pruneIterations - c.pruneCycles
  {
    hide Drive, Tops, Cycle, Ready, Inv, Elements, Checkpoints;
    CheckpointAt(cfg, c, j);
    if j < |PhaseCheckpoints(cfg, c)| {
      PhaseCheckpointAt(cfg, c, j);
    } else {
      CycleCovers(cfg, c);
      CheckpointsCover(cfg, Cycle(cfg, c).next, j - |PhaseCheckpoints(cfg, c)|);
    }
  }

  /** At every test only items of the list are at its bad version, and so no known good
      item: TestedAt(saved) is the environment the test runs in (see BinarySearchState). */
  lemma KnownTestedGood(cfg: Config, items: seq<Item>, j: nat)
    requires items != [] && Distinct(items) && j < |Checkpoints(cfg, Initial(items))|
    ensures var saved := Checkpoints(cfg, Initial(items))[j];
            TestedAt(saved) <= Elements(saved.items) <= Elements(items) && TestedAt(saved) !! saved.known
  {
    var c := Initial(items);
    PopulatedReady(Core([Item("")], Start(1), {}, {}, 0, 0, false), items);
    hide Checkpoints, Populated, Ready, Inv;
    CheckpointsCover(cfg, c, j);
    PrefixWithin(Checkpoints(cfg, c)[j]);
    hide TestedAt, Elements;
  }

  lemma PrefixWithin(c: ReadyCore)
    ensures TestedAt(c) <= Elements(c.items)
  {
    hide Inv, NextIndex;
  }

  /** What is known good stays known good. */
  lemma {:induction false} KnownGrows(cfg: Config, c: ReadyCore)
    ensures c.known <= SearchAll(cfg, c).known
    decreases cfg.pruneIterations - c.pruneCycles
  {
    hide SearchPhase, Ready, Inv, Rotated, Elements, Finished;
    if Going(cfg, c) && Cycle(cfg, c).Again? {
      KnownGrows(cfg, Cycle(cfg, c).next);
    }
    CycleCases(cfg, c);
  }

  /** At every test what is known good is among what is known good in the end. */
  lemma KnownAtCheckpoint(cfg: Config, c: ReadyCore, j: nat)
    requires j < |Checkpoints(cfg, c)|
    ensures Checkpoints(cfg, c)[j].known <= SearchAll(cfg, c).known
  {
    hide Checkpoints, SearchAll, Ready, Inv;
    Resume(cfg, c, j);
    KnownGrows(cfg, Loaded(Checkpoints(cfg, c)[j]));
  }
}
