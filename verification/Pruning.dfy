/** Pruning finds exactly the culprits: the end-to-end result about DoSearchBadItems, for every
    item list, set of culprits and pair of budgets. */
module Pruning {
  import opened Sequences
  import opened BinarySearch
  import opened Bisection

  /** The scripts answer bad exactly when some culprit is at its bad version. */
  ghost predicate CulpritTest(cfg: Config, culprits: set<Item>) {
    forall bad :: Verdict(cfg, bad) == if bad !! culprits then GOOD else BAD
  }

  /** The scripts answer so, or "skip". */
  ghost predicate CulpritTestOrSkips(cfg: Config, culprits: set<Item>) {
    forall bad :: Verdict(cfg, bad) == SKIP || Verdict(cfg, bad) == if bad !! culprits then GOOD else BAD
  }

  /** Iterations that finish every search over n items: n - 1, or log2 n when nothing is skipped. */
  ghost predicate Enough(cfg: Config, culprits: set<Item>, n: nat) {
    n - 1 <= cfg.iterations || (CulpritTest(cfg, culprits) && n <= Pow2(cfg.iterations))
  }

  /** The culprits of a list, in list order. */
  function CulpritList(items: seq<Item>, culprits: set<Item>): (cl: seq<Item>)
    ensures forall x :: x in cl <==> x in items && x in culprits
  {
    if items == [] then []
    else (if items[0] in culprits then [items[0]] else []) + CulpritList(items[1..], culprits)
  }

  /** The index of the first culprit, or of the last item when no earlier item is one. */
  function FirstBad(items: seq<Item>, culprits: set<Item>): (i: nat)
    requires items != []
    ensures i < |items|
    ensures forall k :: 0 <= k < i ==> items[k] !in culprits
    ensures i < |items| - 1 ==> items[i] in culprits
  {
    if |items| == 1 || items[0] in culprits then 0 else FirstBad(items[1..], culprits) + 1
  }

  /** Testing prefixes is then a truthful, skip-free search. */
  lemma PrefixTruthful(cfg: Config, culprits: set<Item>, items: seq<Item>)
    requires items != [] && CulpritTest(cfg, culprits)
    ensures Truthful(Answers(cfg, items), |items|, FirstBad(items, culprits))
  {
    var first := FirstBad(items, culprits);
    forall i | 0 <= i < |items| - 1
      ensures Answers(cfg, items)(i) == if i < first then GOOD else BAD
    {
      if i >= first {
        assert items[first] == items[..i + 1][first];
        assert items[first] in Prefix(items, i);
      }
    }
  }

  lemma PrefixTruthfulOrSkips(cfg: Config, culprits: set<Item>, items: seq<Item>)
    requires items != [] && CulpritTestOrSkips(cfg, culprits)
    ensures TruthfulOrSkips(Answers(cfg, items), |items|, FirstBad(items, culprits))
  {
    var first := FirstBad(items, culprits);
    forall i | 0 <= i < |items| - 1
      ensures Answers(cfg, items)(i) == SKIP || Answers(cfg, items)(i) == if i < first then GOOD else BAD
    {
      if i >= first {
        assert items[first] == items[..i + 1][first];
        assert items[first] in Prefix(items, i);
      }
    }
  }

  /** The scripts skip neither the items below the list's first culprit nor those up to it. */
  ghost predicate ClearAt(cfg: Config, culprits: set<Item>, items: seq<Item>)
    requires items != []
  {
    Clear(Answers(cfg, items), |items|, FirstBad(items, culprits))
  }

  /** The script skips the items up to the list's first culprit. */
  ghost predicate SkipsFirst(cfg: Config, culprits: set<Item>, items: seq<Item>)
    requires items != []
  {
    Answers(cfg, items)(FirstBad(items, culprits)) == SKIP
  }

  /** One search from a fresh searcher that finishes: it narrows down to one index if and only if the
      scripts skip neither side of the first culprit, and then that is the first culprit's. It ends
      beyond the first culprit only if that was skipped. */
  lemma PhaseFinds(cfg: Config, culprits: set<Item>, c: ReadyCore)
    requires |c.items| > 1 && c.search == Start(|c.items|)
    requires CulpritTestOrSkips(cfg, culprits)
    ensures var s, first := SearchPhase(cfg, c).search, FirstBad(c.items, culprits);
            && (Finished(s) ==> (s.lo == s.hi <==> ClearAt(cfg, culprits, c.items)))
            && (Finished(s) && s.lo == s.hi ==> s.current == first)
            && (Finished(s) && s.current > first ==> SkipsFirst(cfg, culprits, c.items))
            && (!c.resumed && Enough(cfg, culprits, |c.items|) ==> Finished(s))
  {
    var answer, first, budget := Answers(cfg, c.items), FirstBad(c.items, culprits), Budget(cfg, c);
    PrefixTruthfulOrSkips(cfg, culprits, c.items);
    if CulpritTest(cfg, culprits) {
      PrefixTruthful(cfg, culprits, c.items);
    }
    hide Answers, Drive, Ready, Inv, FirstBad, CulpritTest, Finished, Clear, Encloses, Heard, TruthfulOrSkips, Truthful;
    StartHears(|c.items|, answer, first);
    DriveEncloses(c.search, answer, first, budget);
    DriveHeard(c.search, answer, budget);
    var s := Drive(c.search, answer, budget);
    if Finished(s) {
      EndsExactly(s, answer, first);
    } else {
      RoomLeft(s);
      if CulpritTest(cfg, culprits) {
        FreshUnfinished(|c.items|);
        DriveFinds(c.search, answer, first, budget);
      }
    }
  }

  lemma CulpritHead(items: seq<Item>, culprits: set<Item>)
    requires items != [] && items[0] !in culprits
    ensures CulpritList(items, culprits) == CulpritList(items[1..], culprits)
    ensures |items| > 1 ==> FirstBad(items, culprits) == FirstBad(items[1..], culprits) + 1
  {
  }

  /** Splitting a list at its first culprit. */
  lemma {:induction false} SplitAtFirst(items: seq<Item>, culprits: set<Item>)
    requires items != [] && CulpritList(items, culprits) != []
    ensures var i, cl := FirstBad(items, culprits), CulpritList(items, culprits);
            items[i] == cl[0] && CulpritList(items[i + 1..], culprits) == cl[1..]
  {
    if items[0] in culprits {
    } else {
      CulpritHead(items, culprits);
      assert |items| > 1;
      hide CulpritList, FirstBad;
      SplitAtFirst(items[1..], culprits);
      var i := FirstBad(items[1..], culprits);
      assert items[1..][i + 1..] == items[i + 2..];
    }
  }

  /** In rest + done, with `done` made of culprits, the first culprit is that of `rest`, or opens
      `done` when `rest` has none. */
  lemma {:induction false} FirstBadBeyond(rest: seq<Item>, done: seq<Item>, culprits: set<Item>)
    requires rest + done != [] && forall x :: x in done ==> x in culprits
    requires done == [] ==> CulpritList(rest, culprits) != []
    ensures FirstBad(rest + done, culprits)
            == if CulpritList(rest, culprits) == [] then |rest| else FirstBad(rest, culprits)
  {
    if rest == [] {
      assert rest + done == done;
    } else if rest[0] in culprits {
    } else {
      assert (rest + done)[1..] == rest[1..] + done;
      assert CulpritList(rest, culprits) == CulpritList(rest[1..], culprits);
      if rest[1..] + done != [] {
        FirstBadBeyond(rest[1..], done, culprits);
      }
    }
  }

  /** The state of a run that has found `done`, in that order, and has still to search `rest`. */
  ghost predicate Found(c: Core, culprits: set<Item>, rest: seq<Item>, done: seq<Item>) {
    && c.items == rest + done && |c.items| > 1
    && c.search == Start(|c.items|) && !c.resumed
    && (forall x :: x in done ==> x in culprits)
    && c.found == Elements(done)
    && c.known !! culprits
    && (done == [] ==> CulpritList(rest, culprits) != [])
  }

  /** How many culprits the remaining cycles may add. */
  function Allowance(cfg: Config, c: Core): nat {
    if c.pruneCycles >= cfg.pruneIterations then 0
    else if cfg.prune then cfg.pruneIterations - c.pruneCycles
    else 1
  }

  function Min(a: nat, b: nat): nat {
    if a < b then a else b
  }

  /** A cycle with nothing left to find in `rest` adds nothing and ends the run. */
  lemma CycleEnds(cfg: Config, culprits: set<Item>, c: ReadyCore, rest: seq<Item>, done: seq<Item>)
    requires CulpritTestOrSkips(cfg, culprits) && Found(c, culprits, rest, done)
    requires ClearAt(cfg, culprits, c.items) && CulpritList(rest, culprits) == []
    ensures Cycle(cfg, c).Stop?
    ensures Cycle(cfg, c).last.found == c.found && Cycle(cfg, c).last.known == c.known
    ensures Cycle(cfg, c).last.pruneCycles == c.pruneCycles + 1
  {
    PhaseFinds(cfg, culprits, c);
    FirstBadBeyond(rest, done, culprits);
    assert c.items[|rest|] == done[0];
    hide SearchPhase, Ready, Inv, CulpritTestOrSkips, ClearAt, Enough, SkipsFirst, FirstBad;
  }

  lemma RestAndDone(rest: seq<Item>, done: seq<Item>, i: nat)
    requires Distinct(rest + done) && i < |rest|
    ensures var items := rest + done;
            && items[i] == rest[i] && rest[i] !in done
            && items[..i] == rest[..i]
            && Rotated(items, i) == rest[i + 1..] + (done + [rest[i]])
            && Elements(done + [rest[i]]) == Elements(done) + {rest[i]}
  {
    forall k | 0 <= k < |done| ensures done[k] != rest[i] {
      assert (rest + done)[|rest| + k] == done[k] && (rest + done)[i] == rest[i];
    }
  }

  /** What moving the next culprit to the end does to the list. */
  lemma NextCulprit(culprits: set<Item>, rest: seq<Item>, done: seq<Item>)
    requires Distinct(rest + done) && CulpritList(rest, culprits) != []
    requires forall x :: x in done ==> x in culprits
    ensures var items, i, next := rest + done, FirstBad(rest, culprits), CulpritList(rest, culprits)[0];
            && FirstBad(items, culprits) == i
            && items[i] == next && next in culprits && next !in done
            && Elements(done + [next]) == Elements(done) + {next}
            && Elements(items[..i]) !! culprits
            && Rotated(items, i) == rest[i + 1..] + (done + [next])
            && CulpritList(rest[i + 1..], culprits) == CulpritList(rest, culprits)[1..]
  {
    var i := FirstBad(rest, culprits);
    FirstBadBeyond(rest, done, culprits);
    SplitAtFirst(rest, culprits);
    assert CulpritList(rest, culprits)[0] in CulpritList(rest, culprits);
    assert Elements(rest[..i]) !! culprits;
    hide CulpritList, FirstBad, Rotated, Elements;
    RestAndDone(rest, done, i);
  }

  /** The run has found `next` after `done`: it has stopped, or goes on with what lies beyond. */
  ghost predicate Advanced(cfg: Config, culprits: set<Item>, cycles: nat, rest: seq<Item>, done: seq<Item>, r: CycleResult)
    requires CulpritList(rest, culprits) != []
  {
    var i, next := FirstBad(rest, culprits), CulpritList(rest, culprits)[0];
    match r
    case Stop(c) =>
      && c.found == Elements(done + [next]) && c.known !! culprits && c.pruneCycles == cycles
      && (cfg.prune ==> |CulpritList(rest, culprits)| == 1)
    case Again(c) =>
      cfg.prune && c.pruneCycles == cycles && Found(c, culprits, rest[i + 1..], done + [next])
  }

  lemma PrunedAdvances(cfg: Config, culprits: set<Item>, c: Core, rest: seq<Item>, done: seq<Item>)
    requires c.items == rest + done && Distinct(c.items) && !c.resumed
    requires CulpritList(rest, culprits) != [] && forall x :: x in done ==> x in culprits
    requires c.found == Elements(done) && c.known !! culprits
    ensures FirstBad(c.items, culprits) == FirstBad(rest, culprits)
    ensures Advanced(cfg, culprits, c.pruneCycles, rest, done, Pruned(cfg, c, FirstBad(rest, culprits)))
  {
    var i, next := FirstBad(rest, culprits), CulpritList(rest, culprits)[0];
    NextCulprit(culprits, rest, done);
    if i == |c.items| - 1 {
      assert rest[i + 1..] == [];
    } else {
      hide Distinct, CulpritList, Elements;
      assert next !in c.found;
      assert |Rotated(c.items, i)| > 1;
    }
  }

  /** A cycle that ends its search adds the next culprit; with pruning on and more items below the
      end, it leaves the items beyond the culprit to search. */
  lemma CycleAdvances(cfg: Config, culprits: set<Item>, c: ReadyCore, rest: seq<Item>, done: seq<Item>)
    requires CulpritTestOrSkips(cfg, culprits) && Found(c, culprits, rest, done)
    requires ClearAt(cfg, culprits, c.items) && CulpritList(rest, culprits) != []
    requires Finished(SearchPhase(cfg, c).search)
    ensures Advanced(cfg, culprits, c.pruneCycles + 1, rest, done, Cycle(cfg, c))
  {
    PhaseFinds(cfg, culprits, c);
    assert Distinct(c.items);
    CycleCases(cfg, c);
    hide *;
    PrunedAdvances(cfg, culprits, SearchPhase(cfg, c).(pruneCycles := c.pruneCycles + 1), rest, done);
  }

  /** A run that had `cycles` behind it and `cl` ahead ended as r, having found m more culprits. */
  ghost predicate Outcome(cfg: Config, culprits: set<Item>, c: Core, cl: seq<Item>, done: seq<Item>, r: Core, m: nat) {
    && m <= |cl| && m <= Allowance(cfg, c)
    && r.found == Elements(done + cl[..m])
    && r.known !! culprits
    && r.pruneCycles <= c.pruneCycles + |cl| + 1
    && (Enough(cfg, culprits, |c.items|) ==> m == Min(|cl|, Allowance(cfg, c)))
  }

  lemma OutcomeEnded(cfg: Config, culprits: set<Item>, c: Core, cl: seq<Item>, done: seq<Item>, r: Core)
    requires r.found == Elements(done) && r.known !! culprits
    requires r.pruneCycles <= c.pruneCycles + 1
    requires Enough(cfg, culprits, |c.items|) ==> cl == [] || Allowance(cfg, c) == 0
    ensures Outcome(cfg, culprits, c, cl, done, r, 0)
  {
    assert done + cl[..0] == done;
  }

  lemma OutcomeOne(cfg: Config, culprits: set<Item>, c: Core, cl: seq<Item>, done: seq<Item>, r: Core)
    requires cl != [] && (cfg.prune ==> |cl| == 1) && c.pruneCycles < cfg.pruneIterations
    requires r.found == Elements(done + [cl[0]]) && r.known !! culprits
    requires r.pruneCycles <= c.pruneCycles + 1
    ensures Outcome(cfg, culprits, c, cl, done, r, 1)
  {
    assert cl[..1] == [cl[0]];
  }

  lemma OutcomeLater(
    cfg: Config, culprits: set<Item>, c: Core, c': Core, cl: seq<Item>, done: seq<Item>, r: Core, m: nat)
    requires cl != [] && cfg.prune && c.pruneCycles < cfg.pruneIterations
    requires c'.pruneCycles == c.pruneCycles + 1 && |c'.items| <= |c.items|
    requires Outcome(cfg, culprits, c', cl[1..], done + [cl[0]], r, m)
    ensures Outcome(cfg, culprits, c, cl, done, r, m + 1)
  {
    assert done + [cl[0]] + cl[1..][..m] == done + cl[..m + 1];
  }

  /** In every cycle yet to come the scripts skip neither side of the first culprit of the list: what
      is searched is the rest of the items, with the culprits found so far behind. */
  ghost predicate ClearRun(cfg: Config, culprits: set<Item>, rest: seq<Item>, done: seq<Item>, cycles: int)
    requires rest + done != []
    decreases |rest|
  {
    cycles > 0 ==>
      && ClearAt(cfg, culprits, rest + done)
      && (cfg.prune && CulpritList(rest, culprits) != [] ==>
            var i := FirstBad(rest, culprits);
            ClearRun(cfg, culprits, rest[i + 1..], done + [rest[i]], cycles - 1))
  }

  /** When nothing is skipped that is always so. */
  lemma {:induction false} NoSkipsClear(cfg: Config, culprits: set<Item>, rest: seq<Item>, done: seq<Item>, cycles: int)
    requires CulpritTest(cfg, culprits) && rest + done != []
    ensures CulpritTestOrSkips(cfg, culprits) && ClearRun(cfg, culprits, rest, done, cycles)
    decreases |rest|
  {
    if cycles > 0 {
      PrefixTruthful(cfg, culprits, rest + done);
      if CulpritList(rest, culprits) != [] {
        var i := FirstBad(rest, culprits);
        NoSkipsClear(cfg, culprits, rest[i + 1..], done + [rest[i]], cycles - 1);
      }
    }
    hide FirstBad, Answers, CulpritList;
  }

  /** Running on from any such state: the culprits found are the next ones in list order, as many as
      the budgets let the run reach, and no culprit is ever taken for known good. */
  lemma {:induction false} PruneRun(cfg: Config, culprits: set<Item>, c: ReadyCore, rest: seq<Item>, done: seq<Item>)
    returns (m: nat)
    requires CulpritTestOrSkips(cfg, culprits) && Found(c, culprits, rest, done)
    requires ClearRun(cfg, culprits, rest, done, cfg.pruneIterations - c.pruneCycles)
    ensures Outcome(cfg, culprits, c, CulpritList(rest, culprits), done, SearchAll(cfg, c), m)
    decreases cfg.pruneIterations - c.pruneCycles
  {
    hide CulpritList, FirstBad, Cycle, Finished, Elements, Outcome, CulpritTestOrSkips, ClearAt, Enough, SkipsFirst, Ready, Inv;
    var cl := CulpritList(rest, culprits);
    m := 0;
    if c.pruneCycles >= cfg.pruneIterations {
      OutcomeEnded(cfg, culprits, c, cl, done, c);
    } else if cl == [] {
      CycleEnds(cfg, culprits, c, rest, done);
      OutcomeEnded(cfg, culprits, c, cl, done, Cycle(cfg, c).last);
    } else if !Finished(SearchPhase(cfg, c).search) {
      PhaseFinds(cfg, culprits, c);
      CycleCases(cfg, c);
      OutcomeEnded(cfg, culprits, c, cl, done, Cycle(cfg, c).last);
    } else {
      CycleAdvances(cfg, culprits, c, rest, done);
      match Cycle(cfg, c)
      case Stop(last) =>
        OutcomeOne(cfg, culprits, c, cl, done, last);
        m := 1;
      case Again(next) =>
        SplitAtFirst(rest, culprits);
        var later := PruneRun(cfg, culprits, next, rest[FirstBad(rest, culprits) + 1..], done + [cl[0]]);
        OutcomeLater(cfg, culprits, c, next, cl, done, SearchAll(cfg, next), later);
        m := later + 1;
    }
  }

  // ---------------------------------------------------------------- the main results

  lemma InitialFound(culprits: set<Item>, items: seq<Item>)
    requires Distinct(items) && |items| > 1 && CulpritList(items, culprits) != []
    ensures Found(Initial(items), culprits, items, []) && Initial(items).pruneCycles == 0
  {
    assert items + [] == items;
  }

  lemma InitialOutcome(cfg: Config, culprits: set<Item>, items: seq<Item>, cl: seq<Item>, r: Core, m: nat)
    requires Distinct(items) && |items| > 1 && Outcome(cfg, culprits, Initial(items), cl, [], r, m)
    ensures var limit := if cfg.prune then cfg.pruneIterations else Min(1, cfg.pruneIterations);
            && m <= Min(|cl|, limit)
            && r.found == Elements(cl[..m])
            && r.known !! culprits
            && r.pruneCycles <= |cl| + 1
            && (Enough(cfg, culprits, |items|) ==> m == Min(|cl|, limit))
  {
    hide Ready, Inv, Enough;
    assert [] + cl[..m] == cl[..m];
  }

  /** With a culprit among at least two items, and none of the cycles' first culprits next to a skipped
      test, a run finds the first culprits in list order: as many as the prune budget allows when
      each search has enough iterations, and some prefix of them whatever the budgets. No known good
      item is a culprit. */
  lemma FindsFirstCulprits(cfg: Config, culprits: set<Item>, items: seq<Item>) returns (m: nat)
    requires Distinct(items) && |items| > 1 && CulpritTestOrSkips(cfg, culprits)
    requires ClearRun(cfg, culprits, items, [], cfg.pruneIterations)
    requires CulpritList(items, culprits) != []
    ensures var r, cl := SearchAll(cfg, Initial(items)), CulpritList(items, culprits);
            var limit := if cfg.prune then cfg.pruneIterations else Min(1, cfg.pruneIterations);
            && m <= Min(|cl|, limit)
            && r.found == Elements(cl[..m])
            && r.known !! culprits
            && r.pruneCycles <= |cl| + 1
            && (Enough(cfg, culprits, |items|) ==> m == Min(|cl|, limit))
  {
    hide *;
    InitialFound(culprits, items);
    m := PruneRun(cfg, culprits, Initial(items), items, []);
    InitialOutcome(cfg, culprits, items, CulpritList(items, culprits), SearchAll(cfg, Initial(items)), m);
  }

  /** At no test is a culprit taken for known good. */
  lemma NoKnownCulprit(cfg: Config, culprits: set<Item>, items: seq<Item>, j: nat)
    requires Distinct(items) && |items| > 1 && CulpritTestOrSkips(cfg, culprits)
    requires ClearRun(cfg, culprits, items, [], cfg.pruneIterations)
    requires CulpritList(items, culprits) != []
    requires j < |Checkpoints(cfg, Initial(items))|
    ensures Checkpoints(cfg, Initial(items))[j].known !! culprits
  {
    hide *;
    var m := FindsFirstCulprits(cfg, culprits, items);
    KnownAtCheckpoint(cfg, Initial(items), j);
  }

  lemma {:induction false} CulpritListDistinct(items: seq<Item>, culprits: set<Item>)
    requires Distinct(items)
    ensures Distinct(CulpritList(items, culprits))
  {
    if items == [] {
    } else {
      CulpritListDistinct(items[1..], culprits);
    }
  }

  /** Prune completeness: with pruning on and enough iterations per search, and none of the cycles'
      first culprits next to a skipped test, the run finds exactly the culprits if and only if it is
      allowed as many cycles as there are culprits. */
  lemma PruneFindsAll(cfg: Config, culprits: set<Item>, items: seq<Item>)
    requires Distinct(items) && |items| > 1 && CulpritTestOrSkips(cfg, culprits)
    requires ClearRun(cfg, culprits, items, [], cfg.pruneIterations)
    requires Elements(items) * culprits != {}
    requires cfg.prune && Enough(cfg, culprits, |items|)
    ensures SearchAll(cfg, Initial(items)).found == Elements(items) * culprits
            <==> |Elements(items) * culprits| <= cfg.pruneIterations
    ensures SearchAll(cfg, Initial(items)).pruneCycles <= |Elements(items) * culprits| + 1
  {
    hide SearchAll, Initial, ClearRun, Enough, CulpritTestOrSkips, CulpritList, Elements, Distinct, Ready, Inv;
    CulpritCount(items, culprits);
    var m := FindsFirstCulprits(cfg, culprits, items);
    FirstOf(items, culprits, m);
  }

  lemma CulpritCount(items: seq<Item>, culprits: set<Item>)
    requires Distinct(items) && Elements(items) * culprits != {}
    ensures CulpritList(items, culprits) != []
    ensures |CulpritList(items, culprits)| == |Elements(items) * culprits|
  {
    var cl := CulpritList(items, culprits);
    var x :| x in Elements(items) * culprits;
    assert x in cl;
    CulpritListDistinct(items, culprits);
    DistinctCount(cl);
    assert Elements(cl) == Elements(items) * culprits;
  }

  /** The first m culprits of a list are all of them if and only if there are no more than m. */
  lemma FirstOf(items: seq<Item>, culprits: set<Item>, m: nat)
    requires Distinct(items) && m <= |CulpritList(items, culprits)|
    ensures var cl := CulpritList(items, culprits);
            Elements(cl[..m]) == Elements(items) * culprits <==> m == |cl|
  {
    var cl := CulpritList(items, culprits);
    CulpritListDistinct(items, culprits);
    DistinctCount(cl);
    DistinctCount(cl[..m]);
    assert cl[..|cl|] == cl;
    assert Elements(cl) == Elements(items) * culprits;
  }

  // ---------------------------------------------------------------- what skipped tests can do

  function Reached(r: CycleResult): Core {
    match r
    case Stop(c) => c
    case Again(c) => c
  }

  /** The search of this cycle ends beyond the first culprit of the list, at an item that the cycle
      takes for a culprit. */
  ghost predicate Overshoots(cfg: Config, culprits: set<Item>, c: ReadyCore) {
    var s := SearchPhase(cfg, c).search;
    Finished(s) && FirstBad(c.items, culprits) < s.current < |c.items| - 1 && c.items[s.current] !in c.found
  }

  lemma OnlyInnocentBelow(items: seq<Item>, culprits: set<Item>, i: nat)
    requires i < |items|
    ensures Elements(items[..i]) !! culprits <==> i <= FirstBad(items, culprits)
  {
    var first := FirstBad(items, culprits);
    if first < i {
      assert items[..i][first] in Elements(items[..i]);
    }
  }

  /** A cycle takes a culprit for known good if and only if its search overshoots. */
  lemma CycleKnows(cfg: Config, culprits: set<Item>, c: ReadyCore)
    requires c.known !! culprits
    ensures Reached(Cycle(cfg, c)).known !! culprits <==> !Overshoots(cfg, culprits, c)
  {
    CycleCases(cfg, c);
    var s := SearchPhase(cfg, c).search;
    assert 0 <= s.current < |c.items|;
    OnlyInnocentBelow(c.items, culprits, s.current);
    hide SearchPhase, Cycle, Elements, FirstBad, Ready, Inv, Finished, Rotated;
  }

  /** No cycle still to come overshoots. */
  ghost predicate NoOvershoot(cfg: Config, culprits: set<Item>, c: ReadyCore)
    decreases cfg.pruneIterations - c.pruneCycles
  {
    Going(cfg, c) ==>
      !Overshoots(cfg, culprits, c) && (Cycle(cfg, c).Again? ==> NoOvershoot(cfg, culprits, Cycle(cfg, c).next))
  }

  /** Whatever the scripts answer: a run takes no culprit for known good if and only if no search of
      its cycles ends beyond the first culprit of its list. */
  lemma {:induction false} KnownExactly(cfg: Config, culprits: set<Item>, c: ReadyCore)
    requires c.known !! culprits
    ensures SearchAll(cfg, c).known !! culprits <==> NoOvershoot(cfg, culprits, c)
    decreases cfg.pruneIterations - c.pruneCycles
  {
    hide Overshoots, Cycle, Ready, Inv;
    if Going(cfg, c) {
      CycleKnows(cfg, culprits, c);
      if Cycle(cfg, c).Again? {
        var next := Cycle(cfg, c).next;
        KnownGrows(cfg, next);
        if next.known !! culprits {
          KnownExactly(cfg, culprits, next);
        }
      }
    }
  }

  /** In no cycle still to come do the scripts skip the items up to the first culprit of the list. */
  ghost predicate FirstTested(cfg: Config, culprits: set<Item>, c: ReadyCore)
    decreases cfg.pruneIterations - c.pruneCycles
  {
    Going(cfg, c) ==>
      && !SkipsFirst(cfg, culprits, c.items)
      && (Cycle(cfg, c).Again? ==> FirstTested(cfg, culprits, Cycle(cfg, c).next))
  }

  lemma {:induction false} TestedNotOvershot(cfg: Config, culprits: set<Item>, c: ReadyCore)
    requires CulpritTestOrSkips(cfg, culprits) && c.search == Start(|c.items|)
    requires FirstTested(cfg, culprits, c)
    ensures NoOvershoot(cfg, culprits, c)
    decreases cfg.pruneIterations - c.pruneCycles
  {
    if Going(cfg, c) {
      PhaseFinds(cfg, culprits, c);
      if Cycle(cfg, c).Again? {
        NextStarts(cfg, c);
        TestedNotOvershot(cfg, culprits, Cycle(cfg, c).next);
      }
    }
    hide SearchPhase, Cycle, Ready, Inv, CulpritTestOrSkips, SkipsFirst, ClearAt, Enough;
  }

  lemma NextStarts(cfg: Config, c: ReadyCore)
    requires Cycle(cfg, c).Again?
    ensures Cycle(cfg, c).next.search == Start(|Cycle(cfg, c).next.items|)
  {
    hide SearchPhase, Ready, Inv;
  }

  /** Then no culprit is ever taken for known good, whether or not the right items are found. */
  lemma KnownWhenTested(cfg: Config, culprits: set<Item>, items: seq<Item>, j: nat)
    requires items != [] && Distinct(items) && CulpritTestOrSkips(cfg, culprits)
    requires FirstTested(cfg, culprits, Initial(items)) && j < |Checkpoints(cfg, Initial(items))|
    ensures Checkpoints(cfg, Initial(items))[j].known !! culprits
    ensures SearchAll(cfg, Initial(items)).known !! culprits
  {
    PopulatedReady(Core([Item("")], Start(1), {}, {}, 0, 0, false), items);
    hide FirstTested, NoOvershoot, Checkpoints, SearchAll, Ready, Inv, CulpritTestOrSkips;
    TestedNotOvershot(cfg, culprits, Initial(items));
    KnownExactly(cfg, culprits, Initial(items));
    KnownAtCheckpoint(cfg, Initial(items), j);
  }

  /** A script that can only tell all items good from all items bad, and skips everything between. */
  function Blind(items: seq<Item>): Config {
    Config(false, false, true, 3, 1, _ => GOOD,
           bad => if bad == {} then GOOD else if Elements(items) <= bad then BAD else SKIP)
  }

  /** With it, a run over four items whose first one is the culprit passes its verification, blames the
      third item, and takes the culprit for known good. */
  lemma CulpritKnownGood(items: seq<Item>)
    requires |items| == 4 && Distinct(items)
    ensures CulpritTestOrSkips(Blind(items), {items[0]}) && VerifyPasses(Blind(items), items)
    ensures var r := SearchAll(Blind(items), Initial(items));
            r.found == {items[2]} && items[0] in r.known
  {
    var cfg, c := Blind(items), Initial(items);
    assert items[0] in Elements(items);
    BlindSkips(items);
    PopulatedReady(Core([Item("")], Start(1), {}, {}, 0, 0, false), items);
    AllSkipped(Answers(cfg, items));
    CycleCases(cfg, c);
    assert SearchPhase(cfg, c).search.current == 2;
    assert items[..2][0] in Elements(items[..2]);
    hide Drive, Answers, Ready, Inv, Finished, SearchPhase, Cycle;
    assert Cycle(cfg, c).last.found == {items[2]};
  }

  lemma BlindSkips(items: seq<Item>)
    requires |items| == 4 && Distinct(items)
    ensures var answer := Answers(Blind(items), items);
            answer(0) == answer(1) == answer(2) == SKIP
  {
    forall i | 0 <= i <= 2 ensures Answers(Blind(items), items)(i) == SKIP {
      var prefix := Prefix(items, i);
      assert items[..i + 1][0] in prefix;
      assert items[3] in Elements(items) && items[3] !in prefix;
    }
  }

  /** Verification passes exactly when there is a culprit to find and neither of its tests is skipped. */
  lemma VerifyMeansCulprit(cfg: Config, culprits: set<Item>, items: seq<Item>)
    requires CulpritTestOrSkips(cfg, culprits)
    ensures VerifyPasses(cfg, items) <==>
        Elements(items) * culprits != {} && Verdict(cfg, {}) != SKIP && Verdict(cfg, Elements(items)) != SKIP
  {
  }

  /** Without a culprit among the items the last item is blamed ... */
  lemma NoCulprit(cfg: Config, culprits: set<Item>, items: seq<Item>)
    requires Distinct(items) && |items| > 1 && CulpritTestOrSkips(cfg, culprits)
    requires ClearAt(cfg, culprits, items) && Elements(items) !! culprits
    requires cfg.pruneIterations > 0 && Enough(cfg, culprits, |items|)
    ensures SearchAll(cfg, Initial(items)).found == {items[|items| - 1]}
  {
    var c := Initial(items);
    PhaseFinds(cfg, culprits, c);
    assert FirstBad(items, culprits) == |items| - 1 by {
      var i := FirstBad(items, culprits);
      assert items[i] in Elements(items);
    }
    hide SearchPhase, FirstBad, Ready, Inv, Enough, ClearAt, SkipsFirst, CulpritTestOrSkips;
  }

  /** ... and a single item is never searched, so never found. */
  lemma SingleItem(cfg: Config, item: Item)
    ensures SearchAll(cfg, Initial([item])).found == {}
  {
  }
}
