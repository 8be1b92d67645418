/** What a task costs when it comes back: the cost of its own flags, whether a worker or the helper
    set it, and whether this task or one with an equal image was tested. */
module ClosedLoopCosts {
  import opened Sequences
  import opened FlagSets
  import opened Pipeline
  import opened PipelineSafety
  import opened ClosedLoop
  import opened ClosedLoopRuns

  /** Building is determined by the flags, testing by the image's checksum. */
  datatype Lab = Lab(build: Flags -> BuildResult, test: int -> Cost) {
    function CostOf(f: Flags): Cost {
      test(build(f).checksum)
    }
  }

  /** What the lab has under a key. */
  predicate Right(lab: Lab, k: Key, r: Result) {
    match k
    case FlagsKey(f) => r == Built(lab.build(f))
    case ChecksumKey(c) => r == Tested(lab.test(c))
  }

  ghost predicate RightResults(lab: Lab, results: map<Key, Result>) {
    forall k :: k in results ==> Right(lab, k, results[k])
  }

  /** The workers do what the lab does. */
  ghost predicate Honest(lab: Lab, stage: Stage, w: World, a: Action) {
    a.Report? && a.i < |w.local.workers| ==> Right(lab, KeyOf(stage, w.local.workers[a.i].task), a.r)
  }

  ghost predicate HonestMove(lab: Lab, s: System, m: Move) {
    match m
    case Receive(_) => true
    case Build(a) => Honest(lab, BuildStage, Builder(s), a)
    case Test(a) => Honest(lab, TestStage, Tester(s), a)
  }

  function Misbuilt(lab: Lab): Task -> bool {
    (t: Task) => t.build != Some(lab.build(t.flags))
  }

  ghost predicate CostInv(lab: Lab, s: System) {
    && RightResults(lab, s.build.results) && RightResults(lab, s.test.results)
    && Sum(OfMsg(Misbuilt(lab)), s.toTest) + Inside(Misbuilt(lab), s.test) == 0
    && RightCosts(lab, s.back)
  }

  ghost predicate RightCosts(lab: Lab, ms: seq<Msg>) {
    forall i :: 0 <= i < |ms| && ms[i].Job? ==>
      ms[i].task.build == Some(lab.build(ms[i].task.flags)) && ms[i].task.cost == Some(lab.CostOf(ms[i].task.flags))
  }

  lemma ResultsStayRight(lab: Lab, stage: Stage, w: World, a: Action)
    requires Enabled(stage, w, a) && Typed(stage, w.local)
    requires RightResults(lab, w.local.results) && Honest(lab, stage, w, a)
    ensures RightResults(lab, Step(stage, w, a).local.results)
  {
    hide KeyOf, Sum, Output, CollectOutput;
  }

  lemma {:induction false} SumZero(q: Task -> bool, ms: seq<Msg>)
    requires forall i :: 0 <= i < |ms| && ms[i].Job? ==> !q(ms[i].task)
    ensures Sum(OfMsg(q), ms) == 0
  {
    if ms == [] {
    } else {
      SumZero(q, ms[1..]);
    }
  }

  lemma BuildCosts(lab: Lab, s: System, a: Action)
    requires CanMove(s, Build(a)) && StagesInv(s) && CostInv(lab, s) && HonestMove(lab, s, Build(a))
    ensures CostInv(lab, Moved(s, Build(a)))
  {
    var w := Builder(s);
    var out := Output(BuildStage, w, a);
    ResultsStayRight(lab, BuildStage, w, a);
    OutputCarries(BuildStage, w, a);
    hide Effect, Output, Inside, Sum, Enabled, RightCosts;
    forall i | 0 <= i < |out| && out[i].Job? ensures !Misbuilt(lab)(out[i].task) {
      assert out[i] in out;
    }
    SumZero(Misbuilt(lab), out);
    SumJoin(OfMsg(Misbuilt(lab)), s.toTest, out);
  }

  /** A task with the right build and the right result on record has the right cost. */
  lemma CarriedCost(lab: Lab, t: Task, results: map<Key, Result>)
    requires Carries(TestStage, t, results) && RightResults(lab, results) && !Misbuilt(lab)(t)
    ensures t.build == Some(lab.build(t.flags)) && t.cost == Some(lab.CostOf(t.flags))
  {
  }

  lemma OutputCosts(lab: Lab, w: World, a: Action)
    requires Enabled(TestStage, w, a) && Typed(TestStage, w.local) && ResultsInv(TestStage, w.local)
    requires RightResults(lab, w.local.results)
    requires Sum(OfMsg(Misbuilt(lab)), Output(TestStage, w, a)) == 0
    ensures RightCosts(lab, Output(TestStage, w, a))
  {
    var out := Output(TestStage, w, a);
    OutputCarries(TestStage, w, a);
    hide Output, Sum, Enabled, RightResults, Carries, ResultsInv, Typed;
    forall i | 0 <= i < |out| && out[i].Job?
      ensures out[i].task.build == Some(lab.build(out[i].task.flags)) && out[i].task.cost == Some(lab.CostOf(out[i].task.flags))
    {
      assert out[i] in out;
      SumOver(OfMsg(Misbuilt(lab)), out, i);
      CarriedCost(lab, out[i].task, w.local.results);
    }
  }

  lemma TestCosts(lab: Lab, s: System, a: Action)
    requires CanMove(s, Test(a)) && StagesInv(s) && CostInv(lab, s) && HonestMove(lab, s, Test(a))
    ensures CostInv(lab, Moved(s, Test(a)))
  {
    var w := Tester(s);
    hide Effect, Output, Inside, Sum, Enabled, RightResults, KeysInv, WaitInv, FreshInv, PhaseInv, Honest, ResultsInv;
    ResultsStayRight(lab, TestStage, w, a);
    NoneFlows(TestStage, Misbuilt(lab), w, a);
    OutputCosts(lab, w, a);
  }

  lemma CostsStayRight(lab: Lab, s: System, m: Move)
    requires CanMove(s, m) && StagesInv(s) && CostInv(lab, s) && HonestMove(lab, s, m)
    ensures CostInv(lab, Moved(s, m))
  {
    match m
    case Receive(_) => hide Inv;
    case Build(a) => BuildCosts(lab, s, a);
    case Test(a) => TestCosts(lab, s, a);
  }

  /** A run all of whose reports are the lab's. */
  ghost predicate HonestRun(lab: Lab, s: System, moves: seq<Move>)
    requires SysInv(s)
    decreases |moves|
  {
    moves != [] ==>
      && HonestRun(lab, s, moves[..|moves| - 1])
      && HonestMove(lab, RunMoves(s, moves[..|moves| - 1]), moves[|moves| - 1])
  }

  lemma {:induction false} CostsOfRun(lab: Lab, s: System, moves: seq<Move>)
    requires SysInv(s) && CostInv(lab, s) && HonestRun(lab, s, moves)
    ensures CostInv(lab, RunMoves(s, moves))
    decreases |moves|
  {
    if moves == [] {
    } else {
      CostsOfRun(lab, s, moves[..|moves| - 1]);
      var prev, m := RunMoves(s, moves[..|moves| - 1]), moves[|moves| - 1];
      if CanMove(prev, m) {
        CostsStayRight(lab, prev, m);
      }
      hide CostInv, CanMove, Moved, HonestMove, StagesInv;
    }
  }

  /** At every point of every such run, what steering takes back next carries the cost the lab gives
      its flags: the two stages together are a function of the flags, which is what the search
      algorithms rely on. */
  lemma BackWithItsCost(
    lab: Lab, s: System, first: seq<Task>, built: map<Key, Result>, tested: map<Key, Result>, moves: seq<Move>)
    requires SystemStarts(s, first, built, tested)
    requires RightResults(lab, built) && RightResults(lab, tested)
    ensures SysInv(s)
    ensures HonestRun(lab, s, moves) ==>
        var back := RunMoves(s, moves).back;
        back != [] && back[0].Job? ==> back[0].task.cost == Some(lab.CostOf(back[0].task.flags))
  {
    hide SysInv, CostInv, SystemStarts;
    StartSystem(s, first, built, tested);
    StartCosts(lab, s, first, built, tested);
    if HonestRun(lab, s, moves) {
      CostsOfRun(lab, s, moves);
      if RunMoves(s, moves).back != [] {
        FirstCost(lab, RunMoves(s, moves));
      }
    }
  }

  lemma StartCosts(lab: Lab, s: System, first: seq<Task>, built: map<Key, Result>, tested: map<Key, Result>)
    requires SystemStarts(s, first, built, tested)
    requires RightResults(lab, built) && RightResults(lab, tested)
    ensures CostInv(lab, s)
  {
    NothingInside(TestStage, Tester(s), tested, Misbuilt(lab));
    hide Inside, RightResults;
  }

  lemma FirstCost(lab: Lab, s: System)
    requires CostInv(lab, s) && s.back != []
    ensures s.back[0].Job? ==> s.back[0].task.cost == Some(lab.CostOf(s.back[0].task.flags))
  {
  }
}
