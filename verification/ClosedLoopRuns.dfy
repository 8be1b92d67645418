/** Whole runs of the closed loop: every task that comes back is awaited, the pill goes
    once and goes last, and every schedule comes to an end. */
module ClosedLoopRuns {
  import opened Sequences
  import opened FlagSets
  import opened Pipeline
  import opened PipelineSafety
  import opened PipelineProgress
  import opened ClosedLoop
  import PipelineProcesses

  ghost predicate SysInv(s: System) {
    FlightInv(s) && PendingInv(s) && StagesInv(s) && PillInv(s)
  }

  lemma MoveKeepsInv(s: System, m: Move)
    requires CanMove(s, m) && SysInv(s)
    ensures SysInv(Moved(s, m))
  {
    FlightStep(s, m);
    PendingStep(s, m);
    StagesStep(s, m);
    PillStep(s, m);
    hide *;
  }

  /** Steering has sent its first pool; the two caches hold what is known beforehand. */
  ghost predicate SystemStarts(
    s: System, first: seq<Task>, built: map<Key, Result>, tested: map<Key, Result>)
  {
    && first != [] && NewPool(first, {})
    && s.steer == Steer(Waiting, FlagsOf(first), |first|, FlagsOf(first), FlagsOf(first))
    && s.toBuild == AsJobs(first) && s.toTest == [] && s.back == []
    && Starts(BuildStage, Builder(s), built) && Starts(TestStage, Tester(s), tested)
  }

  /** A stage that has not started holds no task. */
  lemma NothingInside(stage: Stage, w: World, cache: map<Key, Result>, q: Task -> bool)
    requires Starts(stage, w, cache)
    ensures Inside(q, w.local) == 0 && w.local.dispatcher.Dispatching?
  {
  }

  lemma StartFlight(
    s: System, first: seq<Task>, built: map<Key, Result>, tested: map<Key, Result>, q: Task -> bool)
    requires SystemStarts(s, first, built, tested)
    ensures InFlight(q, s) == Sum(OfTask(q), first)
    ensures Inside(q, s.build) == 0
  {
    NothingInside(BuildStage, Builder(s), built, q);
    NothingInside(TestStage, Tester(s), tested, q);
    JobsOfTasks(q, first);
    hide Inside, Starts;
  }

  lemma StartFlights(s: System, first: seq<Task>, built: map<Key, Result>, tested: map<Key, Result>)
    requires SystemStarts(s, first, built, tested)
    ensures FlightInv(s) && PendingInv(s)
  {
    forall f ensures InFlight(WithFlags(f), s) == One(f in s.steer.awaited) {
      StartFlight(s, first, built, tested, WithFlags(f));
      CountFlags(first, f);
    }
    StartFlight(s, first, built, tested, Any());
    CountAll(first);
    CountFlags(first, first[0].flags);
    hide Starts, InFlight, Sum;
  }

  lemma StartStages(s: System, first: seq<Task>, built: map<Key, Result>, tested: map<Key, Result>)
    requires SystemStarts(s, first, built, tested)
    ensures StagesInv(s) && PillInv(s)
  {
    StartFlight(s, first, built, tested, HasCost());
    NoneTested(first);
    JobsOfTasks(HasCost(), first);
    JobsNoPill(first);
    StartInv(BuildStage, Builder(s), built);
    StartInv(TestStage, Tester(s), tested);
    NothingInside(BuildStage, Builder(s), built, Any());
    NothingInside(TestStage, Tester(s), tested, Any());
    hide Inv, Starts, Inside, InFlight;
  }

  lemma StartSystem(s: System, first: seq<Task>, built: map<Key, Result>, tested: map<Key, Result>)
    requires SystemStarts(s, first, built, tested)
    ensures SysInv(s)
  {
    hide FlightInv, PendingInv, StagesInv, PillInv, SystemStarts;
    StartFlights(s, first, built, tested);
    StartStages(s, first, built, tested);
  }

  /** The state after a sequence of moves, those that are not possible left out. */
  ghost function RunMoves(s: System, moves: seq<Move>): (s': System)
    requires SysInv(s)
    ensures SysInv(s')
    decreases |moves|
  {
    if moves == [] then s
    else
      var prev := RunMoves(s, moves[..|moves| - 1]);
      var m := moves[|moves| - 1];
      if CanMove(prev, m) then
        MoveKeepsInv(prev, m);
        Moved(prev, m)
      else prev
  }

  // ---------------------------------------------------------------- what steering receives

  /** What comes back first is a task the waiting generation awaits, so that steering always finds a
      generation for it, or the pill, which comes when steering has stopped. */
  lemma ReceivedBelongs(s: System)
    requires SysInv(s) && s.back != []
    ensures s.back[0].Job? ==>
        s.back[0].task.flags in s.steer.awaited && s.back[0].task.flags in s.steer.pool && s.steer.mode.Waiting?
    ensures s.back[0].Pill? ==> s.steer.mode.Stopped?
  {
    if s.back[0].Job? {
      ReceivedIsAwaited(s);
      FirstFlies(Any(), s);
    }
  }

  lemma OneEach(ts: seq<Task>, i: nat, j: nat)
    requires i < j < |ts| && Sum(OfTask(WithFlags(ts[i].flags)), ts) <= 1
    ensures ts[i].flags != ts[j].flags
  {
    var q := OfTask(WithFlags(ts[i].flags));
    SumAt(q, ts, i);
    if ts[j].flags == ts[i].flags {
      SumOver(q, RemoveAt(ts, i), j - 1);
    }
    hide Sum;
  }

  /** No two tasks waiting in a helper have equal flags, so that the helper, which removes tasks by
      equality, always removes the one it has resolved (see HelperProcess). */
  lemma HelperRemovesItsOwn(s: System)
    requires SysInv(s)
    ensures PipelineProcesses.FlagsDetermineKey(BuildStage, s.build.waiting)
    ensures PipelineProcesses.FlagsDetermineKey(TestStage, s.test.waiting)
  {
    WaitingDiffer(s, s.build.waiting);
    WaitingDiffer(s, s.test.waiting);
  }

  lemma WaitingDiffer(s: System, ts: seq<Task>)
    requires FlightInv(s) && (ts == s.build.waiting || ts == s.test.waiting)
    ensures Different(ts)
  {
    forall i, j | 0 <= i < j < |ts| ensures ts[i].flags != ts[j].flags {
      assert InFlight(WithFlags(ts[i].flags), s) == One(ts[i].flags in s.steer.awaited);
      hide Sum;
      OneEach(ts, i, j);
    }
  }

  lemma {:induction false} OnlyPills(ms: seq<Msg>)
    requires Sum(OfMsg(Any()), ms) == 0
    ensures |ms| == Sum(OfPill(), ms)
    ensures forall i :: 0 <= i < |ms| ==> ms[i].Pill?
  {
    if ms == [] {
    } else {
      OnlyPills(ms[1..]);
    }
  }

  lemma {:induction false} NoPills(ms: seq<Msg>)
    requires Sum(OfPill(), ms) == 0
    ensures NoPill(ms)
  {
    if ms == [] {
    } else {
      NoPills(ms[1..]);
    }
  }

  lemma {:induction false} NoWorkers(ws: seq<Worker>)
    ensures Sum(OfWorker(Any()), ws) == |ws|
  {
    if ws == [] {
    } else {
      NoWorkers(ws[1..]);
      assert Any()(ws[0].task);
      assert OfWorker(Any())(ws[0]) == 1;
    }
  }

  /** No task is on any queue or inside any stage. */
  ghost predicate Quiet(s: System) {
    && s.build.workers == [] && s.build.waiting == [] && s.test.workers == [] && s.test.waiting == []
    && NoJob(s.toBuild) && NoJob(s.build.helperQueue) && NoJob(s.toTest) && NoJob(s.test.helperQueue) && NoJob(s.back)
  }

  ghost predicate NoJob(ms: seq<Msg>) {
    forall i :: 0 <= i < |ms| ==> ms[i].Pill?
  }

  lemma QuietUnlessWaiting(s: System)
    requires SysInv(s) && !s.steer.mode.Waiting?
    ensures Quiet(s)
    ensures |s.toBuild| == Sum(OfPill(), s.toBuild) && |s.toTest| == Sum(OfPill(), s.toTest) && |s.back| == Sum(OfPill(), s.back)
  {
    OnlyPills(s.toBuild);
    OnlyPills(s.build.helperQueue);
    OnlyPills(s.toTest);
    OnlyPills(s.test.helperQueue);
    OnlyPills(s.back);
    NoWorkers(s.build.workers);
    NoWorkers(s.test.workers);
    CountAll(s.build.waiting);
    CountAll(s.test.waiting);
    hide StagesInv, FlightInv, Sum;
  }

  /** Until steering is past its loop no pill is on any queue. From then on no task is on any queue or
      inside any stage, and exactly one of the three queues holds exactly the pill. After a failed
      assertion there is no task either, and no pill. */
  lemma PillGoesLast(s: System)
    requires SysInv(s)
    ensures !s.steer.mode.Stopped? ==> NoPill(s.toBuild) && NoPill(s.toTest) && NoPill(s.back)
    ensures s.steer.mode.Stopped? ==>
        && Quiet(s)
        && ((s.toBuild == [Pill] && s.toTest == [] && s.back == [])
            || (s.toBuild == [] && s.toTest == [Pill] && s.back == [])
            || (s.toBuild == [] && s.toTest == [] && s.back == [Pill]))
    ensures s.steer.mode.Failed? ==>
        && Quiet(s) && s.toBuild == [] && s.toTest == [] && s.back == []
        && s.build.dispatcher.Dispatching? && s.test.dispatcher.Dispatching?
  {
    if !s.steer.mode.Stopped? {
      NoPills(s.toBuild);
      NoPills(s.toTest);
      NoPills(s.back);
    }
    if !s.steer.mode.Waiting? {
      QuietUnlessWaiting(s);
      hide StagesInv, FlightInv, PendingInv;
    }
  }

  /** All of it, at every point of every run. */
  lemma EveryRun(
    s: System, first: seq<Task>, built: map<Key, Result>, tested: map<Key, Result>, moves: seq<Move>)
    requires SystemStarts(s, first, built, tested)
    ensures SysInv(s)
    ensures var s' := RunMoves(s, moves);
            && InFlight(Any(), s') == s'.steer.pending
            && (!s'.steer.mode.Waiting? ==> InFlight(Any(), s') == 0)
            && (s'.back != [] && s'.back[0].Job? ==> s'.back[0].task.flags in s'.steer.awaited)
            && (s'.steer.mode.Stopped? <==> Pill in s'.toBuild || Pill in s'.toTest || Pill in s'.back)
  {
    StartSystem(s, first, built, tested);
    var s' := RunMoves(s, moves);
    PillGoesLast(s');
    if s'.back != [] {
      ReceivedBelongs(s');
    }
    hide InFlight, FlightInv, StagesInv, PillInv;
  }

  // ---------------------------------------------------------------- every schedule ends

  /** Both stages have shut down. */
  predicate Over(s: System) {
    s.build.dispatcher.Closed? && s.test.dispatcher.Closed?
  }

  /** Steering has failed, and both stages wait for input that will not come. */
  predicate Hung(s: System) {
    && s.steer.mode.Failed? && s.toBuild == [] && s.toTest == [] && s.back == []
    && s.build.dispatcher.Dispatching? && s.test.dispatcher.Dispatching? && Vacant(s.build) && Vacant(s.test)
  }

  predicate Final(s: System) {
    Over(s) || Hung(s)
  }

  ghost predicate Busy(s: System, m: Move) {
    match m
    case Receive(_) => true
    case Build(a) => !Idle(s.build, a)
    case Test(a) => !Idle(s.test, a)
  }

  /** Once hung, nothing but idle looks can happen, for ever. */
  lemma HungForEver(s: System, m: Move)
    requires SysInv(s) && Hung(s) && CanMove(s, m)
    ensures !Busy(s, m) && Hung(Moved(s, m))
  {
    hide SysInv, Inv, StagesInv;
    StagesOf(s);
    match m
    case Receive(_) =>
    case Build(a) => HelpersLook(BuildStage, Builder(s), a);
    case Test(a) => HelpersLook(TestStage, Tester(s), a);
  }

  lemma StagesOf(s: System)
    requires SysInv(s)
    ensures Inv(BuildStage, Builder(s)) && Inv(TestStage, Tester(s))
  {
  }

  /** A dispatching stage with nothing before or in it can only take an idle look. */
  lemma HelpersLook(stage: Stage, w: World, a: Action)
    requires Inv(stage, w) && w.local.dispatcher.Dispatching? && w.inq == [] && Vacant(w.local)
    requires Enabled(stage, w, a) && !a.Feed?
    ensures Idle(w.local, a) && Typed(stage, w.local)
    ensures var w' := Step(stage, w, a);
            && w'.inq == [] && w'.outq == w.outq && Vacant(w'.local) && w'.local.dispatcher.Dispatching?
  {
    hide KeysInv, WaitInv, ResultsInv, FreshInv;
    assert Idle(w.local, a);
    IdleStep(stage, w, a);
    hide Step, Effect, Output;
  }

  /** Nearer to the end: fewer flag sets left to try, or as many and less to do. */
  ghost predicate Nearer(space: set<Flags>, s': System, s: System) {
    var left, left' := |space - s.steer.cache|, |space - s'.steer.cache|;
    || (s.steer.mode.Waiting? && !s'.steer.mode.Waiting?)
    || (s'.steer.mode == s.steer.mode
        && (left' < left || (left' == left && LessToDo(s', s))))
  }

  ghost predicate LessToDo(s': System, s: System) {
    var b, b', t, t' := Remaining(Builder(s)), Remaining(Builder(s')), Remaining(Tester(s)), Remaining(Tester(s'));
    b' < b || (b' == b && (t' < t || (t' == t && |s'.back| < |s.back|)))
  }

  lemma ReceiveCounts(space: set<Flags>, s: System, m: Move)
    requires CanMove(s, m) && PendingInv(s) && m.Receive? && FlagsOf(PoolOf(m.reply)) <= space
    ensures Nearer(space, Moved(s, m), s)
  {
    hide InFlight, RemainingInside;
    assert s.toBuild + [] == s.toBuild;
    if s.steer.pending == 1 && m.reply.NextPool? && m.reply.tasks != [] {
      NewUses(space, s.steer.cache, m.reply.tasks);
    }
  }

  lemma NewUses(space: set<Flags>, cache: set<Flags>, tasks: seq<Task>)
    requires NewPool(tasks, cache) && tasks != [] && FlagsOf(tasks) <= space
    ensures |space - (cache + FlagsOf(tasks))| < |space - cache|
  {
    assert tasks[0].flags in FlagsOf(tasks);
    LeavesLess(space, cache, FlagsOf(tasks));
  }

  /** Every move but an idle look at a helper's queues brings the end nearer. */
  lemma EveryMoveCounts(space: set<Flags>, s: System, m: Move)
    requires CanMove(s, m) && SysInv(s) && Busy(s, m)
    requires m.Receive? ==> FlagsOf(PoolOf(m.reply)) <= space
    ensures Nearer(space, Moved(s, m), s)
  {
    hide FlightInv, PillInv, Remaining, Inv, Idle;
    match m
    case Receive(_) => ReceiveCounts(space, s, m);
    case Build(a) => BusyStep(BuildStage, Builder(s), a);
    case Test(a) =>
      BusyStep(TestStage, Tester(s), a);
      OutputOnly(s, m);
  }

  lemma OutputOnly(s: System, m: Move)
    requires CanMove(s, m) && m.Test?
    ensures Remaining(Builder(Moved(s, m))) == Remaining(Builder(s))
  {
  }

  /** What an idle look leaves as it is. */
  ghost predicate AsNear(s': System, s: System) {
    && s'.steer == s.steer && s'.back == s.back
    && Remaining(Builder(s')) == Remaining(Builder(s)) && Remaining(Tester(s')) == Remaining(Tester(s))
  }

  lemma IdleMove(s: System, m: Move)
    requires CanMove(s, m) && !Busy(s, m)
    ensures AsNear(Moved(s, m), s)
  {
    hide Remaining, Idle;
    match m
    case Build(a) => IdleStep(BuildStage, Builder(s), a);
    case Test(a) => IdleStep(TestStage, Tester(s), a);
    case Receive(_) =>
  }

  /** As long as the stages have neither shut down nor hang there is a busy move. */
  lemma AlwaysBusy(s: System) returns (m: Move)
    requires SysInv(s) && !Final(s)
    ensures CanMove(s, m) && Busy(s, m) && (m.Receive? ==> m.reply == NoMore)
  {
    if HasWork(s.build, s.toBuild) {
      var a := NeverStuck(BuildStage, Builder(s));
      m := Build(a);
    } else if HasWork(s.test, s.toTest) {
      var a := NeverStuck(TestStage, Tester(s));
      m := Test(a);
    } else {
      SomethingBack(s);
      m := Receive(NoMore);
    }
  }

  /** Not shut down, and not just waiting for input with nothing inside. */
  predicate HasWork(s: Local, inq: seq<Msg>) {
    !s.dispatcher.Closed? && (s.dispatcher.Dispatching? ==> inq != [] || !Vacant(s))
  }

  lemma SomethingBack(s: System)
    requires SysInv(s) && !Final(s) && !HasWork(s.build, s.toBuild) && !HasWork(s.test, s.toTest)
    ensures s.steer.mode.Waiting? && s.back != [] && s.back[0].Job?
  {
    PillGoesLast(s);
    hide StagesInv, FlightInv;
  }

  /** The moves a scheduler chooses, from its i-th choice on. */
  ghost function Follow(s: System, choose: (nat, System) -> Move, i: nat, n: nat): System
    decreases n
  {
    if n == 0 || !CanMove(s, choose(i, s)) then s else Follow(Moved(s, choose(i, s)), choose, i + 1, n - 1)
  }

  /** A fair scheduler: helpers may look at their empty queues whenever it likes, but each time only so
      often, `wait` many times at most, until someone with something to do moves. The algorithms
      keep within a finite space. */
  ghost predicate Fair(choose: (nat, System) -> Move, wait: (nat, System) -> nat, space: set<Flags>) {
    forall i: nat, s: System :: SysInv(s) && !Final(s) ==> FairChoice(choose, wait, space, i, s)
  }

  ghost predicate FairChoice(
    choose: (nat, System) -> Move, wait: (nat, System) -> nat, space: set<Flags>, i: nat, s: System)
  {
    var m := choose(i, s);
    && CanMove(s, m) && (m.Receive? ==> FlagsOf(PoolOf(m.reply)) <= space)
    && (Busy(s, m) || wait(i + 1, Moved(s, m)) < wait(i, s))
  }

  /** Under every fair schedule the circle comes to its end: both stages have shut down and the pill is
      back, or steering's assertion has failed and both stages hang. */
  lemma {:induction false} EveryScheduleEnds(
    space: set<Flags>, s: System, choose: (nat, System) -> Move, wait: (nat, System) -> nat, i: nat) returns (n: nat)
    requires SysInv(s) && Fair(choose, wait, space)
    ensures var end := Follow(s, choose, i, n);
            SysInv(end) && if end.steer.mode.Failed? then Hung(end) else Over(end) && end.steer.mode.Stopped? && end.back == [Pill]
    decreases s.steer.mode.Waiting?, |space - s.steer.cache|, Remaining(Builder(s)), Remaining(Tester(s)), |s.back|, wait(i, s)
  {
    hide Moved, Remaining, CanMove, Busy, SysInv, Fair, Final, Builder, Tester;
    if Final(s) {
      n := 0;
      FinalIsQuiet(s);
    } else {
      var m := Chosen(space, s, choose, wait, i);
      MoveKeepsInv(s, m);
      n := EveryScheduleEnds(space, Moved(s, m), choose, wait, i + 1);
      n := n + 1;
    }
  }

  lemma Chosen(space: set<Flags>, s: System, choose: (nat, System) -> Move, wait: (nat, System) -> nat, i: nat)
    returns (m: Move)
    requires SysInv(s) && Fair(choose, wait, space) && !Final(s)
    ensures m == choose(i, s) && CanMove(s, m)
    ensures Nearer(space, Moved(s, m), s) || (AsNear(Moved(s, m), s) && wait(i + 1, Moved(s, m)) < wait(i, s))
  {
    hide SysInv, CanMove, Busy, Final, Moved, Nearer, AsNear;
    m := choose(i, s);
    assert FairChoice(choose, wait, space, i, s);
    if Busy(s, m) {
      EveryMoveCounts(space, s, m);
    } else {
      IdleMove(s, m);
    }
  }

  lemma FinalIsQuiet(s: System)
    requires SysInv(s) && Final(s)
    ensures if s.steer.mode.Failed? then Hung(s) else Over(s) && s.steer.mode.Stopped? && s.back == [Pill]
  {
    PillGoesLast(s);
    hide InFlight, FlightInv, StagesInv;
  }
}
