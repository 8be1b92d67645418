/** Steering, builder and tester in a circle of queues: steering's tasks go through the build stage
    and the test stage and come back. Steps of the three interleave freely. */
module ClosedLoop {
  import opened Sequences
  import opened FlagSets
  import opened Pipeline
  import opened PipelineSafety

  /** Waiting for tasks, past the loop, or stopped by the assertion that a new pool has a task. */
  datatype Mode = Waiting | Stopped | Failed

  /** Steering between two turns of its loop. `awaited` records which tasks of the waiting generation
      have not come back; the loop itself only counts them in `pending`. */
  datatype Steer = Steer(mode: Mode, pool: set<Flags>, pending: int, cache: set<Flags>, awaited: set<Flags>)

  /** What a finished generation comes up with. */
  datatype Reply = NoMore | NextPool(tasks: seq<Task>)

  function PoolOf(reply: Reply): seq<Task> {
    match reply
    case NoMore => []
    case NextPool(tasks) => tasks
  }

  datatype System = System(
    steer: Steer, toBuild: seq<Msg>, build: Local, toTest: seq<Msg>, test: Local, back: seq<Msg>)

  datatype Move =
    | Receive(reply: Reply)  // steering takes a task back; the reply matters if this ends a generation
    | Build(a: Action)
    | Test(a: Action)

  function Builder(s: System): World {
    World(s.toBuild, s.build, s.toTest)
  }

  function Tester(s: System): World {
    World(s.toTest, s.test, s.back)
  }

  ghost predicate CanMove(s: System, m: Move) {
    match m
    case Receive(reply) =>
      s.steer.mode.Waiting? && s.back != [] && s.back[0].Job? && NewPool(PoolOf(reply), s.steer.cache)
    case Build(a) => !a.Feed? && Enabled(BuildStage, Builder(s), a) && Typed(BuildStage, s.build)
    case Test(a) => !a.Feed? && Enabled(TestStage, Tester(s), a) && Typed(TestStage, s.test)
  }

  /** Steering's turn: UpdateTask, and when that was the last pending task either the next pool, which
      must have a task, or the end of the loop. */
  function Received(st: Steer, t: Task, reply: Reply): Steer {
    var st' := st.(pending := st.pending - 1, awaited := st.awaited - {t.flags});
    if st'.pending != 0 then st'
    else
      match reply
      case NoMore => st'.(mode := Stopped)
      case NextPool(tasks) =>
        if tasks == [] then st'.(mode := Failed)
        else Steer(Waiting, FlagsOf(tasks), |tasks|, st.cache + FlagsOf(tasks), FlagsOf(tasks))
  }

  /** What that sends: the new tasks, or the pill behind the loop. */
  function SentOut(st: Steer, reply: Reply): seq<Msg> {
    if st.pending != 1 then []
    else
      match reply
      case NoMore => [Pill]
      case NextPool(tasks) => AsJobs(tasks)
  }

  function Moved(s: System, m: Move): System
    requires CanMove(s, m)
  {
    match m
    case Receive(reply) =>
      s.(steer := Received(s.steer, s.back[0].task, reply),
         toBuild := s.toBuild + SentOut(s.steer, reply),
         back := s.back[1..])
    case Build(a) =>
      var w := Step(BuildStage, Builder(s), a);
      s.(toBuild := w.inq, build := w.local, toTest := w.outq)
    case Test(a) =>
      var w := Step(TestStage, Tester(s), a);
      s.(toTest := w.inq, test := w.local, back := w.outq)
  }

  // ---------------------------------------------------------------- tasks in flight

  /** How many tasks with property q are between steering's two queues. */
  function InFlight(q: Task -> bool, s: System): nat {
    Sum(OfMsg(q), s.toBuild) + Inside(q, s.build) + Sum(OfMsg(q), s.toTest) + Inside(q, s.test) + Sum(OfMsg(q), s.back)
  }

  function Any(): Task -> bool {
    (t: Task) => true
  }

  function WithFlags(f: Flags): Task -> bool {
    (t: Task) => t.flags == f
  }

  function HasCost(): Task -> bool {
    (t: Task) => t.cost.Some?
  }

  /** A stage's step leaves the tasks between the start of its input and the end of its output. */
  lemma StageFlow(stage: Stage, q: Task -> bool, w: World, a: Action)
    requires !a.Feed? && Enabled(stage, w, a) && Typed(stage, w.local) && Stable(stage, q)
    ensures var w' := Step(stage, w, a);
            Sum(OfMsg(q), w'.inq) + Inside(q, w'.local) + Sum(OfMsg(q), w'.outq)
            == Sum(OfMsg(q), w.inq) + Inside(q, w.local) + Sum(OfMsg(q), w.outq)
  {
    StepConserves(stage, q, w, a);
    SumJoin(OfMsg(q), w.outq, Output(stage, w, a));
    InputFlow(q, w, a);
    hide Sum, Effect, Output;
  }

  lemma InputFlow(q: Task -> bool, w: World, a: Action)
    requires a.Take? ==> w.inq != []
    ensures Sum(OfMsg(q), Input(w, a)) + Sum(OfMsg(q), if a.Take? then w.inq[1..] else w.inq) == Sum(OfMsg(q), w.inq)
  {
  }

  lemma StageMoveFlow(q: Task -> bool, s: System, m: Move)
    requires CanMove(s, m) && !m.Receive?
    requires Stable(BuildStage, q) && Stable(TestStage, q)
    ensures InFlight(q, Moved(s, m)) == InFlight(q, s)
  {
    match m
    case Build(a) => StageFlow(BuildStage, q, Builder(s), a); hide Sum, Step;
    case Test(a) => StageFlow(TestStage, q, Tester(s), a); hide Sum, Step;
    case Receive(_) =>
  }

  lemma ReceiveFlow(q: Task -> bool, s: System, m: Move)
    requires CanMove(s, m) && m.Receive?
    ensures InFlight(q, Moved(s, m)) + One(q(s.back[0].task)) == InFlight(q, s) + Sum(OfMsg(q), SentOut(s.steer, m.reply))
  {
    SumJoin(OfMsg(q), s.toBuild, SentOut(s.steer, m.reply));
  }

  lemma {:induction false} CountAll(ts: seq<Task>)
    ensures Sum(OfTask(Any()), ts) == |ts|
  {
    if ts == [] {
    } else {
      CountAll(ts[1..]);
    }
  }

  lemma {:induction false} CountFlags(ts: seq<Task>, f: Flags)
    requires Different(ts)
    ensures Sum(OfTask(WithFlags(f)), ts) == One(f in FlagsOf(ts))
    ensures |FlagsOf(ts)| == |ts|
  {
    if ts == [] {
    } else {
      CountFlags(ts[1..], f);
      assert ts == [ts[0]] + ts[1..];
      assert FlagsOf(ts) == {ts[0].flags} + FlagsOf(ts[1..]);
      assert ts[0].flags !in FlagsOf(ts[1..]);
    }
  }

  /** What steering sends with a property: that of the next pool, if this is the moment. */
  lemma SentOutCount(q: Task -> bool, st: Steer, reply: Reply)
    ensures Sum(OfMsg(q), SentOut(st, reply)) == if st.pending == 1 then Sum(OfTask(q), PoolOf(reply)) else 0
  {
    JobsOfTasks(q, PoolOf(reply));
  }

  lemma FirstFlies(q: Task -> bool, s: System)
    requires s.back != [] && s.back[0].Job? && q(s.back[0].task)
    ensures InFlight(q, s) > 0
  {
  }

  // ---------------------------------------------------------------- what is in flight is awaited

  /** What is in flight is what the waiting generation awaits, each task once. */
  ghost predicate FlightInv(s: System) {
    forall f :: InFlight(WithFlags(f), s) == One(f in s.steer.awaited)
  }

  /** The pending counter is the number of tasks in flight; steering waits while it is not zero. */
  ghost predicate PendingInv(s: System) {
    && InFlight(Any(), s) == s.steer.pending == |s.steer.awaited|
    && s.steer.awaited <= s.steer.pool <= s.steer.cache
    && (s.steer.mode.Waiting? <==> s.steer.pending != 0)
  }

  lemma ReceivedIsAwaited(s: System)
    requires FlightInv(s) && s.back != [] && s.back[0].Job?
    ensures s.back[0].task.flags in s.steer.awaited
  {
    var f := s.back[0].task.flags;
    FirstFlies(WithFlags(f), s);
    assert InFlight(WithFlags(f), s) == One(f in s.steer.awaited);
  }

  lemma LastAwaited(s: System)
    requires PendingInv(s) && s.steer.pending == 1 && s.back != [] && s.back[0].Job?
    requires s.back[0].task.flags in s.steer.awaited
    ensures s.steer.awaited == {s.back[0].task.flags}
  {
    var f := s.back[0].task.flags;
    assert |s.steer.awaited - {f}| == 0;
    assert s.steer.awaited == {f} + (s.steer.awaited - {f});
  }

  lemma ReceiveFlight(s: System, m: Move, f: Flags)
    requires CanMove(s, m) && m.Receive? && FlightInv(s) && PendingInv(s)
    ensures InFlight(WithFlags(f), Moved(s, m)) == One(f in Moved(s, m).steer.awaited)
  {
    ReceivedIsAwaited(s);
    ReceiveFlow(WithFlags(f), s, m);
    SentOutCount(WithFlags(f), s.steer, m.reply);
    CountFlags(PoolOf(m.reply), f);
    assert InFlight(WithFlags(f), s) == One(f in s.steer.awaited);
    if s.steer.pending == 1 {
      LastAwaited(s);
    }
    hide InFlight, Sum, FlightInv;
  }

  lemma FlightStep(s: System, m: Move)
    requires CanMove(s, m) && FlightInv(s) && PendingInv(s)
    ensures FlightInv(Moved(s, m))
  {
    var s' := Moved(s, m);
    forall f ensures InFlight(WithFlags(f), s') == One(f in s'.steer.awaited) {
      if m.Receive? {
        ReceiveFlight(s, m, f);
      } else {
        assert InFlight(WithFlags(f), s) == One(f in s.steer.awaited);
        StageMoveFlow(WithFlags(f), s, m);
      }
    }
  }

  lemma ReceivePending(s: System, m: Move)
    requires CanMove(s, m) && m.Receive? && FlightInv(s) && PendingInv(s)
    ensures PendingInv(Moved(s, m))
  {
    ReceivedIsAwaited(s);
    ReceiveFlow(Any(), s, m);
    SentOutCount(Any(), s.steer, m.reply);
    CountAll(PoolOf(m.reply));
    CountFlags(PoolOf(m.reply), s.back[0].task.flags);
    if s.steer.pending == 1 {
      LastAwaited(s);
    }
    hide InFlight, Sum, FlightInv;
  }

  lemma PendingStep(s: System, m: Move)
    requires CanMove(s, m) && FlightInv(s) && PendingInv(s)
    ensures PendingInv(Moved(s, m))
  {
    if m.Receive? {
      ReceivePending(s, m);
    } else {
      StageMoveFlow(Any(), s, m);
    }
  }

  // ---------------------------------------------------------------- the stages keep their invariants

  /** No task has been tested before it reaches the tester. */
  ghost predicate Untested(s: System) {
    Sum(OfMsg(HasCost()), s.toBuild) + Inside(HasCost(), s.build) == 0
  }

  ghost predicate StagesInv(s: System) {
    Inv(BuildStage, Builder(s)) && Inv(TestStage, Tester(s)) && Untested(s)
  }

  lemma {:induction false} NoneTested(ts: seq<Task>)
    requires forall i :: 0 <= i < |ts| ==> ts[i].cost == None
    ensures Sum(OfTask(HasCost()), ts) == 0
  {
    if ts == [] {
    } else {
      NoneTested(ts[1..]);
    }
  }

  /** More input keeps a stage's invariant if it is fresh; its output is not part of it. */
  lemma MoreInput(stage: Stage, w: World, ms: seq<Msg>, outq: seq<Msg>)
    requires Inv(stage, w) && forall i :: 0 <= i < |ms| && ms[i].Job? ==> Fresh(stage, ms[i].task)
    ensures Inv(stage, World(w.inq + ms, w.local, outq))
  {
    hide Typed, PhaseInv, KeysInv, WaitInv, ResultsInv, Fresh;
  }

  /** A stage with no task of a kind before it or in it puts none out. */
  lemma NoneFlows(stage: Stage, q: Task -> bool, w: World, a: Action)
    requires !a.Feed? && Enabled(stage, w, a) && Typed(stage, w.local) && Stable(stage, q)
    requires Sum(OfMsg(q), w.inq) + Inside(q, w.local) == 0
    ensures Sum(OfMsg(q), Output(stage, w, a)) == 0
    ensures var w' := Step(stage, w, a);
            Sum(OfMsg(q), w'.inq) + Inside(q, w'.local) == 0
  {
    StepConserves(stage, q, w, a);
    InputFlow(q, w, a);
    hide Effect, Output, Sum, Enabled;
  }

  /** What the builder puts out, the tester can take. */
  lemma BuiltIsFresh(s: System, a: Action)
    requires CanMove(s, Build(a)) && StagesInv(s)
    ensures var out := Output(BuildStage, Builder(s), a);
            forall i :: 0 <= i < |out| && out[i].Job? ==> Fresh(TestStage, out[i].task)
    ensures Untested(Moved(s, Build(a)))
  {
    var w := Builder(s);
    var out := Output(BuildStage, w, a);
    OutputCarries(BuildStage, w, a);
    NoneFlows(BuildStage, HasCost(), w, a);
    hide Effect, Output, Inv, KeyOf, Inside, Enabled;
    forall i | 0 <= i < |out| && out[i].Job? ensures Fresh(TestStage, out[i].task) {
      assert out[i] in out;
      SumOver(OfMsg(HasCost()), out, i);
    }
  }

  /** A new pool is fresh to the builder, and untested. */
  lemma SentOutFresh(st: Steer, reply: Reply)
    requires NewPool(PoolOf(reply), st.cache)
    ensures var out := SentOut(st, reply);
            && Sum(OfMsg(HasCost()), out) == 0
            && forall i :: 0 <= i < |out| && out[i].Job? ==> Fresh(BuildStage, out[i].task)
  {
    SentOutCount(HasCost(), st, reply);
    NoneTested(PoolOf(reply));
  }

  lemma ReceiveUntested(s: System, m: Move)
    requires CanMove(s, m) && m.Receive? && Untested(s)
    ensures Untested(Moved(s, m))
  {
    SentOutFresh(s.steer, m.reply);
    SumJoin(OfMsg(HasCost()), s.toBuild, SentOut(s.steer, m.reply));
    hide Inside, Sum, Fresh, NewPool, Received, SentOut;
  }

  lemma ReceiveStages(s: System, m: Move)
    requires CanMove(s, m) && m.Receive? && StagesInv(s)
    ensures StagesInv(Moved(s, m))
  {
    hide Inv, Untested, Fresh, NewPool, Received, SentOut;
    SentOutFresh(s.steer, m.reply);
    ReceiveUntested(s, m);
    MoreInput(BuildStage, Builder(s), SentOut(s.steer, m.reply), s.toTest);
    MoreInput(TestStage, Tester(s), [], s.back[1..]);
    assert s.toTest + [] == s.toTest;
  }

  lemma StagesStep(s: System, m: Move)
    requires CanMove(s, m) && StagesInv(s)
    ensures StagesInv(Moved(s, m))
  {
    match m
    case Receive(_) => ReceiveStages(s, m);
    case Build(a) =>
      StepKeepsInv(BuildStage, Builder(s), a);
      BuiltIsFresh(s, a);
      MoreInput(TestStage, Tester(s), Output(BuildStage, Builder(s), a), s.back);
      hide Inv, Untested, Output, Effect;
    case Test(a) =>
      StepKeepsInv(TestStage, Tester(s), a);
      MoreInput(BuildStage, Builder(s), [], Moved(s, m).toTest);
      assert s.toBuild + [] == s.toBuild;
      hide Inv, Output, Effect;
  }

  // ---------------------------------------------------------------- the pill

  function OfPill(): Msg -> nat {
    (m: Msg) => One(m.Pill?)
  }

  /** One pill once steering has stopped: on its way to the builder, to the tester, or back. */
  ghost predicate PillInv(s: System) {
    var building, testing := s.build.dispatcher.Dispatching?, s.test.dispatcher.Dispatching?;
    && (!building ==> s.steer.mode.Stopped?) && (!testing ==> !building)
    && Sum(OfPill(), s.toBuild) == One(s.steer.mode.Stopped? && building)
    && Sum(OfPill(), s.toTest) == One(!building && testing)
    && Sum(OfPill(), s.back) == One(!testing)
  }

  lemma {:induction false} JobsNoPill(ts: seq<Task>)
    ensures Sum(OfPill(), AsJobs(ts)) == 0
  {
    if ts == [] {
    } else {
      JobsNoPill(ts[1..]);
      assert AsJobs(ts)[1..] == AsJobs(ts[1..]);
    }
  }

  /** A stage passes the pill on when it takes it, and stops dispatching. */
  lemma StagePill(stage: Stage, w: World, a: Action)
    requires !a.Feed? && Enabled(stage, w, a) && Typed(stage, w.local)
    ensures var passes := w.local.dispatcher.Dispatching? && !Effect(stage, w, a).dispatcher.Dispatching?;
            && Sum(OfPill(), Output(stage, w, a)) == One(passes)
            && Sum(OfPill(), Input(w, a)) == One(passes)
    ensures !w.local.dispatcher.Dispatching? ==> !Effect(stage, w, a).dispatcher.Dispatching?
  {
    var s := w.local;
    if s.completed != [] {
      JobsNoPill(Resolved(stage, Matching(stage, s.completed[0].key, s.waiting), s.completed[0].result));
    }
  }

  /** So the pills on a stage's queues change only when it passes the pill on. */
  lemma StagePillFlow(stage: Stage, w: World, a: Action)
    requires !a.Feed? && Enabled(stage, w, a) && Typed(stage, w.local)
    ensures var w' := Step(stage, w, a);
            var passes := One(w.local.dispatcher.Dispatching? && !w'.local.dispatcher.Dispatching?);
            && Sum(OfPill(), w'.inq) + passes == Sum(OfPill(), w.inq)
            && Sum(OfPill(), w'.outq) == Sum(OfPill(), w.outq) + passes
    ensures !w.local.dispatcher.Dispatching? ==> !Step(stage, w, a).local.dispatcher.Dispatching?
  {
    StagePill(stage, w, a);
    SumJoin(OfPill(), w.outq, Output(stage, w, a));
    hide Effect, Output;
  }

  lemma PillStep(s: System, m: Move)
    requires CanMove(s, m) && PendingInv(s) && PillInv(s)
    ensures PillInv(Moved(s, m))
  {
    match m
    case Receive(reply) =>
      JobsNoPill(PoolOf(reply));
      SumJoin(OfPill(), s.toBuild, SentOut(s.steer, reply));
      hide InFlight;
    case Build(a) => StagePillFlow(BuildStage, Builder(s), a); hide Step, Sum;
    case Test(a) => StagePillFlow(TestStage, Tester(s), a); hide Step, Sum;
  }
}
