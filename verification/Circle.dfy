/** The whole circle at work: steering's objects (module SteeringLoop) taking tasks from and giving
    tasks to the two stages (module ClosedLoop), until everything has come to an end. */
module Circle {
  import opened Sequences
  import opened FlagSets
  import opened FlagNeighbours
  import opened HillClimb
  import opened SteeringLoop
  import opened Pipeline
  import opened PipelineProgress
  import opened ClosedLoop
  import opened ClosedLoopRuns
  import opened ClosedLoopCosts

  /** Who is to move next: steering, or a process of one of the stages. */
  datatype Turn = BySteering | ByStage(move: Move)

  /** A scheduler for the circle. It is fair, as module ClosedLoopRuns says, and its workers do what the
      lab does. */
  ghost predicate Schedule(lab: Lab, choose: (nat, System) -> Turn, wait: (nat, System) -> nat) {
    forall i: nat, s: System :: SysInv(s) && !Final(s) ==> Allowed(lab, choose, wait, i, s)
  }

  ghost predicate Allowed(lab: Lab, choose: (nat, System) -> Turn, wait: (nat, System) -> nat, i: nat, s: System) {
    match choose(i, s)
    case BySteering => CanReceive(s)
    case ByStage(m) =>
      && !m.Receive? && CanMove(s, m) && HonestMove(lab, s, m)
      && (Busy(s, m) || wait(i + 1, Moved(s, m)) < wait(i, s))
  }

  ghost predicate CanReceive(s: System) {
    s.steer.mode.Waiting? && s.back != [] && s.back[0].Job?
  }

  function RightResult(lab: Lab, k: Key): Result {
    match k
    case FlagsKey(f) => Built(lab.build(f))
    case ChecksumKey(c) => Tested(lab.test(c))
  }

  /** The action with what the lab has to report. */
  function Honestly(lab: Lab, stage: Stage, w: World, a: Action): Action {
    if a.Report? && a.i < |w.local.workers| then Report(a.i, RightResult(lab, KeyOf(stage, w.local.workers[a.i].task))) else a
  }

  lemma HonestlyEnabled(lab: Lab, stage: Stage, w: World, a: Action)
    requires Enabled(stage, w, a)
    ensures var a' := Honestly(lab, stage, w, a);
            Enabled(stage, w, a') && Honest(lab, stage, w, a') && (Idle(w.local, a') <==> Idle(w.local, a))
            && (a'.Feed? <==> a.Feed?)
  {
  }

  /** Such schedulers exist: until the end someone always has something to do. */
  lemma SomeoneCanMove(lab: Lab, s: System) returns (turn: Turn)
    requires SysInv(s) && !Final(s)
    ensures match turn
            case BySteering => CanReceive(s)
            case ByStage(m) => !m.Receive? && CanMove(s, m) && HonestMove(lab, s, m) && Busy(s, m)
  {
    var m := AlwaysBusy(s);
    hide SysInv, Final, Enabled, Idle, Honest, Honestly;
    match m {
      case Receive(_) => turn := BySteering;
      case Build(a) =>
        HonestlyEnabled(lab, BuildStage, Builder(s), a);
        turn := ByStage(Build(Honestly(lab, BuildStage, Builder(s), a)));
      case Test(a) =>
        HonestlyEnabled(lab, TestStage, Tester(s), a);
        turn := ByStage(Test(Honestly(lab, TestStage, Tester(s), a)));
    }
  }

  /** The objects and the state of the circle between two turns: the waiting generation awaits what is
      in flight, and what comes back carries its cost. */
  ghost predicate Together(
    kind: Algorithm, lab: Lab, waiting: seq<Generation>, s: System, last: Last, space: seq<Spec>, top: int, k: nat)
    reads waiting
  {
    && SysInv(s) && CostInv(lab, s)
    && Steered(kind, lab.CostOf, waiting, s.steer.cache, s.steer.awaited, last, space, top, k)
    && (waiting != [] <==> s.steer.mode.Waiting?)
    && (waiting == [] ==> (s.steer.mode.Failed? <==> last.ending.EmptyPool?))
  }

  /** The reply that a turn of steering amounts to: `over` when no generation waits any more, `failed`
      when that is because the assertion failed. */
  function ReplyOf(over: bool, failed: bool, sent: seq<Task>): Reply {
    if over && !failed then NoMore else NextPool(sent)
  }

  /** A turn of steering is a Receive of the circle. */
  lemma TurnIsReceive(s: System, over: bool, failed: bool, sent: seq<Task>, cache: set<Flags>, inflight: set<Flags>)
    requires SysInv(s) && CanReceive(s)
    requires NewPool(sent, s.steer.cache) && cache == s.steer.cache + FlagsOf(sent)
    requires var left := s.steer.awaited - {s.back[0].task.flags};
             && (left != {} ==> !over && sent == [] && inflight == left)
             && (left == {} ==> inflight == FlagsOf(sent) && (over <==> sent == []))
    ensures var m := Receive(ReplyOf(over, failed, sent));
            && CanMove(s, m) && FlagsOf(PoolOf(m.reply)) <= cache
            && Moved(s, m).steer.cache == cache && Moved(s, m).steer.awaited == inflight
            && (over <==> !Moved(s, m).steer.mode.Waiting?)
            && (over ==> (Moved(s, m).steer.mode.Failed? <==> failed))
  {
    hide SysInv, NewPool, CanMove, Moved, CanReceive;
    NothingNew(s.steer.cache);
    LastOne(s);
    MayReceive(s, ReplyOf(over, failed, sent));
    hide FlagsOf;
  }

  lemma MayReceive(s: System, reply: Reply)
    requires CanReceive(s) && NewPool(PoolOf(reply), s.steer.cache)
    ensures CanMove(s, Receive(reply)) && s.steer.mode.Waiting?
    ensures Moved(s, Receive(reply)).steer == Received(s.steer, s.back[0].task, reply)
  {
  }

  lemma LastOne(s: System)
    requires SysInv(s) && CanReceive(s)
    ensures s.steer.awaited - {s.back[0].task.flags} == {} <==> s.steer.pending == 1
  {
    ReceivedBelongs(s);
    assert |s.steer.awaited - {s.back[0].task.flags}| == s.steer.pending - 1;
    hide InFlight, FlightInv, StagesInv, PillInv;
  }

  /** What the objects need to know to take the task that comes back. */
  lemma TaskIsBack(
    kind: Algorithm, lab: Lab, waiting: seq<Generation>, s: System, last: Last, space: seq<Spec>, top: int, k: nat)
    requires Together(kind, lab, waiting, s, last, space, top, k) && CanReceive(s)
    ensures waiting != [] && s.back[0].task.flags in s.steer.awaited && CarriesCost(lab.CostOf, s.back[0].task)
    ensures Steered(kind, lab.CostOf, waiting, s.steer.cache, s.steer.awaited, last, space, top, k)
    ensures SysInv(s) && CostInv(lab, s) && s.steer.awaited <= s.steer.cache
  {
    ReceivedBelongs(s);
    hide FlightInv, StagesInv, PillInv, Inside, Sum;
  }

  method SteeringsTurn(
    ghost kind: Algorithm, ghost lab: Lab, waiting: seq<Generation>, s: System, last: Last,
    ghost space: seq<Spec>, ghost top: int, ghost k: nat)
    returns (waiting': seq<Generation>, s': System, last': Last, ghost k': nat)
    requires Together(kind, lab, waiting, s, last, space, top, k) && CanReceive(s)
    modifies waiting
    ensures Together(kind, lab, waiting', s', last', space, top, k') && Nearer(Space(space), s', s)
    ensures waiting' == [] || waiting' == waiting || (|waiting'| == 1 && fresh(waiting'[0]))
    ensures s.steer.cache <= s'.steer.cache
  {
    TaskIsBack(kind, lab, waiting, s, last, space, top, k);
    var task := s.back[0].task;
    hide *;
    var sent, cache', inflight';
    waiting', sent, cache', inflight', last', k' :=
      SteerTurn(kind, lab.CostOf, waiting, task, s.steer.cache, s.steer.awaited, last, space, top, k);
    TurnIsReceive(s, waiting' == [], last'.ending.EmptyPool?, sent, cache', inflight');
    var m := Receive(ReplyOf(waiting' == [], last'.ending.EmptyPool?, sent));
    s' := Moved(s, m);
    Rejoined(kind, lab, waiting', s, m, last', space, top, k');
  }

  /** After a Receive the objects and the circle fit together again. */
  lemma Rejoined(
    kind: Algorithm, lab: Lab, waiting: seq<Generation>, s: System, m: Move, last: Last, space: seq<Spec>, top: int, k: nat)
    requires SysInv(s) && CostInv(lab, s) && CanMove(s, m) && m.Receive?
    requires var s' := Moved(s, m);
             && Steered(kind, lab.CostOf, waiting, s'.steer.cache, s'.steer.awaited, last, space, top, k)
             && FlagsOf(PoolOf(m.reply)) <= s'.steer.cache
             && (waiting != [] <==> s'.steer.mode.Waiting?)
             && (waiting == [] ==> (s'.steer.mode.Failed? <==> last.ending.EmptyPool?))
    ensures Together(kind, lab, waiting, Moved(s, m), last, space, top, k) && Nearer(Space(space), Moved(s, m), s)
  {
    hide FlightInv, PendingInv, StagesInv, PillInv, CostInv, Moved, CanMove, Nearer, Space;
    MoveKeepsInv(s, m);
    CostsStayRight(lab, s, m);
    EveryMoveCounts(Space(space), s, m);
  }

  /** A turn of the scheduler's choice. */
  method CircleTurn(
    ghost kind: Algorithm, ghost lab: Lab, waiting: seq<Generation>, s: System, turn: Turn, last: Last,
    ghost space: seq<Spec>, ghost top: int, ghost k: nat)
    returns (waiting': seq<Generation>, s': System, last': Last, ghost k': nat)
    requires Together(kind, lab, waiting, s, last, space, top, k)
    requires match turn
             case BySteering => CanReceive(s)
             case ByStage(m) => !m.Receive? && CanMove(s, m) && HonestMove(lab, s, m)
    modifies waiting
    ensures Together(kind, lab, waiting', s', last', space, top, k') && s.steer.cache <= s'.steer.cache
    ensures waiting' == [] || waiting' == waiting || (|waiting'| == 1 && fresh(waiting'[0]))
    ensures turn.BySteering? ==> Nearer(Space(space), s', s)
    ensures turn.ByStage? ==>
        && CanMove(s, turn.move) && s' == Moved(s, turn.move)
        && (Busy(s, turn.move) ==> Nearer(Space(space), s', s)) && (!Busy(s, turn.move) ==> AsNear(s', s))
  {
    hide SysInv, CostInv, Together, Nearer, AsNear, Busy, CanReceive, CanMove, Moved, HonestMove;
    match turn
    case BySteering =>
      waiting', s', last', k' := SteeringsTurn(kind, lab, waiting, s, last, space, top, k);
    case ByStage(m) =>
      StagesTurn(kind, lab, waiting, s, m, last, space, top, k);
      waiting', s', last', k' := waiting, Moved(s, m), last, k;
  }

  lemma StagesTurn(
    kind: Algorithm, lab: Lab, waiting: seq<Generation>, s: System, m: Move, last: Last, space: seq<Spec>, top: int, k: nat)
    requires Together(kind, lab, waiting, s, last, space, top, k)
    requires !m.Receive? && CanMove(s, m) && HonestMove(lab, s, m)
    ensures Together(kind, lab, waiting, Moved(s, m), last, space, top, k) && Moved(s, m).steer == s.steer
    ensures Busy(s, m) ==> Nearer(Space(space), Moved(s, m), s)
    ensures !Busy(s, m) ==> AsNear(Moved(s, m), s)
  {
    hide *;
    TogetherIs(kind, lab, waiting, s, last, space, top, k);
    StageMoves(s, m);
    MoveKeepsInv(s, m);
    CostsStayRight(lab, s, m);
    StillTogether(kind, lab, waiting, s, Moved(s, m), last, space, top, k);
    if Busy(s, m) {
      EveryMoveCounts(Space(space), s, m);
    } else {
      IdleMove(s, m);
    }
  }

  lemma StageMoves(s: System, m: Move)
    requires CanMove(s, m) && !m.Receive?
    ensures Moved(s, m).steer == s.steer
  {
  }

  lemma StillTogether(
    kind: Algorithm, lab: Lab, waiting: seq<Generation>, s: System, s': System, last: Last, space: seq<Spec>, top: int, k: nat)
    requires Together(kind, lab, waiting, s, last, space, top, k)
    requires SysInv(s') && CostInv(lab, s') && s'.steer == s.steer
    ensures Together(kind, lab, waiting, s', last, space, top, k)
  {
    hide SysInv, CostInv, Steered;
  }

  /** The circle from its start to its end, under any fair schedule and any interleaving it chooses:
      the run ends at an optimum for the costs of the lab; both stages have then shut down and the
      pill is back, unless the assertion on new pools has failed, after which both stages hang. */
  method Run(
    first: Generation, lab: Lab, initial: seq<Task>, start: System, choose: (nat, System) -> Turn,
    ghost wait: (nat, System) -> nat, ghost space: seq<Spec>, ghost top: int,
    ghost built: map<Key, Result>, ghost tested: map<Key, Result>)
    returns (s: System, last: Last, ghost k: nat)
    requires Running(first, lab.CostOf, first.exeSet.Keys, first.exeSet.Keys, space, top, 0)
    requires FlagsOf(initial) == first.exeSet.Keys && SystemStarts(start, initial, built, tested)
    requires RightResults(lab, built) && RightResults(lab, tested)
    requires Schedule(lab, choose, wait)
    modifies first
    ensures SysInv(s) && old(first.exeSet.Keys) <= s.steer.cache
    ensures Alike(old(first.algorithm), last.algorithm)
    ensures Ended(lab.CostOf, s.steer.cache, last.algorithm, last.pool, last.ending, top, k)
    ensures if last.ending.EmptyPool? then Hung(s) else Over(s) && s.steer.mode.Stopped? && s.back == [Pill]
  {
    hide *;
    ghost var kind, pool := first.algorithm, first.exeSet.Keys;
    var waiting, i := [first], 0;
    s, last, k := start, Last(first.algorithm, first.exeSet.Keys, NoNext), 0;
    TogetherFromStart(first, lab, initial, start, space, top, built, tested);
    while !Final(s)
      invariant Together(kind, lab, waiting, s, last, space, top, k) && pool <= s.steer.cache
      invariant waiting == [] || waiting == [first] || (|waiting| == 1 && fresh(waiting[0]))
      decreases s.steer.mode.Waiting?, |Space(space) - s.steer.cache|, Remaining(Builder(s)), Remaining(Tester(s)),
                |s.back|, wait(i, s)
    {
      TogetherIs(kind, lab, waiting, s, last, space, top, k);
      ghost var before := s;
      var turn := choose(i, s);
      TurnAllowed(lab, choose, wait, i, s);
      waiting, s, last, k := CircleTurn(kind, lab, waiting, s, turn, last, space, top, k);
      NearerIs(Space(space), s, before);
      i := i + 1;
    }
    TogetherAtEnd(kind, lab, waiting, s, last, space, top, k);
  }

  lemma TogetherFromStart(
    first: Generation, lab: Lab, initial: seq<Task>, s: System, space: seq<Spec>, top: int,
    built: map<Key, Result>, tested: map<Key, Result>)
    requires Running(first, lab.CostOf, first.exeSet.Keys, first.exeSet.Keys, space, top, 0)
    requires FlagsOf(initial) == first.exeSet.Keys && SystemStarts(s, initial, built, tested)
    requires RightResults(lab, built) && RightResults(lab, tested)
    ensures Together(first.algorithm, lab, [first], s, Last(first.algorithm, first.exeSet.Keys, NoNext), space, top, 0)
    ensures s.steer.cache == first.exeSet.Keys
  {
    assert s.steer.mode.Waiting? && s.steer.cache == s.steer.awaited == first.exeSet.Keys;
    hide Running, SystemStarts, Steered, SysInv, CostInv;
    StartSystem(s, initial, built, tested);
    StartCosts(lab, s, initial, built, tested);
    SteeredFromStart(first, lab.CostOf, NoNext, space, top);
  }

  lemma TogetherIs(
    kind: Algorithm, lab: Lab, waiting: seq<Generation>, s: System, last: Last, space: seq<Spec>, top: int, k: nat)
    requires Together(kind, lab, waiting, s, last, space, top, k)
    ensures SysInv(s) && CostInv(lab, s) && StagesInv(s)
  {
    hide FlightInv, PendingInv, StagesInv, PillInv, CostInv, Steered;
  }

  lemma TurnAllowed(lab: Lab, choose: (nat, System) -> Turn, wait: (nat, System) -> nat, i: nat, s: System)
    requires Schedule(lab, choose, wait) && SysInv(s) && !Final(s)
    ensures match choose(i, s)
            case BySteering => CanReceive(s)
            case ByStage(m) =>
              && !m.Receive? && CanMove(s, m) && HonestMove(lab, s, m)
              && (Busy(s, m) || wait(i + 1, Moved(s, m)) < wait(i, s))
  {
    hide SysInv, Final, CanReceive, HonestMove, Busy, CanMove, Moved;
    assert Allowed(lab, choose, wait, i, s);
  }

  /** The order that the loop of Run descends. */
  lemma NearerIs(space: set<Flags>, s': System, s: System)
    ensures Nearer(space, s', s) ==>
        || (s.steer.mode.Waiting? && !s'.steer.mode.Waiting?)
        || (s'.steer.mode == s.steer.mode
            && (|space - s'.steer.cache| < |space - s.steer.cache|
                || (|space - s'.steer.cache| == |space - s.steer.cache|
                    && (Remaining(Builder(s')) < Remaining(Builder(s))
                        || (Remaining(Builder(s')) == Remaining(Builder(s))
                            && (Remaining(Tester(s')) < Remaining(Tester(s))
                                || (Remaining(Tester(s')) == Remaining(Tester(s)) && |s'.back| < |s.back|)))))))
    ensures AsNear(s', s) ==>
        && s'.steer == s.steer && s'.back == s.back
        && Remaining(Builder(s')) == Remaining(Builder(s)) && Remaining(Tester(s')) == Remaining(Tester(s))
  {
    hide Remaining;
  }

  lemma TogetherAtEnd(
    kind: Algorithm, lab: Lab, waiting: seq<Generation>, s: System, last: Last, space: seq<Spec>, top: int, k: nat)
    requires Together(kind, lab, waiting, s, last, space, top, k) && Final(s)
    ensures SysInv(s) && Alike(kind, last.algorithm)
    ensures Ended(lab.CostOf, s.steer.cache, last.algorithm, last.pool, last.ending, top, k)
    ensures if last.ending.EmptyPool? then Hung(s) else Over(s) && s.steer.mode.Stopped? && s.back == [Pill]
  {
    hide SysInv, CostInv, Hung, Over, Ended, Alike, Running, Space;
    FinalIsQuiet(s);
    HungIs(s);
  }

  lemma HungIs(s: System)
    ensures Hung(s) ==> s.steer.mode.Failed?
  {
  }
}
