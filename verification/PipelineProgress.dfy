/** A pipeline stage always gets done: no reachable state is stuck, every busy step brings the end
    nearer, and the helper never waits for a result that is not on its way. */
module PipelineProgress {
  import opened Sequences
  import opened FlagSets
  import opened Pipeline
  import opened PipelineSafety

  // ---------------------------------------------------------------- work once, and agree

  /** The key of every queued or waiting duplicate is settled, reported, or being worked on; that of
      a waiting one is not settled. */
  lemma KeyOnItsWay(stage: Stage, w: World, t: Task)
    requires Inv(stage, w)
    requires t in w.local.waiting || Job(t) in w.local.helperQueue
    ensures var s, k := w.local, KeyOf(stage, t);
            || k in s.done
            || (exists i :: 0 <= i < |s.completed| && s.completed[i].key == k)
            || (exists i :: 0 <= i < |s.workers| && s.workers[i].Queued? && KeyOf(stage, s.workers[i].task) == k)
    ensures t in w.local.waiting ==> KeyOf(stage, t) !in w.local.done
  {
    var s, k := w.local, KeyOf(stage, t);
    assert k in s.mycache by {
      if t in s.waiting {
        var i :| 0 <= i < |s.waiting| && s.waiting[i] == t;
      } else {
        var i :| 0 <= i < |s.helperQueue| && s.helperQueue[i] == Job(t);
        assert s.helperQueue[i].Job?;
      }
    }
    KeyIn(k, s.mycache);
    assert Accounts(stage, s, k) > 0;
    if k !in s.done {
      if Sum(OfCompleted(k), s.completed) > 0 {
        var i := SumWitness(OfCompleted(k), s.completed);
      } else {
        var i := SumWitness(OfQueued(stage, k), s.workers);
      }
    }
  }

  /** Once the workers are gone, a waiting task's result is in the completed queue. */
  lemma WaitingIsReported(stage: Stage, w: World)
    requires Inv(stage, w) && w.local.workers == [] && w.local.waiting != []
    ensures w.local.completed != []
  {
    KeyOnItsWay(stage, w, w.local.waiting[0]);
  }

  /** A turn of the helper's last loop, with nothing else going on. */
  ghost function DrainOnce(stage: Stage, w: World): (w': World)
    requires Inv(stage, w)
    ensures Inv(stage, w')
  {
    if w.local.helper.Draining? then
      StepKeepsInv(stage, w, Drain);
      Step(stage, w, Drain)
    else w
  }

  ghost function Drained(stage: Stage, w: World, n: nat): (w': World)
    requires Inv(stage, w)
    ensures Inv(stage, w')
  {
    if n == 0 then w else DrainOnce(stage, Drained(stage, w, n - 1))
  }

  /** That loop ends: one turn for each report left and one to see that no task waits. */
  lemma DrainEnds(stage: Stage, w: World)
    requires Inv(stage, w) && w.local.helper.Draining?
    ensures var end := Drained(stage, w, |w.local.completed| + 1).local;
            end.helper.Exited? && end.waiting == []
  {
    DrainTurns(stage, w, |w.local.completed| + 1);
  }

  lemma {:induction false} DrainTurns(stage: Stage, w: World, n: nat)
    requires Inv(stage, w) && w.local.helper.Draining?
    ensures var s, end := w.local, Drained(stage, w, n).local;
            || (end.helper.Exited? && end.waiting == [])
            || (end.helper.Draining? && n <= |s.completed| && |end.completed| == |s.completed| - n)
  {
    hide Inv, DrainOnce;
    if n == 0 {
    } else {
      DrainTurns(stage, w, n - 1);
      DrainTurn(stage, Drained(stage, w, n - 1));
    }
  }

  lemma DrainTurn(stage: Stage, w: World)
    requires Inv(stage, w)
    ensures var s, end := w.local, DrainOnce(stage, w).local;
            && (s.helper.Draining? ==>
                  || (end.helper.Exited? && end.waiting == [])
                  || (end.helper.Draining? && |s.completed| > 0 && |end.completed| == |s.completed| - 1))
            && (!s.helper.Draining? ==> end == s)
  {
    if w.local.helper.Draining? && w.local.waiting != [] {
      WaitingIsReported(stage, w);
    }
  }

  /** Results on record are never changed. */
  lemma StepKeepsResults(stage: Stage, w: World, a: Action, k: Key)
    requires Inv(stage, w) && Enabled(stage, w, a) && k in w.local.results
    ensures var r' := Step(stage, w, a).local.results;
            k in r' && r'[k] == w.local.results[k]
  {
    if a.Report? {
      QueuedUnrecorded(stage, w.local, a.i);
    }
    hide Inv, KeyOf, CollectOne, Output, Fresh;
  }

  lemma {:induction false} RunKeepsResults(stage: Stage, w: World, actions: seq<Action>, k: Key)
    requires Inv(stage, w) && k in w.local.results
    ensures var r' := Run(stage, w, actions).local.results;
            k in r' && r'[k] == w.local.results[k]
    decreases |actions|
  {
    hide Inv, Step;
    if actions == [] {
    } else {
      RunKeepsResults(stage, w, actions[..|actions| - 1], k);
      var prev := Run(stage, w, actions[..|actions| - 1]);
      if Enabled(stage, prev, actions[|actions| - 1]) {
        StepKeepsResults(stage, prev, actions[|actions| - 1], k);
      }
    }
  }

  /** Work once: a worker that reports does so for a key that was not cached and that nobody has
      reported before; the keys sent to workers are all different. */
  lemma WorkedOnce(stage: Stage, w: World, cache: map<Key, Result>, actions: seq<Action>, i: nat, r: Result)
    requires Starts(stage, w, cache)
    ensures Inv(stage, w)
    ensures Distinct(Run(stage, w, actions).local.mycache)
    ensures Enabled(stage, Run(stage, w, actions), Report(i, r)) ==>
              var s := Run(stage, w, actions).local;
              var k := KeyOf(stage, s.workers[i].task);
              k !in cache && k !in s.results
  {
    StartInv(stage, w, cache);
    var w' := Run(stage, w, actions);
    MyCacheDistinct(stage, w'.local);
    if Enabled(stage, w', Report(i, r)) {
      QueuedUnrecorded(stage, w'.local, i);
      var k := KeyOf(stage, w'.local.workers[i].task);
      if k in cache {
        RunKeepsResults(stage, w, actions, k);
      }
    }
  }

  lemma MyCacheDistinct(stage: Stage, s: Local)
    requires KeysInv(stage, s)
    ensures Distinct(s.mycache)
  {
    forall i, j | 0 <= i < j < |s.mycache| ensures s.mycache[i] != s.mycache[j] {
      var k := s.mycache[i];
      SumAt(OfKey(k), s.mycache, i);
      if s.mycache[j] == k {
        SumOver(OfKey(k), RemoveAt(s.mycache, i), j - 1);
      }
      assert Accounts(stage, s, k) <= 1;
    }
  }

  /** Agree: every delivered task carries the one result on record for its key, which for a cached
      key is the cached one. */
  lemma DeliveriesAgree(stage: Stage, w: World, cache: map<Key, Result>, actions: seq<Action>, i: nat)
    requires Starts(stage, w, cache)
    ensures Inv(stage, w)
    ensures var s := Run(stage, w, actions).local;
            i < |s.delivered| ==>
              var k := KeyOf(stage, s.delivered[i]);
              && Done(stage, s.delivered[i])
              && Carries(stage, s.delivered[i], s.results)
              && (k in cache ==> s.results[k] == cache[k])
  {
    StartInv(stage, w, cache);
    var s := Run(stage, w, actions).local;
    if i < |s.delivered| {
      var k := KeyOf(stage, s.delivered[i]);
      if k in cache {
        RunKeepsResults(stage, w, actions, k);
      }
    }
  }

  // ---------------------------------------------------------------- progress

  function WorkerRank(v: Worker): nat {
    match v
    case Queued(_) => 4
    case Reported(_) => 1
  }

  function DispatcherRank(d: Dispatcher): nat {
    match d
    case Dispatching => 9
    case Joining => 5
    case AwaitingHelper => 1
    case Closed => 0
  }

  /** In its first loop the helper looks at its two queues in turn; it stands one step further from
      the end when the queue it looks at next is empty. */
  function HelperRank(s: Local): nat {
    match s.helper
    case Polling => if s.helperQueue == [] then 3 else 2
    case Collecting => if s.completed == [] then 3 else 2
    case Draining => 1
    case Exited => 0
  }

  function OfRank(): Worker -> nat {
    (v: Worker) => WorkerRank(v)
  }

  /** How much the stage has still to do. */
  function Remaining(w: World): nat {
    6 * |w.inq| + RemainingInside(w.local)
  }

  function RemainingInside(s: Local): nat {
    DispatcherRank(s.dispatcher) + Sum(OfRank(), s.workers)
    + 3 * |s.helperQueue| + 2 * |s.completed| + |s.waiting| + HelperRank(s)
  }

  /** The helper looks at a queue while both its queues are empty. */
  predicate Idle(s: Local, a: Action) {
    (a.Poll? || a.Collect?) && s.helperQueue == [] && s.completed == []
  }

  lemma {:induction false} OthersShorter(stage: Stage, k: Key, ts: seq<Task>)
    ensures |Others(stage, k, ts)| <= |ts|
  {
    if ts != [] {
      OthersShorter(stage, k, ts[1..]);
    }
  }

  lemma PollShrinks(stage: Stage, w: World)
    requires Enabled(stage, w, Poll) && !Idle(w.local, Poll)
    ensures RemainingInside(Effect(stage, w, Poll)) < RemainingInside(w.local)
  {
    hide Sum, KeyOf;
  }

  lemma SettleShrinks(stage: Stage, w: World, a: Action)
    requires Enabled(stage, w, a) && (a.Collect? || a.Drain?) && !Idle(w.local, a)
    requires a.Drain? ==> w.local.waiting == [] || w.local.completed != []
    ensures RemainingInside(Effect(stage, w, a)) < RemainingInside(w.local)
  {
    var s := w.local;
    if s.completed != [] {
      OthersShorter(stage, s.completed[0].key, s.waiting);
    }
    hide Sum, Others, KeyOf;
  }

  lemma WorkerStepShrinks(stage: Stage, w: World, a: Action)
    requires Enabled(stage, w, a) && (a.Report? || a.Deliver?)
    ensures RemainingInside(Effect(stage, w, a)) < RemainingInside(w.local)
  {
    var s := w.local;
    match a
    case Report(i, r) =>
      SumSet(OfRank(), s.workers, i, Reported(WithResult(stage, s.workers[i].task, r)));
    case Deliver(i) => SumAt(OfRank(), s.workers, i);
  }

  lemma TakeShrinks(stage: Stage, w: World)
    requires Enabled(stage, w, Take)
    ensures RemainingInside(Effect(stage, w, Take)) < RemainingInside(w.local) + 6 && w.inq != []
  {
    if w.inq[0].Job? {
      SumAdd(OfRank(), w.local.workers, Queued(w.inq[0].task));
    }
  }

  /** Every step of the stage but an idle look at the helper's queues brings the end nearer. */
  lemma BusyStep(stage: Stage, w: World, a: Action)
    requires Inv(stage, w) && Enabled(stage, w, a) && !a.Feed? && !Idle(w.local, a)
    ensures Remaining(Step(stage, w, a)) < Remaining(w)
  {
    hide Sum, Inv, Idle, Effect, RemainingInside, Enabled, Output;
    InvTyped(stage, w);
    RecordOnly(stage, w, a);
    match a
    case Take => TakeShrinks(stage, w);
    case Report(_, _) => WorkerStepShrinks(stage, w, a);
    case Deliver(_) => WorkerStepShrinks(stage, w, a);
    case Join => ShutdownShrinks(stage, w, a);
    case Close => ShutdownShrinks(stage, w, a);
    case _ =>
      if a.Drain? && w.local.waiting != [] {
        PhaseOfDrain(stage, w);
        WaitingIsReported(stage, w);
      }
      if a.Poll? {
        PollShrinks(stage, w);
      } else {
        SettleShrinks(stage, w, a);
      }
  }

  lemma ShutdownShrinks(stage: Stage, w: World, a: Action)
    requires Enabled(stage, w, a) && (a.Join? || a.Close?)
    ensures RemainingInside(Effect(stage, w, a)) < RemainingInside(w.local)
  {
  }

  /** The record of deliveries is not work to do. */
  lemma RecordOnly(stage: Stage, w: World, a: Action)
    requires Enabled(stage, w, a) && Typed(stage, w.local)
    ensures RemainingInside(Step(stage, w, a).local) == RemainingInside(Effect(stage, w, a))
  {
    hide Sum, Effect, Output;
  }

  lemma PhaseOfDrain(stage: Stage, w: World)
    requires Inv(stage, w) && Enabled(stage, w, Drain)
    ensures w.local.workers == []
  {
  }

  /** An idle look changes nothing but which queue the helper looks at next. */
  lemma IdleStep(stage: Stage, w: World, a: Action)
    requires Enabled(stage, w, a) && Typed(stage, w.local) && Idle(w.local, a)
    ensures Remaining(Step(stage, w, a)) == Remaining(w) && Step(stage, w, a).outq == w.outq
    ensures Step(stage, w, a) == w.(local := w.local.(helper := if a.Poll? then Collecting else Polling))
  {
    hide Sum;
  }

  /** Some worker can go on. */
  function WorkerAction(stage: Stage, s: Local): Action
    requires s.workers != []
  {
    if s.workers[0].Reported? then Deliver(0)
    else Report(0, if stage.BuildStage? then Built(BuildResult(0, 0.0, 0)) else Tested(0.0))
  }

  /** No task and no report is inside. */
  predicate Vacant(s: Local) {
    s.workers == [] && s.helperQueue == [] && s.waiting == [] && s.completed == []
  }

  /** A stage that has not closed always has a busy step to take, unless it waits for input with
      nothing inside. */
  lemma NeverStuck(stage: Stage, w: World) returns (a: Action)
    requires Inv(stage, w) && !w.local.dispatcher.Closed?
    requires w.local.dispatcher.Dispatching? ==>
               w.inq != [] || !Vacant(w.local)
    ensures Enabled(stage, w, a) && !a.Feed? && !Idle(w.local, a)
  {
    var s := w.local;
    match s.dispatcher {
      case Dispatching =>
        if w.inq != [] {
          a := Take;
        } else if s.workers != [] {
          a := WorkerAction(stage, s);
        } else {
          if s.helperQueue == [] && s.completed == [] {
            WaitingIsReported(stage, w);
          }
          a := if s.helper.Polling? then Poll else Collect;
        }
      case Joining =>
        a := if s.workers == [] then Join else WorkerAction(stage, s);
      case AwaitingHelper =>
        match s.helper {
          case Polling => a := Poll;
          case Collecting => a := Collect;
          case Draining => a := Drain;
          case Exited => a := Close;
        }
    }
  }

  /** The pill has been read or is on the input queue. */
  ghost predicate PillSent(w: World) {
    !w.local.dispatcher.Dispatching? || Pill in w.inq
  }

  /** From every reachable state with the pill sent, the stage can shut down. */
  lemma {:induction false} CanClose(stage: Stage, w: World) returns (actions: seq<Action>)
    requires Inv(stage, w) && PillSent(w)
    ensures Run(stage, w, actions).local.dispatcher.Closed?
    decreases Remaining(w)
  {
    if w.local.dispatcher.Closed? {
      actions := [];
    } else {
      var a := NeverStuck(stage, w);
      BusyStep(stage, w, a);
      StepKeepsInv(stage, w, a);
      PillStaysSent(stage, w, a);
      var rest := CanClose(stage, Step(stage, w, a));
      RunFrom(stage, w, a, rest);
      actions := [a] + rest;
    }
  }

  lemma PillStaysSent(stage: Stage, w: World, a: Action)
    requires Inv(stage, w) && Enabled(stage, w, a) && PillSent(w)
    ensures PillSent(Step(stage, w, a))
  {
    if a.Take? && w.inq[0].Job? {
      assert w.inq == [w.inq[0]] + w.inq[1..];
    }
  }

  lemma {:induction false} RunFrom(stage: Stage, w: World, a: Action, rest: seq<Action>)
    requires Inv(stage, w) && Enabled(stage, w, a)
    ensures Inv(stage, Step(stage, w, a))
    ensures Run(stage, w, [a] + rest) == Run(stage, Step(stage, w, a), rest)
    decreases |rest|
  {
    StepKeepsInv(stage, w, a);
    var actions := [a] + rest;
    if rest == [] {
      assert actions[..|actions| - 1] == [] && actions[|actions| - 1] == a;
    } else {
      assert actions[..|actions| - 1] == [a] + rest[..|rest| - 1];
      assert actions[|actions| - 1] == rest[|rest| - 1];
      RunFrom(stage, w, a, rest[..|rest| - 1]);
    }
  }
}
