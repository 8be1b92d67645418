/** What every interleaving of a pipeline stage keeps: each key is worked at most once, equal keys
    get equal results, no duplicate waits in vain, and every task comes out exactly once. */
module PipelineSafety {
  import opened Sequences
  import opened FlagSets
  import opened Pipeline

  // ---------------------------------------------------------------- keys

  function OfKey(k: Key): Key -> nat {
    (k': Key) => One(k' == k)
  }

  function OfCompleted(k: Key): Completed -> nat {
    (c: Completed) => One(c.key == k)
  }

  function InWorker(stage: Stage, k: Key, v: Worker): nat {
    match v
    case Queued(t) => One(KeyOf(stage, t) == k)
    case Reported(_) => 0
  }

  function OfQueued(stage: Stage, k: Key): Worker -> nat {
    (v: Worker) => InWorker(stage, k, v)
  }

  /** How often key k is settled, reported, or being worked on. */
  function Accounts(stage: Stage, s: Local, k: Key): nat {
    One(k in s.done) + Sum(OfCompleted(k), s.completed) + Sum(OfQueued(stage, k), s.workers)
  }

  /** Each key the dispatcher has seen is settled, reported, or being worked on: one of the three,
      once. No other key is. */
  ghost predicate KeysInv(stage: Stage, s: Local) {
    forall k :: Sum(OfKey(k), s.mycache) == Accounts(stage, s, k) <= 1
  }

  lemma KeyIn(k: Key, s: seq<Key>)
    ensures k in s <==> Sum(OfKey(k), s) > 0
  {
    if k in s {
      var i :| 0 <= i < |s| && s[i] == k;
      SumOver(OfKey(k), s, i);
    }
    if Sum(OfKey(k), s) > 0 {
      var i := SumWitness(OfKey(k), s);
    }
  }

  lemma CollectKeys(stage: Stage, s: Local, k: Key)
    requires Accounts(stage, s, k) <= 1
    ensures Accounts(stage, CollectOne(stage, s), k) == Accounts(stage, s, k)
  {
  }

  lemma NewKey(stage: Stage, s: Local, t: Task, k: Key)
    requires KeyOf(stage, t) !in s.mycache
    requires Sum(OfKey(k), s.mycache) == Accounts(stage, s, k) <= 1
    ensures Sum(OfKey(k), s.mycache + [KeyOf(stage, t)])
            == Accounts(stage, s, k) + Sum(OfQueued(stage, k), s.workers + [Queued(t)]) - Sum(OfQueued(stage, k), s.workers)
            <= 1
  {
    KeyIn(k, s.mycache);
    SumAdd(OfKey(k), s.mycache, KeyOf(stage, t));
    SumAdd(OfQueued(stage, k), s.workers, Queued(t));
  }

  lemma TakeKeys(stage: Stage, w: World, k: Key)
    requires Enabled(stage, w, Take) && Sum(OfKey(k), w.local.mycache) == Accounts(stage, w.local, k) <= 1
    ensures var s' := Effect(stage, w, Take);
            Sum(OfKey(k), s'.mycache) == Accounts(stage, s', k) <= 1
  {
    hide Sum, KeyOf;
    if w.inq[0].Job? && KeyOf(stage, w.inq[0].task) !in w.local.mycache {
      NewKey(stage, w.local, w.inq[0].task, k);
    }
  }

  lemma WorkerKeys(stage: Stage, w: World, a: Action, k: Key)
    requires Enabled(stage, w, a) && (a.Report? || a.Deliver?)
    ensures Accounts(stage, Effect(stage, w, a), k) == Accounts(stage, w.local, k)
    ensures Effect(stage, w, a).mycache == w.local.mycache
  {
    var s := w.local;
    match a
    case Report(i, r) =>
      var t := s.workers[i].task;
      SumSet(OfQueued(stage, k), s.workers, i, Reported(WithResult(stage, t, r)));
      SumAdd(OfCompleted(k), s.completed, Completed(KeyOf(stage, t), r));
    case Deliver(i) => SumAt(OfQueued(stage, k), s.workers, i);
  }

  lemma KeysStep(stage: Stage, w: World, a: Action, k: Key)
    requires Enabled(stage, w, a) && Typed(stage, w.local)
    requires Sum(OfKey(k), w.local.mycache) == Accounts(stage, w.local, k) <= 1
    ensures var s' := Effect(stage, w, a);
            Sum(OfKey(k), s'.mycache) == Accounts(stage, s', k) <= 1
  {
    match a {
      case Take => TakeKeys(stage, w, k);
      case Report(_, _) => WorkerKeys(stage, w, a, k);
      case Deliver(_) => WorkerKeys(stage, w, a, k);
      case Collect => CollectKeys(stage, w.local, k); hide CollectOne, Sum;
      case Drain => CollectKeys(stage, w.local, k); hide CollectOne, Sum;
      case _ => hide Sum;
    }
  }

  // ---------------------------------------------------------------- waiting tasks and results

  /** A queued or waiting duplicate has a key the dispatcher has seen; a waiting one's key is not
      settled yet. */
  ghost predicate WaitInv(stage: Stage, s: Local) {
    && (forall i :: 0 <= i < |s.helperQueue| && s.helperQueue[i].Job? ==> KeyOf(stage, s.helperQueue[i].task) in s.mycache)
    && (forall i :: 0 <= i < |s.waiting| ==> KeyOf(stage, s.waiting[i]) in s.mycache)
    && (forall i :: 0 <= i < |s.waiting| ==> KeyOf(stage, s.waiting[i]) !in s.done)
  }

  lemma CollectWait(stage: Stage, s: Local)
    requires WaitInv(stage, s)
    ensures WaitInv(stage, CollectOne(stage, s))
  {
    var s' := CollectOne(stage, s);
    forall i | 0 <= i < |s'.waiting|
      ensures KeyOf(stage, s'.waiting[i]) in s'.mycache && KeyOf(stage, s'.waiting[i]) !in s'.done
    {
      assert s'.waiting[i] in s'.waiting;
      assert s'.waiting[i] in s.waiting;
    }
  }

  lemma WaitStep(stage: Stage, w: World, a: Action)
    requires Enabled(stage, w, a) && WaitInv(stage, w.local)
    ensures WaitInv(stage, Effect(stage, w, a))
  {
    if a.Take? {
      TakeWait(stage, w);
    } else if a.Collect? || a.Drain? {
      CollectWait(stage, w.local);
      hide CollectOne, KeyOf;
    } else {
      QuietWait(stage, w, a);
    }
  }

  lemma QuietWait(stage: Stage, w: World, a: Action)
    requires Enabled(stage, w, a) && WaitInv(stage, w.local) && !a.Take? && !a.Collect? && !a.Drain?
    ensures WaitInv(stage, Effect(stage, w, a))
  {
    hide KeyOf, CollectOne;
  }

  lemma TakeWait(stage: Stage, w: World)
    requires Enabled(stage, w, Take) && WaitInv(stage, w.local)
    ensures WaitInv(stage, Effect(stage, w, Take))
  {
    hide KeyOf;
  }

  /** The task carries the result on record for its key. */
  ghost predicate Carries(stage: Stage, t: Task, results: map<Key, Result>) {
    var k := KeyOf(stage, t);
    k in results && ResultOf(stage, results[k]) && t == WithResult(stage, t, results[k])
  }

  /** One result on record per reported key, which the settled and the reported agree with. */
  ghost predicate OnRecord(stage: Stage, results: map<Key, Result>, done: map<Key, Result>, completed: seq<Completed>) {
    && (forall k :: k in results ==> ResultOf(stage, results[k]) && (k in done || Sum(OfCompleted(k), completed) > 0))
    && (forall k :: k in done ==> k in results && results[k] == done[k])
    && (forall i :: 0 <= i < |completed| ==>
          completed[i].key in results && results[completed[i].key] == completed[i].result)
  }

  /** What is about to be passed on, or has been, carries the result on record. */
  ghost predicate PassedOn(stage: Stage, s: Local) {
    && (forall i :: 0 <= i < |s.workers| && s.workers[i].Reported? ==> Carries(stage, s.workers[i].task, s.results))
    && (forall i :: 0 <= i < |s.delivered| ==> Carries(stage, s.delivered[i], s.results))
  }

  ghost predicate ResultsInv(stage: Stage, s: Local) {
    OnRecord(stage, s.results, s.done, s.completed) && PassedOn(stage, s)
  }

  /** Setting the result on record makes a task carry it. */
  lemma ResolvedCarries(stage: Stage, t: Task, results: map<Key, Result>)
    requires KeyOf(stage, t) in results && ResultOf(stage, results[KeyOf(stage, t)])
    ensures Carries(stage, WithResult(stage, t, results[KeyOf(stage, t)]), results)
  {
  }

  lemma CollectCarries(stage: Stage, s: Local)
    requires Typed(stage, s) && ResultsInv(stage, s)
    ensures forall m :: m in CollectOutput(stage, s) ==> m.Job? && Carries(stage, m.task, s.results)
  {
    if s.completed != [] {
      var c := s.completed[0];
      var ts := Matching(stage, c.key, s.waiting);
      forall i | 0 <= i < |ts| ensures Carries(stage, WithResult(stage, ts[i], c.result), s.results) {
        assert ts[i] in ts;
        ResolvedCarries(stage, ts[i], s.results);
      }
    }
  }

  /** Every task a stage passes on carries the result on record for its key. */
  lemma OutputCarries(stage: Stage, w: World, a: Action)
    requires Enabled(stage, w, a) && Typed(stage, w.local) && ResultsInv(stage, w.local)
    ensures forall m :: m in Output(stage, w, a) && m.Job? ==> Carries(stage, m.task, w.local.results)
  {
    var s := w.local;
    match a
    case Poll =>
      if s.helperQueue != [] && s.helperQueue[0].Job? && KeyOf(stage, s.helperQueue[0].task) in s.done {
        ResolvedCarries(stage, s.helperQueue[0].task, s.results);
      }
    case Collect => CollectCarries(stage, s);
    case Drain => CollectCarries(stage, s);
    case _ =>
  }

  /** A key still being worked on has no result on record. */
  lemma QueuedUnrecorded(stage: Stage, s: Local, i: nat)
    requires KeysInv(stage, s) && ResultsInv(stage, s)
    requires i < |s.workers| && s.workers[i].Queued?
    ensures KeyOf(stage, s.workers[i].task) !in s.results
  {
    var key := KeyOf(stage, s.workers[i].task);
    SumOver(OfQueued(stage, key), s.workers, i);
    assert Accounts(stage, s, key) <= 1;
  }

  /** A report for a key with none on record. */
  lemma RecordMore(stage: Stage, s: Local, c: Completed)
    requires OnRecord(stage, s.results, s.done, s.completed) && ResultOf(stage, c.result) && c.key !in s.results
    ensures OnRecord(stage, s.results[c.key := c.result], s.done, s.completed + [c])
  {
    forall k ensures Sum(OfCompleted(k), s.completed + [c]) == Sum(OfCompleted(k), s.completed) + One(c.key == k) {
      SumAdd(OfCompleted(k), s.completed, c);
    }
    hide Sum, ResultOf;
  }

  /** It takes nothing away from those that carry a result already. */
  lemma StillPassedOn(stage: Stage, s: Local, s': Local, k: Key, r: Result)
    requires PassedOn(stage, s) && k !in s.results
    requires s'.results == s.results[k := r] && s'.delivered == s.delivered
    requires forall i :: 0 <= i < |s'.workers| && s'.workers[i].Reported? ==>
               s'.workers[i] in s.workers || Carries(stage, s'.workers[i].task, s'.results)
    ensures PassedOn(stage, s')
  {
    hide KeyOf, WithResult, ResultOf;
  }

  lemma ReportResults(stage: Stage, w: World, a: Action)
    requires a.Report? && Enabled(stage, w, a)
    requires KeysInv(stage, w.local) && ResultsInv(stage, w.local)
    ensures ResultsInv(stage, Effect(stage, w, a))
  {
    var s, s', t := w.local, Effect(stage, w, a), w.local.workers[a.i].task;
    QueuedUnrecorded(stage, s, a.i);
    ResolvedCarries(stage, t, s'.results);
    hide KeysInv, PassedOn, OnRecord, Carries, Sum;
    RecordMore(stage, s, Completed(KeyOf(stage, t), a.r));
    StillPassedOn(stage, s, s', KeyOf(stage, t), a.r);
  }

  lemma CollectResults(stage: Stage, s: Local)
    requires ResultsInv(stage, s)
    ensures ResultsInv(stage, CollectOne(stage, s))
  {
  }

  /** Steps that neither report nor settle anything. */
  lemma QuietResults(stage: Stage, s: Local, s': Local)
    requires ResultsInv(stage, s)
    requires s'.done == s.done && s'.completed == s.completed && s'.results == s.results && s'.delivered == s.delivered
    requires forall i :: 0 <= i < |s'.workers| && s'.workers[i].Reported? ==> s'.workers[i] in s.workers
    ensures ResultsInv(stage, s')
  {
    hide Sum, Carries, ResultOf;
  }

  lemma ResultsStep(stage: Stage, w: World, a: Action)
    requires Enabled(stage, w, a) && Typed(stage, w.local)
    requires KeysInv(stage, w.local) && ResultsInv(stage, w.local)
    ensures ResultsInv(stage, Effect(stage, w, a))
  {
    hide ResultsInv, KeysInv;
    match a
    case Report(_, _) => ReportResults(stage, w, a);
    case Collect => CollectResults(stage, w.local); QuietResults(stage, CollectOne(stage, w.local), Effect(stage, w, a));
    case Drain =>
      CollectResults(stage, w.local);
      QuietResults(stage, if w.local.waiting == [] then w.local else CollectOne(stage, w.local), Effect(stage, w, a));
    case _ => QuietResults(stage, w.local, Effect(stage, w, a));
  }

  // ---------------------------------------------------------------- phases

  ghost predicate NoPill(ms: seq<Msg>) {
    forall i :: 0 <= i < |ms| ==> ms[i].Job?
  }

  /** The shutdown order: pool joined before the helper's pill, the pill behind every duplicate,
      the helper gone before the stage closes. */
  ghost predicate PhaseInv(s: Local) {
    match s.dispatcher
    case Dispatching => NoPill(s.helperQueue) && (s.helper.Polling? || s.helper.Collecting?)
    case Joining => NoPill(s.helperQueue) && (s.helper.Polling? || s.helper.Collecting?)
    case AwaitingHelper =>
      && s.workers == []
      && (match s.helper
          case Polling => s.helperQueue != [] && Last(s.helperQueue).Pill? && NoPill(Front(s.helperQueue))
          case Collecting => s.helperQueue != [] && Last(s.helperQueue).Pill? && NoPill(Front(s.helperQueue))
          case Draining => s.helperQueue == []
          case Exited => s.helperQueue == [] && s.waiting == [])
    case Closed => s.workers == [] && s.helperQueue == [] && s.waiting == [] && s.helper.Exited?
  }

  function Last(ms: seq<Msg>): Msg
    requires ms != []
  {
    ms[|ms| - 1]
  }

  function Front(ms: seq<Msg>): seq<Msg>
    requires ms != []
  {
    ms[..|ms| - 1]
  }

  lemma PhaseStep(stage: Stage, w: World, a: Action)
    requires Enabled(stage, w, a) && PhaseInv(w.local)
    ensures PhaseInv(Effect(stage, w, a))
  {
    match a {
      case Poll => PollPhase(stage, w);
      case Collect => SettlePhase(stage, w, a);
      case Drain => SettlePhase(stage, w, a);
      case _ => MovePhase(stage, w, a);
    }
  }

  lemma MovePhase(stage: Stage, w: World, a: Action)
    requires Enabled(stage, w, a) && PhaseInv(w.local) && !a.Poll? && !a.Collect? && !a.Drain?
    ensures PhaseInv(Effect(stage, w, a))
  {
    hide KeyOf, CollectOne, Fresh, ResultOf, WithResult;
  }

  lemma SettlePhase(stage: Stage, w: World, a: Action)
    requires Enabled(stage, w, a) && PhaseInv(w.local) && (a.Collect? || a.Drain?)
    ensures PhaseInv(Effect(stage, w, a))
  {
    hide KeyOf, Others;
  }

  /** Looking at the helper's queue takes its head off; the pill stays behind what is left. */
  lemma PollPhase(stage: Stage, w: World)
    requires Enabled(stage, w, Poll) && PhaseInv(w.local)
    ensures PhaseInv(Effect(stage, w, Poll))
  {
    hide KeyOf, CollectOne;
    var s := w.local;
    if s.helperQueue != [] && s.dispatcher.AwaitingHelper? && |s.helperQueue| > 1 {
      assert s.helperQueue[0] == Front(s.helperQueue)[0];
      assert Front(s.helperQueue[1..]) == Front(s.helperQueue)[1..];
    }
  }

  // ---------------------------------------------------------------- the invariant of a run

  /** Tasks on their way through the stage have not been done by it. */
  ghost predicate FreshInv(stage: Stage, w: World) {
    && (forall i :: 0 <= i < |w.inq| && w.inq[i].Job? ==> Fresh(stage, w.inq[i].task))
    && (forall i :: 0 <= i < |w.local.workers| && w.local.workers[i].Queued? ==> Fresh(stage, w.local.workers[i].task))
    && (forall i :: 0 <= i < |w.local.helperQueue| && w.local.helperQueue[i].Job? ==> Fresh(stage, w.local.helperQueue[i].task))
    && (forall i :: 0 <= i < |w.local.waiting| ==> Fresh(stage, w.local.waiting[i]))
  }

  lemma CollectFresh(stage: Stage, s: Local)
    requires forall i :: 0 <= i < |s.waiting| ==> Fresh(stage, s.waiting[i])
    ensures var s' := CollectOne(stage, s);
            forall i :: 0 <= i < |s'.waiting| ==> Fresh(stage, s'.waiting[i])
  {
    var s' := CollectOne(stage, s);
    forall i | 0 <= i < |s'.waiting| ensures Fresh(stage, s'.waiting[i]) {
      assert s'.waiting[i] in s'.waiting;
      assert s'.waiting[i] in s.waiting;
    }
  }

  lemma FreshStep(stage: Stage, w: World, a: Action)
    requires Enabled(stage, w, a) && Typed(stage, w.local) && FreshInv(stage, w)
    ensures FreshInv(stage, Step(stage, w, a))
  {
    match a {
      case Take => TakeFresh(stage, w);
      case Report(_, _) => WorkerFresh(stage, w, a);
      case Deliver(_) => WorkerFresh(stage, w, a);
      case Collect => SettleFresh(stage, w, a);
      case Drain => SettleFresh(stage, w, a);
      case _ => hide Fresh, Output, CollectOne, KeyOf, Typed;
    }
  }

  lemma WorkerFresh(stage: Stage, w: World, a: Action)
    requires Enabled(stage, w, a) && Typed(stage, w.local) && FreshInv(stage, w) && (a.Report? || a.Deliver?)
    ensures FreshInv(stage, Step(stage, w, a))
  {
    hide Fresh, Output, CollectOne, KeyOf, Typed;
  }

  lemma SettleFresh(stage: Stage, w: World, a: Action)
    requires Enabled(stage, w, a) && Typed(stage, w.local) && FreshInv(stage, w) && (a.Collect? || a.Drain?)
    ensures FreshInv(stage, Step(stage, w, a))
  {
    CollectFresh(stage, w.local);
    hide Fresh, Output, Others, KeyOf, Typed;
  }

  lemma TakeFresh(stage: Stage, w: World)
    requires Enabled(stage, w, Take) && Typed(stage, w.local) && FreshInv(stage, w)
    ensures FreshInv(stage, Step(stage, w, Take))
  {
    hide Fresh, Output, KeyOf, Typed;
  }

  ghost predicate Inv(stage: Stage, w: World) {
    && Typed(stage, w.local) && FreshInv(stage, w) && PhaseInv(w.local)
    && KeysInv(stage, w.local) && WaitInv(stage, w.local) && ResultsInv(stage, w.local)
  }

  lemma TypedStep(stage: Stage, w: World, a: Action)
    requires Enabled(stage, w, a) && Typed(stage, w.local)
    ensures Typed(stage, Effect(stage, w, a))
  {
  }

  lemma DeliveredMore(stage: Stage, s: Local, ts: seq<Task>)
    requires ResultsInv(stage, s)
    requires forall i :: 0 <= i < |ts| ==> Carries(stage, ts[i], s.results)
    ensures ResultsInv(stage, s.(delivered := s.delivered + ts))
  {
    hide Sum, Carries, ResultOf;
  }

  lemma KeysStepAll(stage: Stage, w: World, a: Action)
    requires Enabled(stage, w, a) && Typed(stage, w.local) && KeysInv(stage, w.local)
    ensures KeysInv(stage, Effect(stage, w, a))
  {
    var s' := Effect(stage, w, a);
    forall k ensures Sum(OfKey(k), s'.mycache) == Accounts(stage, s', k) <= 1 {
      assert Sum(OfKey(k), w.local.mycache) == Accounts(stage, w.local, k) <= 1;
      KeysStep(stage, w, a, k);
    }
  }

  /** Reports put nothing out, and nothing else changes what is on record. */
  lemma OutputOnRecord(stage: Stage, w: World, a: Action)
    requires Enabled(stage, w, a) && Typed(stage, w.local) && ResultsInv(stage, w.local)
    ensures var ts := Tasks(Output(stage, w, a));
            forall i :: 0 <= i < |ts| ==> Carries(stage, ts[i], Effect(stage, w, a).results)
  {
    OutputCarries(stage, w, a);
    var ts := Tasks(Output(stage, w, a));
    forall i | 0 <= i < |ts| ensures Carries(stage, ts[i], Effect(stage, w, a).results) {
      assert ts[i] in ts;
      assert Job(ts[i]) in Output(stage, w, a);
    }
  }

  /** Adding to the record of deliveries touches no other part of the invariant. */
  lemma OnlyDelivered(stage: Stage, s: Local, ts: seq<Task>)
    requires Typed(stage, s) && PhaseInv(s) && KeysInv(stage, s) && WaitInv(stage, s)
    ensures var s' := s.(delivered := s.delivered + ts);
            Typed(stage, s') && PhaseInv(s') && KeysInv(stage, s') && WaitInv(stage, s')
  {
    var s' := s.(delivered := s.delivered + ts);
    forall k ensures Accounts(stage, s', k) == Accounts(stage, s, k) {
    }
    hide Accounts;
  }

  lemma StepKeepsInv(stage: Stage, w: World, a: Action)
    requires Enabled(stage, w, a) && Inv(stage, w)
    ensures Inv(stage, Step(stage, w, a))
  {
    hide Typed, FreshInv, PhaseInv, KeysInv, WaitInv, ResultsInv, Effect, Output;
    var s', ts := Effect(stage, w, a), Tasks(Output(stage, w, a));
    TypedStep(stage, w, a);
    FreshStep(stage, w, a);
    PhaseStep(stage, w, a);
    KeysStepAll(stage, w, a);
    WaitStep(stage, w, a);
    ResultsStep(stage, w, a);
    OutputOnRecord(stage, w, a);
    forall i | 0 <= i < |ts| ensures Carries(stage, ts[i], s'.results) {
      assert ts[i] == Tasks(Output(stage, w, a))[i];
    }
    DeliveredMore(stage, s', ts);
    OnlyDelivered(stage, s', ts);
  }

  // ---------------------------------------------------------------- whole runs

  /** A stage before its first step: `cache` holds the results known beforehand. */
  ghost predicate Starts(stage: Stage, w: World, cache: map<Key, Result>) {
    && (exists keys: seq<Key> ::
          && Distinct(keys) && Elements(keys) == cache.Keys
          && w.local == Local(Dispatching, keys, [], [], [], Polling, cache, [], [], [], cache))
    && (forall k :: k in cache ==> ResultOf(stage, cache[k]))
    && (forall i :: 0 <= i < |w.inq| && w.inq[i].Job? ==> Fresh(stage, w.inq[i].task))
    && w.outq == []
  }

  lemma {:induction false} DistinctOnce(keys: seq<Key>, k: Key)
    requires Distinct(keys)
    ensures Sum(OfKey(k), keys) == One(k in keys)
  {
    if keys == [] {
    } else {
      DistinctOnce(keys[1..], k);
    }
  }

  lemma StartInv(stage: Stage, w: World, cache: map<Key, Result>)
    requires Starts(stage, w, cache)
    ensures Inv(stage, w)
  {
    forall k ensures Sum(OfKey(k), w.local.mycache) == Accounts(stage, w.local, k) <= 1 {
      DistinctOnce(w.local.mycache, k);
      assert k in w.local.mycache <==> k in Elements(w.local.mycache);
    }
  }

  /** The state after a sequence of actions, those that are not enabled left out. */
  ghost function Run(stage: Stage, w: World, actions: seq<Action>): (w': World)
    requires Inv(stage, w)
    ensures Inv(stage, w')
    decreases |actions|
  {
    if actions == [] then w
    else
      var prev := Run(stage, w, actions[..|actions| - 1]);
      var a := actions[|actions| - 1];
      if Enabled(stage, prev, a) then
        StepKeepsInv(stage, prev, a);
        Step(stage, prev, a)
      else prev
  }

  // ---------------------------------------------------------------- every task once

  /** Of the tasks taken in, those with property q are inside or delivered, each once. */
  ghost predicate Accounted(q: Task -> bool, s: Local) {
    Sum(OfTask(q), s.taken) == Inside(q, s) + Sum(OfTask(q), s.delivered)
  }

  /** What an action adds to the record of tasks taken in is what it takes from the queue. */
  lemma TakenStep(stage: Stage, q: Task -> bool, w: World, a: Action)
    requires Enabled(stage, w, a)
    ensures var s' := Effect(stage, w, a);
            && Sum(OfTask(q), s'.taken) == Sum(OfTask(q), w.local.taken) + Sum(OfMsg(q), Input(w, a))
            && s'.delivered == w.local.delivered
  {
    if a.Take? {
      SumOne(OfMsg(q), w.inq[0]);
      if w.inq[0].Job? {
        SumAdd(OfTask(q), w.local.taken, w.inq[0].task);
      }
    } else {
      assert Sum(OfMsg(q), Input(w, a)) == 0;
    }
    hide Sum;
  }

  lemma AccountedStep(stage: Stage, q: Task -> bool, w: World, a: Action)
    requires Enabled(stage, w, a) && Typed(stage, w.local) && Stable(stage, q)
    requires Accounted(q, w.local)
    ensures Accounted(q, Step(stage, w, a).local)
  {
    hide Sum, Effect, Output, Stable, Typed;
    var s, out := w.local, Output(stage, w, a);
    StepConserves(stage, q, w, a);
    TakenStep(stage, q, w, a);
    TasksOfMsgs(q, out);
    SumJoin(OfTask(q), s.delivered, Tasks(out));
  }

  lemma {:induction false} AccountedRun(stage: Stage, q: Task -> bool, w: World, actions: seq<Action>)
    requires Inv(stage, w) && Stable(stage, q) && Accounted(q, w.local)
    ensures Accounted(q, Run(stage, w, actions).local)
    decreases |actions|
  {
    hide Accounted, Inv;
    if actions == [] {
    } else {
      AccountedRun(stage, q, w, actions[..|actions| - 1]);
      var prev := Run(stage, w, actions[..|actions| - 1]);
      if Enabled(stage, prev, actions[|actions| - 1]) {
        InvTyped(stage, prev);
        AccountedStep(stage, q, prev, actions[|actions| - 1]);
      }
    }
  }

  lemma InvTyped(stage: Stage, w: World)
    requires Inv(stage, w)
    ensures Typed(stage, w.local)
  {
  }

  function ErasedAll(stage: Stage, ts: seq<Task>): seq<Task> {
    seq(|ts|, i requires 0 <= i < |ts| => Erased(stage, ts[i]))
  }

  function IsErased(stage: Stage, e: Task): Task -> bool {
    (t: Task) => Erased(stage, t) == e
  }

  lemma {:induction false} CountErased(stage: Stage, ts: seq<Task>, e: Task)
    ensures Sum(OfTask(IsErased(stage, e)), ts) == multiset(ErasedAll(stage, ts))[e]
  {
    if ts == [] {
    } else {
      CountErased(stage, ts[1..], e);
      assert ErasedAll(stage, ts) == [Erased(stage, ts[0])] + ErasedAll(stage, ts[1..]);
    }
  }

  /** Exactly-once delivery, over every interleaving: for each task, as it was before the stage, the
      times it was taken in are the times it is inside plus the times it was delivered. */
  lemma ExactlyOnce(stage: Stage, w: World, cache: map<Key, Result>, actions: seq<Action>, e: Task)
    requires Starts(stage, w, cache)
    ensures Inv(stage, w)
    ensures var s := Run(stage, w, actions).local;
            multiset(ErasedAll(stage, s.taken))[e]
            == Inside(IsErased(stage, e), s) + multiset(ErasedAll(stage, s.delivered))[e]
  {
    StartInv(stage, w, cache);
    assert Accounted(IsErased(stage, e), w.local);
    AccountedRun(stage, IsErased(stage, e), w, actions);
    var s := Run(stage, w, actions).local;
    CountErased(stage, s.taken, e);
    CountErased(stage, s.delivered, e);
  }

  /** So a stage that has shut down has delivered exactly the tasks it took in. */
  lemma ClosedDeliversAll(stage: Stage, w: World, cache: map<Key, Result>, actions: seq<Action>)
    requires Starts(stage, w, cache)
    ensures Inv(stage, w)
    ensures var s := Run(stage, w, actions).local;
            s.dispatcher.Closed? ==>
              multiset(ErasedAll(stage, s.taken)) == multiset(ErasedAll(stage, s.delivered))
  {
    StartInv(stage, w, cache);
    var s := Run(stage, w, actions).local;
    if s.dispatcher.Closed? {
      hide Starts, ErasedAll, Run, Sum;
      forall e ensures multiset(ErasedAll(stage, s.taken))[e] == multiset(ErasedAll(stage, s.delivered))[e] {
        ExactlyOnce(stage, w, cache, actions, e);
      }
    }
  }
}
