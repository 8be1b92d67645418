/** One stage of the build-and-test pipeline (pipeline_process.py, pipeline_worker.py) as a state
    machine: a dispatcher, a pool of workers and a helper that share queues. Every step takes at most
    one message from a queue and puts out what that message, or a report, calls for; a worker's two
    puts are two steps. A sequence of actions is an interleaving. */
module Pipeline {
  import opened FlagSets

  datatype Msg = Job(task: Task) | Pill

  /** A worker that has the task, and one that has reported its result but not yet passed the task
      on. */
  datatype Worker = Queued(task: Task) | Reported(task: Task)

  datatype Dispatcher = Dispatching | Joining | AwaitingHelper | Closed

  /** Where the helper's loops stand: before looking at its own queue, before looking at the
      completed queue, in the loop after the pill, and gone. */
  datatype Helper = Polling | Collecting | Draining | Exited

  datatype Completed = Completed(key: Key, result: Result)

  datatype Local = Local(
    dispatcher: Dispatcher,
    mycache: seq<Key>,
    workers: seq<Worker>,
    helperQueue: seq<Msg>,
    completed: seq<Completed>,
    helper: Helper,
    done: map<Key, Result>,
    waiting: seq<Task>,
    // history
    taken: seq<Task>,
    delivered: seq<Task>,
    results: map<Key, Result>)

  /** A stage between its input and its output queue. */
  datatype World = World(inq: seq<Msg>, local: Local, outq: seq<Msg>)

  datatype Action =
    | Feed(msg: Msg)            // the previous stage puts a message
    | Take                      // the dispatcher gets a message
    | Report(i: nat, r: Result) // worker i finishes its work and reports the result
    | Deliver(i: nat)           // worker i passes its task on
    | Join                      // the pool has joined: pill for the helper
    | Close                     // the helper has joined
    | Poll                      // the helper looks at its queue
    | Collect                   // the helper looks at the completed queue
    | Drain                     // a turn of the helper's last loop

  function RemoveAt<T>(s: seq<T>, i: nat): (r: seq<T>)
    requires i < |s|
    ensures |r| == |s| - 1
    ensures forall k :: 0 <= k < i ==> r[k] == s[k]
    ensures forall k :: i <= k < |r| ==> r[k] == s[k + 1]
  {
    s[..i] + s[i + 1..]
  }

  /** The waiting tasks with key k, and the others. */
  function Matching(stage: Stage, k: Key, ts: seq<Task>): (r: seq<Task>)
    ensures forall t :: t in r <==> t in ts && KeyOf(stage, t) == k
  {
    if ts == [] then []
    else (if KeyOf(stage, ts[0]) == k then [ts[0]] else []) + Matching(stage, k, ts[1..])
  }

  function Others(stage: Stage, k: Key, ts: seq<Task>): (r: seq<Task>)
    ensures forall t :: t in r <==> t in ts && KeyOf(stage, t) != k
  {
    if ts == [] then []
    else (if KeyOf(stage, ts[0]) != k then [ts[0]] else []) + Others(stage, k, ts[1..])
  }

  lemma SplitHead(stage: Stage, k: Key, ts: seq<Task>)
    requires ts != []
    ensures KeyOf(stage, ts[0]) == k ==>
        && Matching(stage, k, ts) == [ts[0]] + Matching(stage, k, ts[1..])
        && Others(stage, k, ts) == Others(stage, k, ts[1..])
    ensures KeyOf(stage, ts[0]) != k ==>
        && Matching(stage, k, ts) == Matching(stage, k, ts[1..])
        && Others(stage, k, ts) == [ts[0]] + Others(stage, k, ts[1..])
  {
  }

  function Resolved(stage: Stage, ts: seq<Task>, r: Result): (rs: seq<Task>)
    requires ResultOf(stage, r)
    ensures |rs| == |ts|
    ensures forall i :: 0 <= i < |ts| ==> rs[i] == WithResult(stage, ts[i], r)
  {
    seq(|ts|, i requires 0 <= i < |ts| => WithResult(stage, ts[i], r))
  }

  function AsJobs(ts: seq<Task>): (ms: seq<Msg>)
    ensures |ms| == |ts|
    ensures forall i :: 0 <= i < |ts| ==> ms[i] == Job(ts[i])
  {
    seq(|ts|, i requires 0 <= i < |ts| => Job(ts[i]))
  }

  /** The tasks among messages, in order. */
  function Tasks(ms: seq<Msg>): (ts: seq<Task>)
    ensures forall t :: t in ts <==> Job(t) in ms
  {
    if ms == [] then []
    else (if ms[0].Job? then [ms[0].task] else []) + Tasks(ms[1..])
  }

  predicate Enabled(stage: Stage, w: World, a: Action) {
    var s := w.local;
    match a
    case Feed(m) => m.Job? ==> Fresh(stage, m.task)
    case Take => s.dispatcher.Dispatching? && w.inq != []
    case Report(i, r) => i < |s.workers| && s.workers[i].Queued? && ResultOf(stage, r)
    case Deliver(i) => i < |s.workers| && s.workers[i].Reported?
    case Join => s.dispatcher.Joining? && s.workers == []
    case Close => s.dispatcher.AwaitingHelper? && s.helper.Exited?
    case Poll => s.helper.Polling?
    case Collect => s.helper.Collecting?
    case Drain => s.helper.Draining?
  }

  /** What an action puts on the output queue. */
  function Output(stage: Stage, w: World, a: Action): seq<Msg>
    requires Enabled(stage, w, a) && Typed(stage, w.local)
  {
    var s := w.local;
    match a
    case Take => if w.inq[0].Pill? then [Pill] else []
    case Deliver(i) => [Job(s.workers[i].task)]
    case Poll =>
      if s.helperQueue != [] && s.helperQueue[0].Job? && KeyOf(stage, s.helperQueue[0].task) in s.done then
        [Job(WithResult(stage, s.helperQueue[0].task, s.done[KeyOf(stage, s.helperQueue[0].task)]))]
      else []
    case Collect => CollectOutput(stage, s)
    case Drain => if s.waiting == [] then [] else CollectOutput(stage, s)
    case _ => []
  }

  function CollectOutput(stage: Stage, s: Local): seq<Msg>
    requires Typed(stage, s)
  {
    if s.completed == [] then []
    else AsJobs(Resolved(stage, Matching(stage, s.completed[0].key, s.waiting), s.completed[0].result))
  }

  /** GetResultFromCompletedQueue. */
  function CollectOne(stage: Stage, s: Local): Local {
    if s.completed == [] then s
    else
      var c := s.completed[0];
      s.(completed := s.completed[1..], done := s.done[c.key := c.result], waiting := Others(stage, c.key, s.waiting))
  }

  /** What an action does to the stage, but for the record of deliveries. */
  function Effect(stage: Stage, w: World, a: Action): Local
    requires Enabled(stage, w, a)
  {
    var s := w.local;
    match a
    case Feed(_) => s
    case Take =>
      if w.inq[0].Pill? then s.(dispatcher := Joining)
      else
        var t := w.inq[0].task;
        var k := KeyOf(stage, t);
        if k in s.mycache then s.(helperQueue := s.helperQueue + [Job(t)], taken := s.taken + [t])
        else s.(workers := s.workers + [Queued(t)], mycache := s.mycache + [k], taken := s.taken + [t])
    case Report(i, r) =>
      var t := s.workers[i].task;
      s.(workers := s.workers[i := Reported(WithResult(stage, t, r))],
         completed := s.completed + [Completed(KeyOf(stage, t), r)],
         results := s.results[KeyOf(stage, t) := r])
    case Deliver(i) => s.(workers := RemoveAt(s.workers, i))
    case Join => s.(helperQueue := s.helperQueue + [Pill], dispatcher := AwaitingHelper)
    case Close => s.(dispatcher := Closed)
    case Poll =>
      if s.helperQueue == [] then s.(helper := Collecting)
      else if s.helperQueue[0].Pill? then s.(helperQueue := s.helperQueue[1..], helper := Draining)
      else
        var t := s.helperQueue[0].task;
        var s' := s.(helperQueue := s.helperQueue[1..], helper := Collecting);
        if KeyOf(stage, t) in s.done then s' else s'.(waiting := s.waiting + [t])
    case Collect => CollectOne(stage, s).(helper := Polling)
    case Drain => if s.waiting == [] then s.(helper := Exited) else CollectOne(stage, s)
  }

  function Step(stage: Stage, w: World, a: Action): World
    requires Enabled(stage, w, a) && Typed(stage, w.local)
  {
    var out := Output(stage, w, a);
    var s' := Effect(stage, w, a);
    World(
      if a.Feed? then w.inq + [a.msg] else if a.Take? then w.inq[1..] else w.inq,
      s'.(delivered := s'.delivered + Tasks(out)),
      w.outq + out)
  }

  /** Results on record are results of this stage. */
  ghost predicate Typed(stage: Stage, s: Local) {
    && (forall k :: k in s.done ==> ResultOf(stage, s.done[k]))
    && (forall i :: 0 <= i < |s.completed| ==> ResultOf(stage, s.completed[i].result))
  }

  // ---------------------------------------------------------------- counting

  /** The sum of f over a sequence. */
  function Sum<T>(f: T -> nat, s: seq<T>): nat {
    if s == [] then 0 else f(s[0]) + Sum(f, s[1..])
  }

  lemma {:induction false} SumJoin<T>(f: T -> nat, a: seq<T>, b: seq<T>)
    ensures Sum(f, a + b) == Sum(f, a) + Sum(f, b)
  {
    if a == [] {
      assert a + b == b;
    } else {
      SumJoin(f, a[1..], b);
      assert (a + b)[1..] == a[1..] + b;
    }
  }

  lemma SumOne<T>(f: T -> nat, x: T)
    ensures Sum(f, [x]) == f(x)
  {
  }

  lemma SumAdd<T>(f: T -> nat, s: seq<T>, x: T)
    ensures Sum(f, s + [x]) == Sum(f, s) + f(x)
  {
    SumJoin(f, s, [x]);
  }

  lemma SumAt<T>(f: T -> nat, s: seq<T>, i: nat)
    requires i < |s|
    ensures Sum(f, s) == Sum(f, RemoveAt(s, i)) + f(s[i])
  {
    var front, tail := s[..i], s[i + 1..];
    SumJoin(f, front + [s[i]], tail);
    SumAdd(f, front, s[i]);
    SumJoin(f, front, tail);
    hide Sum;
    assert s == front + [s[i]] + tail;
  }

  lemma SumSet<T>(f: T -> nat, s: seq<T>, i: nat, x: T)
    requires i < |s|
    ensures Sum(f, s[i := x]) + f(s[i]) == Sum(f, s) + f(x)
  {
    SumAt(f, s, i);
    SumAt(f, s[i := x], i);
    assert RemoveAt(s[i := x], i) == RemoveAt(s, i);
  }

  /** A positive sum has a positive summand. */
  lemma {:induction false} SumWitness<T>(f: T -> nat, s: seq<T>) returns (i: nat)
    requires Sum(f, s) > 0
    ensures i < |s| && f(s[i]) > 0
  {
    if f(s[0]) > 0 {
      i := 0;
    } else {
      i := SumWitness(f, s[1..]);
      i := i + 1;
    }
  }

  lemma SumOver<T>(f: T -> nat, s: seq<T>, i: nat)
    requires i < |s|
    ensures Sum(f, s) >= f(s[i])
  {
    SumAt(f, s, i);
  }

  // ---------------------------------------------------------------- conservation

  function One(b: bool): nat {
    if b then 1 else 0
  }

  function OfTask(q: Task -> bool): Task -> nat {
    (t: Task) => One(q(t))
  }

  function InMsg(q: Task -> bool, m: Msg): nat {
    match m
    case Job(t) => One(q(t))
    case Pill => 0
  }

  function OfMsg(q: Task -> bool): Msg -> nat {
    (m: Msg) => InMsg(q, m)
  }

  function OfWorker(q: Task -> bool): Worker -> nat {
    (v: Worker) => One(q(v.task))
  }

  /** A property of tasks that setting this stage's result does not change. */
  ghost predicate Stable(stage: Stage, q: Task -> bool) {
    forall t, r :: ResultOf(stage, r) ==> q(WithResult(stage, t, r)) == q(t)
  }

  /** How many tasks with property q are inside the stage: at a worker, queued for the helper, or
      waiting. */
  function Inside(q: Task -> bool, s: Local): nat {
    Sum(OfWorker(q), s.workers) + Sum(OfMsg(q), s.helperQueue) + Sum(OfTask(q), s.waiting)
  }

  lemma {:induction false} JobsOfTasks(q: Task -> bool, ts: seq<Task>)
    ensures Sum(OfMsg(q), AsJobs(ts)) == Sum(OfTask(q), ts)
  {
    if ts == [] {
    } else {
      JobsOfTasks(q, ts[1..]);
      assert AsJobs(ts)[1..] == AsJobs(ts[1..]);
    }
  }

  lemma {:induction false} TasksOfMsgs(q: Task -> bool, ms: seq<Msg>)
    ensures Sum(OfTask(q), Tasks(ms)) == Sum(OfMsg(q), ms)
  {
    if ms == [] {
    } else {
      TasksOfMsgs(q, ms[1..]);
      if ms[0].Job? {
        SumJoin(OfTask(q), [ms[0].task], Tasks(ms[1..]));
      } else {
        assert Tasks(ms) == Tasks(ms[1..]) && OfMsg(q)(ms[0]) == 0;
      }
    }
  }

  lemma {:induction false} ResolvedCount(stage: Stage, q: Task -> bool, ts: seq<Task>, r: Result)
    requires Stable(stage, q) && ResultOf(stage, r)
    ensures Sum(OfTask(q), Resolved(stage, ts, r)) == Sum(OfTask(q), ts)
  {
    if ts == [] {
    } else {
      ResolvedCount(stage, q, ts[1..], r);
      assert Resolved(stage, ts, r)[1..] == Resolved(stage, ts[1..], r);
    }
  }

  lemma {:induction false} SplitCount(stage: Stage, q: Task -> bool, k: Key, ts: seq<Task>)
    ensures Sum(OfTask(q), ts) == Sum(OfTask(q), Matching(stage, k, ts)) + Sum(OfTask(q), Others(stage, k, ts))
  {
    if ts == [] {
    } else {
      SplitCount(stage, q, k, ts[1..]);
      SplitHead(stage, k, ts);
      SumJoin(OfTask(q), [ts[0]], Matching(stage, k, ts[1..]));
      SumJoin(OfTask(q), [ts[0]], Others(stage, k, ts[1..]));
      hide Matching, Others;
    }
  }

  /** Collecting moves the tasks it resolves from waiting to the output. */
  lemma CollectConserves(stage: Stage, q: Task -> bool, s: Local)
    requires Typed(stage, s) && Stable(stage, q)
    ensures Inside(q, s) == Inside(q, CollectOne(stage, s)) + Sum(OfMsg(q), CollectOutput(stage, s))
  {
    if s.completed != [] {
      var c := s.completed[0];
      var ts := Matching(stage, c.key, s.waiting);
      SplitCount(stage, q, c.key, s.waiting);
      ResolvedCount(stage, q, ts, c.result);
      JobsOfTasks(q, Resolved(stage, ts, c.result));
    }
  }

  /** What an action takes from the input queue. */
  function Input(w: World, a: Action): seq<Msg>
    requires a.Take? ==> w.inq != []
  {
    if a.Take? then [w.inq[0]] else []
  }

  lemma TakeConserves(stage: Stage, q: Task -> bool, w: World)
    requires Enabled(stage, w, Take)
    ensures Sum(OfMsg(q), [w.inq[0]]) + Inside(q, w.local) == Inside(q, Effect(stage, w, Take))
  {
    var s := w.local;
    if w.inq[0].Job? {
      SumAdd(OfMsg(q), s.helperQueue, w.inq[0]);
      SumAdd(OfWorker(q), s.workers, Queued(w.inq[0].task));
    }
  }

  lemma PollConserves(stage: Stage, q: Task -> bool, w: World)
    requires Enabled(stage, w, Poll) && Typed(stage, w.local) && Stable(stage, q)
    ensures Inside(q, w.local) == Inside(q, Effect(stage, w, Poll)) + Sum(OfMsg(q), Output(stage, w, Poll))
  {
    var s := w.local;
    if s.helperQueue != [] && s.helperQueue[0].Job? {
      SumAdd(OfTask(q), s.waiting, s.helperQueue[0].task);
    }
  }

  /** No step loses or duplicates a task: what it takes in and what was inside is what is inside
      afterwards and what it puts out. */
  lemma StepConserves(stage: Stage, q: Task -> bool, w: World, a: Action)
    requires Enabled(stage, w, a) && Typed(stage, w.local) && Stable(stage, q)
    ensures Sum(OfMsg(q), Input(w, a)) + Inside(q, w.local)
            == Inside(q, Effect(stage, w, a)) + Sum(OfMsg(q), Output(stage, w, a))
  {
    var s := w.local;
    match a
    case Feed(_) =>
    case Take => TakeConserves(stage, q, w);
    case Report(i, r) =>
      SumSet(OfWorker(q), s.workers, i, Reported(WithResult(stage, s.workers[i].task, r)));
    case Deliver(i) => SumAt(OfWorker(q), s.workers, i);
    case Join => SumAdd(OfMsg(q), s.helperQueue, Pill);
    case Close =>
    case Poll => PollConserves(stage, q, w);
    case Collect => CollectConserves(stage, q, s);
    case Drain => CollectConserves(stage, q, s);
  }
}
