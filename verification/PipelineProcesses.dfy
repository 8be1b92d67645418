/** The processes of a stage as they are written: objects that pop and push queues and change their
    own dictionaries and lists in place. Each method is proved to do what the state machine of
    module Pipeline says the corresponding action does. */
module PipelineProcesses {
  import opened FlagSets
  import opened Pipeline

  class Queue<T> {
    var contents: seq<T>

    constructor ()
      ensures contents == []
    {
      contents := [];
    }

    method Put(x: T)
      modifies this
      ensures contents == old(contents) + [x]
    {
      contents := contents + [x];
    }

    method Get() returns (x: T)
      requires contents != []
      modifies this
      ensures [x] + contents == old(contents)
    {
      x := contents[0];
      contents := contents[1..];
    }
  }

  // ---------------------------------------------------------------- list.remove

  /** list.remove drops the first task that equals t, and tasks are equal when their flags are. */
  function RemoveFirst(ts: seq<Task>, t: Task): seq<Task> {
    if ts == [] then []
    else if ts[0].flags == t.flags then ts[1..]
    else [ts[0]] + RemoveFirst(ts[1..], t)
  }

  /** ts without its first n tasks of key k. */
  function DropMatching(stage: Stage, k: Key, ts: seq<Task>, n: nat): seq<Task> {
    if ts == [] || n == 0 then ts
    else if KeyOf(stage, ts[0]) == k then DropMatching(stage, k, ts[1..], n - 1)
    else [ts[0]] + DropMatching(stage, k, ts[1..], n)
  }

  /** Tasks with equal flags have equal keys: trivially when building, and when testing because equal
      flags were given equal images. */
  ghost predicate FlagsDetermineKey(stage: Stage, ts: seq<Task>) {
    forall i, j :: 0 <= i < |ts| && 0 <= j < |ts| && ts[i].flags == ts[j].flags ==> KeyOf(stage, ts[i]) == KeyOf(stage, ts[j])
  }

  lemma DropNone(stage: Stage, k: Key, ts: seq<Task>)
    ensures DropMatching(stage, k, ts, 0) == ts
  {
  }

  lemma DropHead(stage: Stage, k: Key, ts: seq<Task>, n: nat)
    requires ts != []
    ensures KeyOf(stage, ts[0]) == k ==> DropMatching(stage, k, ts, n + 1) == DropMatching(stage, k, ts[1..], n)
    ensures KeyOf(stage, ts[0]) != k ==> DropMatching(stage, k, ts, n) == [ts[0]] + DropMatching(stage, k, ts[1..], n)
  {
    DropNone(stage, k, ts[1..]);
    assert ts == [ts[0]] + ts[1..];
  }

  lemma RemoveHead(t': Task, ts: seq<Task>, t: Task)
    ensures t'.flags == t.flags ==> RemoveFirst([t'] + ts, t) == ts
    ensures t'.flags != t.flags ==> RemoveFirst([t'] + ts, t) == [t'] + RemoveFirst(ts, t)
  {
    assert ([t'] + ts)[1..] == ts;
  }

  /** The n-th matching task differs by its flags from a task with another key. */
  lemma DiffersFromNext(stage: Stage, k: Key, ts: seq<Task>, n: nat)
    requires FlagsDetermineKey(stage, ts) && n < |Matching(stage, k, ts)|
    ensures KeyOf(stage, ts[0]) != k ==> ts[0].flags != Matching(stage, k, ts)[n].flags
    ensures FlagsDetermineKey(stage, ts[1..])
  {
    var t := Matching(stage, k, ts)[n];
    assert t in Matching(stage, k, ts);
    var i :| 0 <= i < |ts| && ts[i] == t;
    hide Matching;
  }

  /** A head with another key is out of the way. */
  lemma SkipHead(stage: Stage, k: Key, ts: seq<Task>, n: nat, t: Task)
    requires ts != [] && KeyOf(stage, ts[0]) != k && ts[0].flags != t.flags
    requires RemoveFirst(DropMatching(stage, k, ts[1..], n), t) == DropMatching(stage, k, ts[1..], n + 1)
    ensures RemoveFirst(DropMatching(stage, k, ts, n), t) == DropMatching(stage, k, ts, n + 1)
  {
    hide *;
    DropHead(stage, k, ts, n);
    DropHead(stage, k, ts, n + 1);
    RemoveHead(ts[0], DropMatching(stage, k, ts[1..], n), t);
  }

  /** A head with the key is the first to go. */
  lemma TakeHead(stage: Stage, k: Key, ts: seq<Task>)
    requires ts != [] && KeyOf(stage, ts[0]) == k
    ensures RemoveFirst(DropMatching(stage, k, ts, 0), ts[0]) == DropMatching(stage, k, ts, 1)
  {
    hide *;
    DropNone(stage, k, ts);
    DropNone(stage, k, ts[1..]);
    DropHead(stage, k, ts, 0);
    RemoveHead(ts[0], ts[1..], ts[0]);
    assert ts == [ts[0]] + ts[1..];
  }

  lemma NextMatch(stage: Stage, k: Key, ts: seq<Task>, n: nat)
    requires n < |Matching(stage, k, ts)|
    ensures ts != []
    ensures KeyOf(stage, ts[0]) != k ==>
        n < |Matching(stage, k, ts[1..])| && Matching(stage, k, ts)[n] == Matching(stage, k, ts[1..])[n]
    ensures KeyOf(stage, ts[0]) == k && n == 0 ==> Matching(stage, k, ts)[n] == ts[0]
    ensures KeyOf(stage, ts[0]) == k && n > 0 ==>
        n - 1 < |Matching(stage, k, ts[1..])| && Matching(stage, k, ts)[n] == Matching(stage, k, ts[1..])[n - 1]
  {
    SplitHead(stage, k, ts);
    hide KeyOf;
  }

  /** Removing the next matching task by equality removes that very task. */
  lemma {:induction false} RemoveNext(stage: Stage, k: Key, ts: seq<Task>, n: nat)
    requires FlagsDetermineKey(stage, ts) && n < |Matching(stage, k, ts)|
    ensures RemoveFirst(DropMatching(stage, k, ts, n), Matching(stage, k, ts)[n]) == DropMatching(stage, k, ts, n + 1)
  {
    hide *;
    NextMatch(stage, k, ts, n);
    DiffersFromNext(stage, k, ts, n);
    if KeyOf(stage, ts[0]) != k {
      RemoveNext(stage, k, ts[1..], n);
      SkipHead(stage, k, ts, n, Matching(stage, k, ts)[n]);
    } else if n == 0 {
      TakeHead(stage, k, ts);
    } else {
      RemoveNext(stage, k, ts[1..], n - 1);
      DropHead(stage, k, ts, n);
      DropHead(stage, k, ts, n - 1);
    }
  }

  lemma {:induction false} DropAll(stage: Stage, k: Key, ts: seq<Task>)
    ensures DropMatching(stage, k, ts, |Matching(stage, k, ts)|) == Others(stage, k, ts)
  {
    if ts == [] {
    } else {
      var rest := ts[1..];
      DropAll(stage, k, rest);
      DropNone(stage, k, rest);
      DropNone(stage, k, ts);
      SplitHead(stage, k, ts);
      hide *;
      DropHead(stage, k, ts, |Matching(stage, k, rest)|);
      assert ts == [ts[0]] + rest;
    }
  }

  lemma OthersDetermined(stage: Stage, k: Key, ts: seq<Task>)
    requires FlagsDetermineKey(stage, ts)
    ensures FlagsDetermineKey(stage, Others(stage, k, ts))
  {
    var rest := Others(stage, k, ts);
    forall i, j | 0 <= i < |rest| && 0 <= j < |rest| && rest[i].flags == rest[j].flags
      ensures KeyOf(stage, rest[i]) == KeyOf(stage, rest[j])
    {
      assert rest[i] in rest && rest[j] in rest;
      var i' :| 0 <= i' < |ts| && ts[i'] == rest[i];
      var j' :| 0 <= j' < |ts| && ts[j'] == rest[j];
    }
  }

  // ---------------------------------------------------------------- the helper

  class HelperProcess {
    const stage: Stage
    const helperQueue: Queue<Msg>
    const completedQueue: Queue<Completed>
    const resultQueue: Queue<Msg>
    var doneDict: map<Key, Result>
    var waitingList: seq<Task>

    constructor (stage: Stage, doneDict: map<Key, Result>, helperQueue: Queue<Msg>,
                 completedQueue: Queue<Completed>, resultQueue: Queue<Msg>)
      ensures this.stage == stage && this.doneDict == doneDict && waitingList == []
      ensures this.helperQueue == helperQueue && this.completedQueue == completedQueue
      ensures this.resultQueue == resultQueue
    {
      this.stage, this.doneDict, waitingList := stage, doneDict, [];
      this.helperQueue, this.completedQueue, this.resultQueue := helperQueue, completedQueue, resultQueue;
    }

    /** The stage as the helper sees it. */
    ghost function View(helper: Helper): Local
      reads this, helperQueue, completedQueue
    {
      Local(Dispatching, [], [], helperQueue.contents, completedQueue.contents, helper, doneDict, waitingList, [], [], map[])
    }

    ghost predicate Valid()
      reads this, helperQueue, completedQueue, resultQueue
    {
      helperQueue != resultQueue && Typed(stage, View(Polling))
    }

    /** The body of the helper's first loop up to the call below; `stop` once the pill has come. */
    method PollHelperQueue() returns (stop: bool)
      requires Valid()
      modifies this`waitingList, helperQueue, resultQueue
      ensures var w := World([], old(View(Polling)), old(resultQueue.contents));
              && View(if stop then Draining else Collecting) == Effect(stage, w, Poll)
              && resultQueue.contents == w.outq + Output(stage, w, Poll)
      ensures var messages := old(helperQueue.contents);
              && helperQueue.contents == messages[if messages == [] then 0 else 1..]
              && stop == (messages != [] && messages[0].Pill?)
      ensures var messages := old(helperQueue.contents);
              var here := if messages != [] && messages[0].Job? then [messages[0].task] else [];
              var known := here != [] && KeyOf(stage, here[0]) in doneDict;
              && waitingList == old(waitingList) + (if known then [] else here)
              && resultQueue.contents == old(resultQueue.contents)
                   + if known then [Job(WithResult(stage, here[0], doneDict[KeyOf(stage, here[0])]))] else []
    {
      stop := false;
      if helperQueue.contents != [] {
        var message := helperQueue.Get();
        match message
        case Pill => stop := true;
        case Job(task) =>
          var identifier := KeyOf(stage, task);
          if identifier in doneDict {
            resultQueue.Put(Job(WithResult(stage, task, doneDict[identifier])));
          } else {
            waitingList := waitingList + [task];
          }
      }
    }

    /** Settles one report: every waiting task with its key gets its result and leaves. */
    method GetResultFromCompletedQueue()
      requires Valid() && FlagsDetermineKey(stage, waitingList)
      modifies this, completedQueue, resultQueue
      ensures Valid() && FlagsDetermineKey(stage, waitingList)
      ensures View(Polling) == CollectOne(stage, old(View(Polling)))
      ensures resultQueue.contents == old(resultQueue.contents) + CollectOutput(stage, old(View(Polling)))
    {
      if completedQueue.contents == [] {
        return;
      }
      ghost var waiting := waitingList;
      var report := completedQueue.Get();
      assert report == old(completedQueue.contents)[0] && completedQueue.contents == old(completedQueue.contents)[1..];
      doneDict := doneDict[report.key := report.result];
      var tasks := Matching(stage, report.key, waitingList);
      ghost var out := AsJobs(Resolved(stage, tasks, report.result));
      for n := 0 to |tasks|
        invariant waitingList == DropMatching(stage, report.key, waiting, n)
        invariant resultQueue.contents == old(resultQueue.contents) + out[..n]
        invariant doneDict == old(doneDict)[report.key := report.result]
        invariant completedQueue.contents == old(completedQueue.contents)[1..]
        invariant helperQueue.contents == old(helperQueue.contents)
      {
        resultQueue.Put(Job(WithResult(stage, tasks[n], report.result)));
        RemoveNext(stage, report.key, waiting, n);
        waitingList := RemoveFirst(waitingList, tasks[n]);
        assert out[..n + 1] == out[..n] + [out[n]];
      }
      DropAll(stage, report.key, waiting);
      assert out[..|tasks|] == out;
      OthersDetermined(stage, report.key, waiting);
    }

    /** The helper's last loop. It ends because no waiting task waits for a report that is not there, as
        soon as it has settled enough reports: the first `used`. */
    method ResolveRemaining() returns (ghost used: nat, ghost out: seq<Msg>)
      requires Valid() && FlagsDetermineKey(stage, waitingList)
      requires AllReported(stage, waitingList, completedQueue.contents)
      modifies this, completedQueue, resultQueue
      ensures Valid() && waitingList == []
      ensures AllResolved(stage, old(View(Polling)), View(Polling), used, out)
      ensures resultQueue.contents == old(resultQueue.contents) + out
    {
      hide AllResolved, AllReported, FlagsDetermineKey, Typed;
      ghost var start, base := View(Polling), resultQueue.contents;
      used, out := 0, [];
      ResolvingStart();
      while waitingList != []
        invariant Resolving(start, used, out) && resultQueue.contents == base + out
        decreases |completedQueue.contents|
      {
        hide Resolving;
        out := ResolveTurn(start, used, out, base);
        used := used + 1;
      }
      ResolvingEnd(start, used, out);
      hide Resolving;
    }

    lemma ResolvingStart()
      requires Valid() && FlagsDetermineKey(stage, waitingList)
      requires AllReported(stage, waitingList, completedQueue.contents)
      ensures Resolving(View(Polling), 0, [])
    {
      CollectedStart(stage, View(Polling));
    }

    lemma ResolvingEnd(start: Local, used: nat, out: seq<Msg>)
      requires Resolving(start, used, out) && waitingList == []
      ensures Valid() && AllResolved(stage, start, View(Polling), used, out)
    {
      hide Collected, CollectedOutput, Resolves, Updated, FlagsDetermineKey, AllReported;
      CollectedAll(stage, start, used);
      if used > 0 {
        LastReportUsed(stage, start, used - 1);
      }
    }

    /** Part way through that loop: it began in `start`, has settled `used` reports and put out `out`. */
    ghost predicate Resolving(start: Local, used: nat, out: seq<Msg>)
      reads this, helperQueue, completedQueue, resultQueue
    {
      && Valid() && FlagsDetermineKey(stage, waitingList) && AllReported(stage, waitingList, completedQueue.contents)
      && Typed(stage, start) && used <= |start.completed| && View(Polling) == Collected(stage, start, used)
      && (used > 0 ==> start.waiting != [] && Collected(stage, start, used - 1).waiting != [])
      && out == CollectedOutput(stage, start, used)
    }

    method ResolveTurn(ghost start: Local, ghost used: nat, ghost out: seq<Msg>, ghost base: seq<Msg>)
      returns (ghost out': seq<Msg>)
      requires Resolving(start, used, out) && waitingList != [] && resultQueue.contents == base + out
      modifies this, completedQueue, resultQueue
      ensures Resolving(start, used + 1, out') && |completedQueue.contents| < |old(completedQueue.contents)|
      ensures resultQueue.contents == base + out'
    {
      hide AllReported, CollectOutput, FlagsDetermineKey, Collected, CollectedOutput, Typed, CollectOne;
      ghost var before := View(Polling);
      CollectedReports(stage, start, used);
      ReportsLeft(stage, before);
      CollectedStep(stage, start, used);
      CollectOneIs(stage, before);
      WaitedFrom(stage, start, used);
      GetResultFromCompletedQueue();
      ghost var more := CollectOutput(stage, before);
      out' := out + more;
      assert base + out + more == base + (out + more);
    }
  }

  // ---------------------------------------------------------------- settling several reports

  /** The helper after it has settled the first n reports, and what that has put out. */
  function Collected(stage: Stage, s: Local, n: nat): (s': Local)
    ensures Typed(stage, s) ==> Typed(stage, s')
  {
    if n == 0 then s else CollectOne(stage, Collected(stage, s, n - 1))
  }

  function CollectedOutput(stage: Stage, s: Local, n: nat): seq<Msg>
    requires Typed(stage, s)
  {
    if n == 0 then [] else CollectedOutput(stage, s, n - 1) + CollectOutput(stage, Collected(stage, s, n - 1))
  }

  /** `out` holds exactly the tasks of `waiting`, each with the result that one of the reports has for its
      key. */
  ghost predicate Resolves(stage: Stage, waiting: seq<Task>, reports: seq<Completed>, out: seq<Msg>) {
    && (forall m :: m in out ==> m.Job? && ResolvedBy(stage, m.task, reports))
    && (forall q: Task -> bool :: Stable(stage, q) ==> Sum(OfMsg(q), out) == Sum(OfTask(q), waiting))
  }

  /** From s to s' the first `used` reports have been settled, which left nothing waiting: the reports
      are gone from the queue and in the dictionary, the tasks are in `out`. No report more than needed
      has been used: the last one was some waiting task's. */
  ghost predicate AllResolved(stage: Stage, s: Local, s': Local, used: nat, out: seq<Msg>) {
    && used <= |s.completed| && s'.completed == s.completed[used..]
    && s'.waiting == [] && Resolves(stage, s.waiting, s.completed[..used], out)
    && s'.done == Updated(s.done, s.completed[..used])
    && (s.waiting == [] ==> used == 0)
    && (used > 0 ==> exists t :: t in s.waiting && KeyOf(stage, t) == s.completed[used - 1].key)
  }

  ghost predicate ResolvedBy(stage: Stage, t: Task, reports: seq<Completed>) {
    exists c :: c in reports && c.key == KeyOf(stage, t) && ResultOf(stage, c.result) && t == WithResult(stage, t, c.result)
  }

  /** The dictionary after the reports have been entered in turn. */
  function Updated(done: map<Key, Result>, reports: seq<Completed>): (done': map<Key, Result>)
    ensures forall i :: 0 <= i < |reports| ==> reports[i].key in done'
    ensures forall k :: k in done ==> k in done'
  {
    if reports == [] then done
    else
      var last := |reports| - 1;
      Updated(done, reports[..last])[reports[last].key := reports[last].result]
  }

  lemma CollectedStart(stage: Stage, s: Local)
    requires Typed(stage, s)
    ensures Collected(stage, s, 0) == s && CollectedOutput(stage, s, 0) == []
  {
  }

  lemma CollectedStep(stage: Stage, s: Local, n: nat)
    requires Typed(stage, s)
    ensures Collected(stage, s, n + 1) == CollectOne(stage, Collected(stage, s, n))
    ensures CollectedOutput(stage, s, n + 1) == CollectedOutput(stage, s, n) + CollectOutput(stage, Collected(stage, s, n))
  {
  }

  lemma CollectOneIs(stage: Stage, s: Local)
    requires s.completed != []
    ensures var s' := CollectOne(stage, s);
            && |s'.completed| == |s.completed| - 1
            && (forall i :: 0 <= i < |s'.completed| ==> s'.completed[i] == s.completed[i + 1])
            && s'.done == s.done[s.completed[0].key := s.completed[0].result]
  {
  }

  /** What waits now has waited from the start. */
  lemma WaitedFrom(stage: Stage, s: Local, n: nat)
    ensures Collected(stage, s, n).waiting != [] ==> s.waiting != []
  {
    CollectedWaited(stage, s, n);
    if Collected(stage, s, n).waiting != [] {
      assert Collected(stage, s, n).waiting[0] in s.waiting;
    }
    hide Collected;
  }

  lemma {:induction false} CollectedReports(stage: Stage, s: Local, n: nat)
    requires Typed(stage, s) && n <= |s.completed|
    ensures |Collected(stage, s, n).completed| == |s.completed| - n
    ensures forall i :: 0 <= i < |s.completed| - n ==> Collected(stage, s, n).completed[i] == s.completed[i + n]
  {
    hide *;
    if n == 0 {
      CollectedStart(stage, s);
    } else {
      CollectedReports(stage, s, n - 1);
      CollectedStep(stage, s, n - 1);
      CollectOneIs(stage, Collected(stage, s, n - 1));
    }
  }

  lemma {:induction false} CollectedDone(stage: Stage, s: Local, n: nat)
    requires Typed(stage, s) && n <= |s.completed|
    ensures Collected(stage, s, n).done == Updated(s.done, s.completed[..n])
  {
    hide *;
    if n == 0 {
      CollectedStart(stage, s);
      assert s.completed[..0] == [];
      NothingEntered(s.done);
    } else {
      CollectedDone(stage, s, n - 1);
      CollectedReports(stage, s, n - 1);
      CollectedStep(stage, s, n - 1);
      CollectOneIs(stage, Collected(stage, s, n - 1));
      OneMoreEntered(s.done, s.completed, n - 1);
    }
  }

  lemma NothingEntered(done: map<Key, Result>)
    ensures Updated(done, []) == done
  {
  }

  lemma OneMoreEntered(done: map<Key, Result>, reports: seq<Completed>, n: nat)
    requires n < |reports|
    ensures Updated(done, reports[..n + 1]) == Updated(done, reports[..n])[reports[n].key := reports[n].result]
  {
    assert reports[..n + 1][..n] == reports[..n];
  }

  lemma CollectFrame(stage: Stage, q: Task -> bool, s: Local)
    requires Typed(stage, s) && Stable(stage, q)
    ensures Sum(OfTask(q), s.waiting) == Sum(OfTask(q), CollectOne(stage, s).waiting) + Sum(OfMsg(q), CollectOutput(stage, s))
  {
    CollectConserves(stage, q, s);
    hide Sum, CollectOutput, Others;
  }

  lemma {:induction false} CollectedConserves(stage: Stage, q: Task -> bool, s: Local, n: nat)
    requires Typed(stage, s) && Stable(stage, q)
    ensures Sum(OfTask(q), s.waiting)
            == Sum(OfTask(q), Collected(stage, s, n).waiting) + Sum(OfMsg(q), CollectedOutput(stage, s, n))
  {
    hide *;
    if n == 0 {
      CollectedStart(stage, s);
      NothingOut(q);
    } else {
      CollectedConserves(stage, q, s, n - 1);
      CollectedStep(stage, s, n - 1);
      CollectFrame(stage, q, Collected(stage, s, n - 1));
      SumJoin(OfMsg(q), CollectedOutput(stage, s, n - 1), CollectOutput(stage, Collected(stage, s, n - 1)));
    }
  }

  lemma NothingOut(q: Task -> bool)
    ensures Sum(OfMsg(q), []) == 0
  {
  }

  /** One settled report resolves tasks by that report. */
  lemma CollectResolves(stage: Stage, s: Local, reports: seq<Completed>)
    requires Typed(stage, s) && (s.completed != [] ==> s.completed[0] in reports)
    ensures forall m :: m in CollectOutput(stage, s) ==> m.Job? && ResolvedBy(stage, m.task, reports)
  {
    if s.completed != [] {
      var c := s.completed[0];
      var ts := Matching(stage, c.key, s.waiting);
      forall i | 0 <= i < |ts| ensures ResolvedBy(stage, WithResult(stage, ts[i], c.result), reports) {
        assert ts[i] in ts;
        assert c in reports && c.key == KeyOf(stage, WithResult(stage, ts[i], c.result));
      }
    }
  }

  lemma {:induction false} CollectedResolve(stage: Stage, s: Local, n: nat, reports: seq<Completed>)
    requires Typed(stage, s) && n <= |s.completed| && forall i :: 0 <= i < n ==> s.completed[i] in reports
    ensures forall m :: m in CollectedOutput(stage, s, n) ==> m.Job? && ResolvedBy(stage, m.task, reports)
  {
    hide *;
    if n == 0 {
      CollectedStart(stage, s);
    } else {
      CollectedResolve(stage, s, n - 1, reports);
      CollectedReports(stage, s, n - 1);
      CollectedStep(stage, s, n - 1);
      assert s.completed[n - 1] in reports;
      CollectResolves(stage, Collected(stage, s, n - 1), reports);
    }
  }

  /** When nothing waits any more, all that waited has been put out, resolved. */
  lemma CollectedAll(stage: Stage, s: Local, n: nat)
    requires Typed(stage, s) && n <= |s.completed| && Collected(stage, s, n).waiting == []
    ensures Resolves(stage, s.waiting, s.completed[..n], CollectedOutput(stage, s, n))
    ensures Collected(stage, s, n).completed == s.completed[n..]
    ensures Collected(stage, s, n).done == Updated(s.done, s.completed[..n])
  {
    hide Collected, CollectedOutput, Typed, ResolvedBy, Sum, Stable, Updated;
    CollectedReports(stage, s, n);
    CollectedDone(stage, s, n);
    forall i | 0 <= i < n ensures s.completed[i] in s.completed[..n] {
      assert s.completed[i] == s.completed[..n][i];
    }
    CollectedResolve(stage, s, n, s.completed[..n]);
    forall q: Task -> bool | Stable(stage, q)
      ensures Sum(OfMsg(q), CollectedOutput(stage, s, n)) == Sum(OfTask(q), s.waiting)
    {
      CollectedConserves(stage, q, s, n);
      NoneLeft(q, Collected(stage, s, n).waiting);
    }
  }

  lemma NoneLeft(q: Task -> bool, ts: seq<Task>)
    requires ts == []
    ensures Sum(OfTask(q), ts) == 0
  {
  }

  /** The report that leaves nothing waiting is some waiting task's. */
  lemma LastReportUsed(stage: Stage, s: Local, n: nat)
    requires Typed(stage, s) && n < |s.completed|
    requires Collected(stage, s, n).waiting != [] && Collected(stage, s, n + 1).waiting == []
    ensures exists t :: t in s.waiting && KeyOf(stage, t) == s.completed[n].key
  {
    var before := Collected(stage, s, n);
    CollectedReports(stage, s, n);
    CollectedWaited(stage, s, n);
    CollectedStep(stage, s, n);
    var t := before.waiting[0];
    assert t in before.waiting;
    assert t !in Others(stage, before.completed[0].key, before.waiting);
    hide Collected, CollectedOutput, CollectOutput, KeyOf;
  }

  lemma {:induction false} CollectedWaited(stage: Stage, s: Local, n: nat)
    ensures forall t :: t in Collected(stage, s, n).waiting ==> t in s.waiting
  {
    if n == 0 {
    } else {
      CollectedWaited(stage, s, n - 1);
    }
  }

  predicate Reported(k: Key, reports: seq<Completed>) {
    exists j :: 0 <= j < |reports| && reports[j].key == k
  }

  /** Every waiting task's result is among the reports. */
  predicate AllReported(stage: Stage, ts: seq<Task>, reports: seq<Completed>) {
    forall i :: 0 <= i < |ts| ==> Reported(KeyOf(stage, ts[i]), reports)
  }

  lemma ReportsLeft(stage: Stage, s: Local)
    requires s.waiting != [] && AllReported(stage, s.waiting, s.completed)
    ensures s.completed != []
    ensures AllReported(stage, CollectOne(stage, s).waiting, CollectOne(stage, s).completed)
  {
    assert Reported(KeyOf(stage, s.waiting[0]), s.completed);
    var c, left := s.completed[0], s.completed[1..];
    forall t | t in Others(stage, c.key, s.waiting) ensures Reported(KeyOf(stage, t), left) {
      assert t in s.waiting;
      var j :| 0 <= j < |s.completed| && s.completed[j].key == KeyOf(stage, t);
      assert left[j - 1].key == KeyOf(stage, t);
    }
    hide Others, KeyOf;
  }

  // ---------------------------------------------------------------- the dispatcher and the workers

  class PipelineProcess {
    const stage: Stage
    const taskQueue: Queue<Msg>
    const helperQueue: Queue<Msg>
    const resultQueue: Queue<Msg>
    var mycache: seq<Key>
    /** Tasks handed to the pool. */
    var pool: seq<Worker>
    ghost var taken: seq<Task>

    /** `keys` enumerates the keys of the cache. */
    constructor (stage: Stage, keys: seq<Key>, taskQueue: Queue<Msg>, helperQueue: Queue<Msg>, resultQueue: Queue<Msg>)
      requires taskQueue != helperQueue && taskQueue != resultQueue && helperQueue != resultQueue
      ensures this.stage == stage && mycache == keys && pool == [] && taken == []
      ensures this.taskQueue == taskQueue && this.helperQueue == helperQueue && this.resultQueue == resultQueue
    {
      this.stage, mycache, pool, taken := stage, keys, [], [];
      this.taskQueue, this.helperQueue, this.resultQueue := taskQueue, helperQueue, resultQueue;
    }

    ghost function View(dispatcher: Dispatcher): Local
      reads this, helperQueue
    {
      Local(dispatcher, mycache, pool, helperQueue.contents, [], Polling, map[], [], taken, [], map[])
    }

    /** A turn of the loop of run; `closing` once the pill has come. */
    method Dispatch() returns (closing: bool)
      requires taskQueue != helperQueue && taskQueue != resultQueue && helperQueue != resultQueue
      requires taskQueue.contents != []
      modifies this, taskQueue, helperQueue, resultQueue
      ensures var w := World(old(taskQueue.contents), old(View(Dispatching)), old(resultQueue.contents));
              && View(if closing then Joining else Dispatching) == Effect(stage, w, Take)
              && taskQueue.contents == w.inq[1..]
              && resultQueue.contents == w.outq + Output(stage, w, Take)
      ensures taskQueue.contents == old(taskQueue.contents)[1..]
      ensures match old(taskQueue.contents)[0]
              case Pill =>
                && closing && resultQueue.contents == old(resultQueue.contents) + [Pill]
                && pool == old(pool) && mycache == old(mycache) && helperQueue.contents == old(helperQueue.contents)
              case Job(task) =>
                && !closing && resultQueue.contents == old(resultQueue.contents)
                && if KeyOf(stage, task) in old(mycache) then
                     && pool == old(pool) && mycache == old(mycache)
                     && helperQueue.contents == old(helperQueue.contents) + [Job(task)]
                   else
                     && pool == old(pool) + [Queued(task)] && mycache == old(mycache) + [KeyOf(stage, task)]
                     && helperQueue.contents == old(helperQueue.contents)
    {
      var message := taskQueue.Get();
      assert message == old(taskQueue.contents)[0];
      match message
      case Pill =>
        resultQueue.Put(Pill);
        closing := true;
      case Job(task) =>
        closing := false;
        taken := taken + [task];
        var taskKey := KeyOf(stage, task);
        if taskKey in mycache {
          helperQueue.Put(message);
        } else {
          pool := pool + [Queued(task)];
          mycache := mycache + [taskKey];
        }
    }
  }

  /** A worker's two puts, with `work` the outcome of building or testing. */
  method Worker(stage: Stage, task: Task, work: Task -> Result, completedQueue: Queue<Completed>, resultQueue: Queue<Msg>)
    requires Fresh(stage, task) && ResultOf(stage, work(task))
    modifies completedQueue, resultQueue
    ensures completedQueue.contents == old(completedQueue.contents) + [Completed(KeyOf(stage, task), work(task))]
    ensures resultQueue.contents == old(resultQueue.contents) + [Job(WithResult(stage, task, work(task)))]
  {
    var done := WithResult(stage, task, work(task));
    completedQueue.Put(Completed(KeyOf(stage, done), work(task)));
    resultQueue.Put(Job(done));
  }
}
