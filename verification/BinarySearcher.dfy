/** The three-valued binary search of binary_search_perforce.py, and its queue-driven probe
    around skipped indices. `Search` is the value of a searcher's fields; the functions on it
    specify the methods of class `BinarySearcher`, and every lemma is about them. */
module BinarySearch {
  import opened Sequences

  const GOOD := 0
  const BAD := 1
  const SKIP := 125

  /** The exit codes SetStatus asserts. */
  type Status = c: int | c == GOOD || c == BAD || c == SKIP witness GOOD

  datatype Item = Item(name: string)

  /** An interval with its midpoint, as queued by the probe. */
  datatype Span = Span(a: int, mid: int, b: int)

  datatype Search = Search(
    n: nat,
    lo: int,
    hi: int,
    current: int,
    skipped: seq<int>,
    indices: seq<int>,
    statuses: seq<Status>)

  // ---------------------------------------------------------------- the probe

  function MakeSpan(a: int, b: int): Span {
    Span(a, (a + b) / 2, b)
  }

  /** Some index of [lo, hi) has not been skipped. */
  ghost predicate HasUnskipped(lo: int, hi: int, skipped: seq<int>) {
    exists i :: lo <= i < hi && i !in skipped
  }

  /** An entry of the probe's queue: a midpointed interval of [lo, hi] that starts below hi. */
  ghost predicate Entry(lo: int, hi: int, e: Span) {
    lo <= e.a <= e.b <= hi && e.a < hi && e.mid == (e.a + e.b) / 2
  }

  /** One turn of the probe's loop when the popped midpoint is skipped: both halves are queued. */
  function Requeue(q: seq<Span>): seq<Span>
    requires q != []
  {
    q[1..] + [MakeSpan(q[0].a, q[0].mid), MakeSpan(q[0].mid, q[0].b)]
  }

  /** q after `turns` turns, or None once a turn has picked an index. */
  function ProbeQueue(q: seq<Span>, skipped: seq<int>, turns: nat): Option<seq<Span>>
    requires q != []
    decreases turns
  {
    if q[0].mid !in skipped then None
    else if turns == 0 then Some(q)
    else ProbeQueue(Requeue(q), skipped, turns - 1)
  }

  /** Entry p of the queue covers the unskipped index i. */
  ghost predicate Tracks(lo: int, hi: int, q: seq<Span>, skipped: seq<int>, i: int, p: int) {
    && 0 <= p < |q|
    && q[p].a <= i < q[p].b
    && i !in skipped
    && forall e :: e in q ==> Entry(lo, hi, e)
  }

  /** Where the queue entry covering i goes when the head is requeued: a covering head is
      replaced by a strictly smaller covering half at the tail, any other entry moves up. */
  function Follow(q: seq<Span>, i: int, p: int): int
    requires q != []
  {
    if p != 0 then p - 1 else if i < q[0].mid then |q| - 1 else |q|
  }

  lemma FollowTracks(lo: int, hi: int, q: seq<Span>, skipped: seq<int>, i: int, p: int)
    requires Tracks(lo, hi, q, skipped, i, p)
    requires q[0].mid in skipped
    ensures var q' := Requeue(q); var p' := Follow(q, i, p);
            && Tracks(lo, hi, q', skipped, i, p')
            && (q'[p'].b - q'[p'].a < q[p].b - q[p].a
                || (q'[p'].b - q'[p'].a == q[p].b - q[p].a && p' < p))
  {
    var q', p' := Requeue(q), Follow(q, i, p);
    assert Entry(lo, hi, q[0]) && Entry(lo, hi, q[p]);
    forall e | e in q' ensures Entry(lo, hi, e) {
      if e in q[1..] {
        assert e in q;
      }
    }
    if p != 0 {
      assert q'[p'] == q[p];
    } else {
      assert i != q[0].mid;
    }
  }

  /** The index the probe settles on. The tracked entry (i, p) only serves termination. */
  function Probe(ghost lo: int, ghost hi: int, q: seq<Span>, skipped: seq<int>, ghost i: int, ghost p: int): (r: int)
    requires Tracks(lo, hi, q, skipped, i, p)
    ensures lo <= r < hi && r !in skipped
    decreases q[p].b - q[p].a, p
  {
    assert Entry(lo, hi, q[0]);
    if q[0].mid !in skipped then q[0].mid
    else
      FollowTracks(lo, hi, q, skipped, i, p);
      Probe(lo, hi, Requeue(q), skipped, i, Follow(q, i, p))
  }

  function LeastUnskipped(lo: int, hi: int, skipped: seq<int>): (i: int)
    requires HasUnskipped(lo, hi, skipped)
    ensures lo <= i < hi && i !in skipped
    decreases hi - lo
  {
    if lo !in skipped then lo else LeastUnskipped(lo + 1, hi, skipped)
  }

  /** With every index of [lo, hi) skipped, the queue never picks and never empties: the probe
      finds an index if and only if there is one to find. */
  lemma {:induction false} ProbeStuck(lo: int, hi: int, q: seq<Span>, skipped: seq<int>, turns: nat)
    requires q != [] && forall e :: e in q ==> Entry(lo, hi, e)
    requires !HasUnskipped(lo, hi, skipped)
    ensures ProbeQueue(q, skipped, turns).Some?
    ensures |ProbeQueue(q, skipped, turns).value| == |q| + turns
    decreases turns
  {
    assert Entry(lo, hi, q[0]);
    if turns == 0 {
    } else {
      forall e | e in Requeue(q) ensures Entry(lo, hi, e) {
        if e in q[1..] {
          assert e in q;
        }
      }
      ProbeStuck(lo, hi, Requeue(q), skipped, turns - 1);
    }
  }

  lemma {:induction false} ProbeTurns(lo: int, hi: int, q: seq<Span>, skipped: seq<int>, i: int, p: int)
    returns (turns: nat)
    requires Tracks(lo, hi, q, skipped, i, p)
    ensures ProbeQueue(q, skipped, turns).None?
    decreases q[p].b - q[p].a, p
  {
    if q[0].mid !in skipped {
      turns := 0;
    } else {
      FollowTracks(lo, hi, q, skipped, i, p);
      var rest := ProbeTurns(lo, hi, Requeue(q), skipped, i, Follow(q, i, p));
      turns := rest + 1;
    }
  }

  lemma ProbeEndsIff(lo: int, hi: int, skipped: seq<int>)
    requires lo < hi
    ensures (exists turns: nat :: ProbeQueue([MakeSpan(lo, hi)], skipped, turns).None?)
            <==> HasUnskipped(lo, hi, skipped)
  {
    if HasUnskipped(lo, hi, skipped) {
      var i :| lo <= i < hi && i !in skipped;
      var turns := ProbeTurns(lo, hi, [MakeSpan(lo, hi)], skipped, i, 0);
    } else {
      forall turns: nat ensures ProbeQueue([MakeSpan(lo, hi)], skipped, turns).Some? {
        ProbeStuck(lo, hi, [MakeSpan(lo, hi)], skipped, turns);
      }
    }
  }

  // ---------------------------------------------------------------- one search

  function Start(n: nat): Search
    requires n > 0
  {
    Search(n, 0, n - 1, 0, [], [], [])
  }

  predicate Finished(s: Search) {
    s.lo == s.hi || forall i :: s.lo <= i < s.hi ==> i in s.skipped
  }

  /** The index GetNext makes current. */
  function NextIndex(s: Search): (r: int)
    requires HasUnskipped(s.lo, s.hi, s.skipped)
    ensures s.lo <= r < s.hi && r !in s.skipped
  {
    var mid := (s.lo + s.hi) / 2;
    if mid in s.skipped then
      Probe(s.lo, s.hi, [MakeSpan(s.lo, s.hi)], s.skipped, LeastUnskipped(s.lo, s.hi, s.skipped), 0)
    else mid
  }

  function Asked(s: Search): Search
    requires HasUnskipped(s.lo, s.hi, s.skipped)
  {
    s.(current := NextIndex(s))
  }

  function Answered(s: Search, status: Status): Search {
    var logged := s.(indices := s.indices + [s.current], statuses := s.statuses + [status]);
    if status == SKIP then logged.(skipped := s.skipped + [s.current])
    else
      var lo := if status == GOOD then s.current + 1 else s.lo;
      var hi := if status == BAD then s.current else s.hi;
      logged.(lo := lo, hi := hi, current := (lo + hi) / 2)
  }

  /** Index i was tested and answered `status`. */
  ghost predicate Logged(s: Search, i: int, status: Status) {
    exists k :: 0 <= k < |s.indices| && k < |s.statuses| && s.indices[k] == i && s.statuses[k] == status
  }

  ghost predicate InRange(s: Search) {
    0 <= s.lo <= s.hi < s.n && 0 <= s.current < s.n
  }

  /** Each bound is an end of the list or justified by an answer. */
  ghost predicate Justified(s: Search) {
    && (s.lo == 0 || Logged(s, s.lo - 1, GOOD))
    && (s.hi == s.n - 1 || Logged(s, s.hi, BAD))
  }

  /** Every tested index lies outside the open interval or was skipped, and was tested once. */
  ghost predicate Settled(s: Search) {
    && |s.indices| == |s.statuses|
    && (forall k :: 0 <= k < |s.indices| ==>
          && 0 <= s.indices[k] < s.n - 1
          && (s.statuses[k] == GOOD ==> s.indices[k] < s.lo)
          && (s.statuses[k] == BAD ==> s.hi <= s.indices[k])
          && (s.statuses[k] == SKIP ==> s.indices[k] in s.skipped))
    && Distinct(s.indices)
  }

  /** What every search keeps. */
  ghost predicate Inv(s: Search) {
    InRange(s) && Justified(s) && Settled(s)
  }

  /** The states a search can be in. */
  type Live = s: Search | Inv(s) witness Start(1)

  // ---------------------------------------------------------------- breadth first

  /** Every interval split at its middle, in order. */
  function Halves(spans: seq<(int, int)>): seq<(int, int)> {
    if spans == [] then []
    else
      var (a, b) := spans[0];
      [(a, (a + b) / 2), ((a + b) / 2, b)] + Halves(spans[1..])
  }

  /** The intervals of a depth: [lo, hi] itself, its halves, their halves, and so on. */
  function Depth(lo: int, hi: int, d: nat): seq<(int, int)> {
    if d == 0 then [(lo, hi)] else Halves(Depth(lo, hi, d - 1))
  }

  function Middle(span: (int, int)): int {
    (span.0 + span.1) / 2
  }

  /** r is the first middle, depth by depth and from below within a depth, that is not skipped: the
      j-th of depth d. */
  ghost predicate FirstMiddle(lo: int, hi: int, skipped: seq<int>, r: int, d: nat, j: nat) {
    && j < |Depth(lo, hi, d)| && r == Middle(Depth(lo, hi, d)[j]) && r !in skipped
    && SkippedBefore(lo, hi, skipped, d, j)
  }

  ghost predicate SkippedBefore(lo: int, hi: int, skipped: seq<int>, d: nat, j: nat) {
    && (forall e: nat, i: nat :: e < d && i < |Depth(lo, hi, e)| ==> Middle(Depth(lo, hi, e)[i]) in skipped)
    && (forall i: nat :: i < j && i < |Depth(lo, hi, d)| ==> Middle(Depth(lo, hi, d)[i]) in skipped)
  }

  ghost predicate BreadthFirst(lo: int, hi: int, skipped: seq<int>, r: int) {
    exists d: nat, j: nat :: FirstMiddle(lo, hi, skipped, r, d, j)
  }

  lemma {:induction false} HalvesJoin(xs: seq<(int, int)>, x: (int, int))
    ensures Halves(xs + [x]) == Halves(xs) + [(x.0, Middle(x)), (Middle(x), x.1)]
  {
    if xs == [] {
      assert xs + [x] == [x];
    } else {
      HalvesJoin(xs[1..], x);
      assert (xs + [x])[1..] == xs[1..] + [x];
    }
  }

  /** The queue holds intervals with their middles. */
  ghost predicate Holds(q: seq<Span>, spans: seq<(int, int)>) {
    |q| == |spans| && forall i :: 0 <= i < |q| ==> q[i] == Span(spans[i].0, Middle(spans[i]), spans[i].1)
  }

  /** After j intervals of depth d the queue holds the others of that depth, and the halves of those. */
  function QueueAt(lo: int, hi: int, d: nat, j: nat): seq<(int, int)>
    requires j <= |Depth(lo, hi, d)|
  {
    Depth(lo, hi, d)[j..] + Halves(Depth(lo, hi, d)[..j])
  }

  lemma RequeueHolds(lo: int, hi: int, d: nat, j: nat, q: seq<Span>)
    requires j < |Depth(lo, hi, d)| && Holds(q, QueueAt(lo, hi, d, j)) && q != []
    ensures Holds(Requeue(q), QueueAt(lo, hi, d, j + 1))
  {
    var spans := Depth(lo, hi, d);
    HalvesJoin(spans[..j], spans[j]);
    assert spans[..j + 1] == spans[..j] + [spans[j]];
    assert QueueAt(lo, hi, d, j)[0] == spans[j];
    assert QueueAt(lo, hi, d, j + 1)
           == QueueAt(lo, hi, d, j)[1..] + [(spans[j].0, Middle(spans[j])), (Middle(spans[j]), spans[j].1)];
    hide Depth, Halves, QueueAt;
  }

  /** Once a depth is through, the next one is what the queue holds. */
  lemma NextDepth(lo: int, hi: int, d: nat)
    ensures QueueAt(lo, hi, d, |Depth(lo, hi, d)|) == QueueAt(lo, hi, d + 1, 0)
  {
    var spans := Depth(lo, hi, d);
    assert spans[..|spans|] == spans && spans[|spans|..] == [];
    assert Depth(lo, hi, d + 1)[..0] == [];
  }

  lemma {:induction false} DepthSome(lo: int, hi: int, d: nat)
    ensures Depth(lo, hi, d) != []
  {
    if d == 0 {
    } else {
      DepthSome(lo, hi, d - 1);
    }
  }

  /** The probe goes through the middles breadth first. */
  lemma {:induction false} ProbeGoesOn(lo: int, hi: int, q: seq<Span>, skipped: seq<int>, i: int, p: int, d: nat, j: nat)
    requires Tracks(lo, hi, q, skipped, i, p)
    requires j < |Depth(lo, hi, d)| && Holds(q, QueueAt(lo, hi, d, j)) && SkippedBefore(lo, hi, skipped, d, j)
    ensures BreadthFirst(lo, hi, skipped, Probe(lo, hi, q, skipped, i, p))
    decreases q[p].b - q[p].a, p
  {
    var spans := Depth(lo, hi, d);
    assert QueueAt(lo, hi, d, j)[0] == spans[j];
    hide Depth, Halves, QueueAt, BreadthFirst;
    if q[0].mid !in skipped {
      FoundAt(lo, hi, skipped, Probe(lo, hi, q, skipped, i, p), d, j);
    } else {
      FollowTracks(lo, hi, q, skipped, i, p);
      RequeueHolds(lo, hi, d, j, q);
      hide Tracks, Requeue, Follow;
      if j + 1 < |spans| {
        ProbeGoesOn(lo, hi, Requeue(q), skipped, i, Follow(q, i, p), d, j + 1);
      } else {
        NextDepth(lo, hi, d);
        DepthSome(lo, hi, d + 1);
        ProbeGoesOn(lo, hi, Requeue(q), skipped, i, Follow(q, i, p), d + 1, 0);
      }
    }
  }

  lemma FoundAt(lo: int, hi: int, skipped: seq<int>, r: int, d: nat, j: nat)
    requires FirstMiddle(lo, hi, skipped, r, d, j)
    ensures BreadthFirst(lo, hi, skipped, r)
  {
  }

  /** Which index is asked about: the first middle, breadth first, that has not been skipped. */
  lemma NextIsBreadthFirst(s: Search)
    requires HasUnskipped(s.lo, s.hi, s.skipped)
    ensures BreadthFirst(s.lo, s.hi, s.skipped, NextIndex(s))
  {
    assert Depth(s.lo, s.hi, 0) == [(s.lo, s.hi)];
    assert SkippedBefore(s.lo, s.hi, s.skipped, 0, 0);
    if (s.lo + s.hi) / 2 in s.skipped {
      assert QueueAt(s.lo, s.hi, 0, 0) == [(s.lo, s.hi)];
      ProbeGoesOn(s.lo, s.hi, [MakeSpan(s.lo, s.hi)], s.skipped, LeastUnskipped(s.lo, s.hi, s.skipped), 0, 0, 0);
    } else {
      FoundAt(s.lo, s.hi, s.skipped, NextIndex(s), 0, 0);
    }
  }

  /** There is only one such index. */
  lemma BreadthFirstUnique(lo: int, hi: int, skipped: seq<int>, r: int, r': int)
    requires BreadthFirst(lo, hi, skipped, r) && BreadthFirst(lo, hi, skipped, r')
    ensures r == r'
  {
    var d: nat, j: nat :| FirstMiddle(lo, hi, skipped, r, d, j);
    var d': nat, j': nat :| FirstMiddle(lo, hi, skipped, r', d', j');
    hide Depth, Middle, FirstMiddle;
    NotEarlier(lo, hi, skipped, r, d, j, r', d', j');
    NotEarlier(lo, hi, skipped, r', d', j', r, d, j);
    SameMiddle(lo, hi, skipped, r, r', d, j);
  }

  lemma NotEarlier(lo: int, hi: int, skipped: seq<int>, r: int, d: nat, j: nat, r': int, d': nat, j': nat)
    requires FirstMiddle(lo, hi, skipped, r, d, j) && FirstMiddle(lo, hi, skipped, r', d', j')
    ensures d' < d || (d' == d && j' <= j)
  {
    hide Depth, Middle;
  }

  lemma SameMiddle(lo: int, hi: int, skipped: seq<int>, r: int, r': int, d: nat, j: nat)
    requires FirstMiddle(lo, hi, skipped, r, d, j) && FirstMiddle(lo, hi, skipped, r', d, j)
    ensures r == r'
  {
  }

  /** An unfinished search has an index left to ask about. */
  lemma Unfinished(s: Live)
    requires !Finished(s)
    ensures HasUnskipped(s.lo, s.hi, s.skipped) && s.lo < s.hi
  {
    var i :| s.lo <= i < s.hi && i !in s.skipped;
  }

  /** Answers are only ever added to the log. */
  lemma LogGrows(s: Search, status: Status, i: int, st: Status)
    requires |s.indices| == |s.statuses|
    ensures Logged(Answered(s, status), i, st) <==> Logged(s, i, st) || (i == s.current && st == status)
  {
    var s', last := Answered(s, status), |s.indices|;
    assert s'.indices[last] == s.current && s'.statuses[last] == status;
    if Logged(s, i, st) {
      var k :| 0 <= k < |s.indices| && s.indices[k] == i && s.statuses[k] == st;
      assert s'.indices[k] == i && s'.statuses[k] == st;
    }
    if Logged(s', i, st) {
      var k :| 0 <= k < |s'.indices| && s'.indices[k] == i && s'.statuses[k] == st;
      assert k < last ==> s.indices[k] == i && s.statuses[k] == st;
    }
  }

  /** The index asked about next has not been asked about before. */
  lemma AskedAnew(s: Live)
    requires HasUnskipped(s.lo, s.hi, s.skipped)
    ensures NextIndex(s) !in s.indices
  {
  }

  lemma StepJustified(s: Search, status: Status)
    requires InRange(s) && Justified(s) && |s.indices| == |s.statuses|
    requires HasUnskipped(s.lo, s.hi, s.skipped)
    ensures Justified(Answered(Asked(s), status))
  {
    var a := Asked(s);
    var s' := Answered(a, status);
    if s'.lo != 0 {
      LogGrows(a, status, s'.lo - 1, GOOD);
      assert Logged(a, s'.lo - 1, GOOD) <==> Logged(s, s'.lo - 1, GOOD);
    }
    if s'.hi != s'.n - 1 {
      LogGrows(a, status, s'.hi, BAD);
      assert Logged(a, s'.hi, BAD) <==> Logged(s, s'.hi, BAD);
    }
  }

  lemma StepSettled(s: Live, status: Status)
    requires HasUnskipped(s.lo, s.hi, s.skipped)
    ensures Settled(Answered(Asked(s), status))
  {
    hide Justified;
    AskedAnew(s);
  }

  lemma StepKeepsInv(s: Live, status: Status)
    requires HasUnskipped(s.lo, s.hi, s.skipped)
    ensures Inv(Answered(Asked(s), status))
  {
    StepJustified(s, status);
    StepSettled(s, status);
    hide Justified;
    hide Settled;
  }

  /** A test is always worth something: an unfinished search has asked about fewer than n - 1
      indices, so no search needs more than n - 1 tests. */
  lemma RoomLeft(s: Live)
    ensures |s.indices| <= s.n - 1
    ensures !Finished(s) ==> |s.indices| < s.n - 1
  {
    RangeSize(0, s.n - 1);
    Pigeonhole(s.indices, Range(0, s.n - 1));
    if !Finished(s) {
      Unfinished(s);
      AskedAnew(s);
      Pigeonhole(s.indices + [NextIndex(s)], Range(0, s.n - 1));
    }
  }

  /** The answers so far do not rule out that `first` is the first bad index. */
  ghost predicate Consistent(s: Search, first: int) {
    && 0 <= first < s.n
    && (forall k :: 0 <= k < |s.indices| && k < |s.statuses| && s.statuses[k] == GOOD ==> s.indices[k] < first)
    && (forall k :: 0 <= k < |s.indices| && k < |s.statuses| && s.statuses[k] == BAD ==> first <= s.indices[k])
  }

  /** [lo, hi] is exactly the set of first bad indices the answers leave open. */
  lemma IntervalIsExact(s: Live, first: int)
    ensures Consistent(s, first) <==> s.lo <= first <= s.hi
  {
    if Consistent(s, first) {
      if s.lo != 0 {
        var k :| 0 <= k < |s.indices| && s.indices[k] == s.lo - 1 && s.statuses[k] == GOOD;
      }
      if s.hi != s.n - 1 {
        var k :| 0 <= k < |s.indices| && s.indices[k] == s.hi && s.statuses[k] == BAD;
      }
    }
  }

  // ---------------------------------------------------------------- whole searches

  /** The search that receives `answers` in turn and stops listening when it is finished. */
  function Replay(n: nat, answers: seq<Status>): (s: Live)
    requires n > 0
    ensures s.n == n
  {
    if answers == [] then Start(n)
    else
      var s := Replay(n, answers[..|answers| - 1]);
      if Finished(s) then s
      else
        Unfinished(s);
        StepKeepsInv(s, answers[|answers| - 1]);
        Answered(Asked(s), answers[|answers| - 1])
  }

  /** A search that is not finished has heard every answer. */
  lemma {:induction false} ReplayHears(n: nat, answers: seq<Status>)
    requires n > 0
    ensures !Finished(Replay(n, answers)) ==> Replay(n, answers).statuses == answers
  {
    hide Inv, InRange, Justified, Settled, Finished, NextIndex;
    if answers == [] {
    } else {
      ReplayHears(n, answers[..|answers| - 1]);
      assert answers == answers[..|answers| - 1] + [answers[|answers| - 1]];
    }
  }

  /** For every sequence of answers: no index is tested twice, n - 1 answers always finish the
      search, and the interval is what the answers leave open. */
  lemma AnySearch(n: nat, answers: seq<Status>, first: int)
    requires n > 0
    ensures var s := Replay(n, answers);
            && Distinct(s.indices)
            && |s.indices| <= n - 1
            && (|answers| >= n - 1 ==> Finished(s))
            && (Consistent(s, first) <==> s.lo <= first <= s.hi)
  {
    var s := Replay(n, answers);
    RoomLeft(s);
    IntervalIsExact(s, first);
    ReplayHears(n, answers);
  }

  /** `current` is the last index tested if that was skipped, and else the middle of what is left. */
  ghost predicate Placed(s: Search) {
    && |s.indices| == |s.statuses|
    && if s.indices == [] then s.current == 0
       else if s.statuses[|s.statuses| - 1] == SKIP then s.current == s.indices[|s.indices| - 1]
       else s.current == (s.lo + s.hi) / 2
  }

  lemma {:induction false} CurrentPlaced(n: nat, answers: seq<Status>)
    requires n > 0
    ensures Placed(Replay(n, answers))
  {
    hide Inv, InRange, Justified, Settled, Finished, NextIndex;
    if answers == [] {
    } else {
      CurrentPlaced(n, answers[..|answers| - 1]);
    }
  }

  /** One turn: ask, test, answer. */
  function Turn(s: Live, answer: int -> Status): (r: Live)
    requires !Finished(s)
    ensures r.n == s.n && |r.indices| == |s.indices| + 1
  {
    Unfinished(s);
    StepKeepsInv(s, answer(NextIndex(s)));
    Answered(Asked(s), answer(NextIndex(s)))
  }

  /** The inner loop of a bisection: ask and answer until finished or out of budget. */
  function Drive(s: Live, answer: int -> Status, budget: nat): (r: Live)
    ensures r.n == s.n
    ensures |s.indices| <= |r.indices| <= |s.indices| + budget
    ensures !Finished(r) ==> |r.indices| == |s.indices| + budget
    decreases budget
  {
    if budget == 0 || Finished(s) then s else Drive(Turn(s, answer), answer, budget - 1)
  }

  /** The test answers bad from `first` on, and never skips. */
  ghost predicate Truthful(answer: int -> Status, n: nat, first: int) {
    0 <= first < n && forall i :: 0 <= i < n - 1 ==> answer(i) == (if i < first then GOOD else BAD)
  }

  lemma NothingSkipped(s: Search)
    requires s.lo <= s.hi && s.skipped == []
    ensures Finished(s) <==> s.lo == s.hi
  {
    if s.lo < s.hi {
      assert s.lo !in s.skipped;
    }
  }

  /** One truthful answer keeps the first bad index inside and halves the interval. */
  lemma TurnHalves(s: Live, answer: int -> Status, first: int)
    requires !Finished(s) && s.skipped == [] && s.lo <= first <= s.hi
    requires Truthful(answer, s.n, first)
    ensures var s' := Turn(s, answer);
            && s'.skipped == []
            && s'.lo <= first <= s'.hi
            && 2 * (s'.hi - s'.lo) <= s.hi - s.lo
            && (Finished(s') ==> s'.current == first)
  {
    Unfinished(s);
    NothingSkipped(Turn(s, answer));
  }

  /** A truthful search that ends, ends at the first bad index with lo = hi = current; and it
      ends within k tests whenever the interval is shorter than 2^k. */
  lemma {:induction false} DriveFinds(s: Live, answer: int -> Status, first: int, budget: nat)
    requires s.skipped == [] && s.lo <= first <= s.hi
    requires Truthful(answer, s.n, first)
    requires Finished(s) ==> s.current == first
    ensures var r := Drive(s, answer, budget);
            && r.skipped == []
            && r.lo <= first <= r.hi
            && (Finished(r) ==> r.lo == r.hi == r.current == first)
            && (s.hi - s.lo < Pow2(budget) ==> Finished(r))
    decreases budget
  {
    hide Turn, Inv, InRange, Finished, Truthful;
    NothingSkipped(s);
    if Finished(s) || budget == 0 {
    } else {
      TurnHalves(s, answer, first);
      DriveFinds(Turn(s, answer), answer, first, budget - 1);
    }
  }

  /** Logarithmic exactness: from a fresh searcher over n <= 2^k items, k tests find the first
      bad index, whatever it is. */
  lemma LogarithmicSearch(n: nat, answer: int -> Status, first: int, k: nat)
    requires n >= 2 && n <= Pow2(k) && Truthful(answer, n, first)
    ensures var r := Drive(Start(n), answer, k);
            Finished(r) && |r.indices| <= k && r.lo == r.hi == r.current == first
  {
    FreshUnfinished(n);
    DriveFinds(Start(n), answer, first, k);
  }

  /** The test answers as Truthful says, or skips. */
  ghost predicate TruthfulOrSkips(answer: int -> Status, n: nat, first: int) {
    && 0 <= first < n
    && forall i :: 0 <= i < n - 1 ==> answer(i) == SKIP || answer(i) == (if i < first then GOOD else BAD)
  }

  /** The first bad index stays inside, and so does the current one. */
  ghost predicate Encloses(s: Search, first: int) {
    s.lo <= first <= s.hi && s.lo <= s.current <= s.hi
  }

  lemma TurnEncloses(s: Live, answer: int -> Status, first: int)
    requires !Finished(s) && Encloses(s, first) && TruthfulOrSkips(answer, s.n, first)
    ensures Encloses(Turn(s, answer), first)
  {
    Unfinished(s);
    hide Justified, Settled;
  }

  lemma {:induction false} DriveEncloses(s: Live, answer: int -> Status, first: int, budget: nat)
    requires Encloses(s, first) && TruthfulOrSkips(answer, s.n, first)
    ensures Encloses(Drive(s, answer, budget), first)
    decreases budget
  {
    hide Turn, Inv, Finished, Encloses, TruthfulOrSkips;
    if budget > 0 && !Finished(s) {
      TurnEncloses(s, answer, first);
      DriveEncloses(Turn(s, answer), answer, first, budget - 1);
    }
  }

  /** Whatever is skipped, a search over n items ends within n - 1 tests with the first bad index: as
      `current`, or somewhere among the skipped indices from lo on, or at hi behind them. */
  lemma SearchWithSkips(n: nat, answer: int -> Status, first: int)
    requires n >= 2 && TruthfulOrSkips(answer, n, first)
    ensures var r := Drive(Start(n), answer, n - 1);
            && Finished(r) && r.lo <= first <= r.hi
            && (forall i :: r.lo <= i < r.hi ==> i in r.skipped && answer(i) == SKIP)
            && (r.lo == r.hi <==> Clear(answer, n, first))
            && (r.lo == r.hi ==> r.current == first)
  {
    hide *;
    StartHears(n, answer, first);
    DriveEncloses(Start(n), answer, first, n - 1);
    DriveHeard(Start(n), answer, n - 1);
    RoomLeft(Drive(Start(n), answer, n - 1));
    EndsExactly(Drive(Start(n), answer, n - 1), answer, first);
    LeftSkipped(Drive(Start(n), answer, n - 1), answer, first);
  }

  lemma StartHears(n: nat, answer: int -> Status, first: int)
    requires n >= 2 && TruthfulOrSkips(answer, n, first)
    ensures Inv(Start(n)) && Start(n).n == n && |Start(n).indices| == 0
    ensures Encloses(Start(n), first) && Heard(Start(n), answer)
  {
  }

  lemma LeftSkipped(s: Live, answer: int -> Status, first: int)
    requires Finished(s) && Heard(s, answer) && Encloses(s, first)
    ensures s.lo <= first <= s.hi
    ensures forall i :: s.lo <= i < s.hi ==> i in s.skipped && answer(i) == SKIP
  {
    hide Inv;
  }

  /** What is on the log is what the test answers. */
  ghost predicate Heard(s: Search, answer: int -> Status) {
    && |s.indices| == |s.statuses|
    && (forall k :: 0 <= k < |s.indices| ==> s.statuses[k] == answer(s.indices[k]))
    && (forall i :: i in s.skipped ==> answer(i) == SKIP)
  }

  lemma {:induction false} DriveHeard(s: Live, answer: int -> Status, budget: nat)
    requires Heard(s, answer)
    ensures Heard(Drive(s, answer, budget), answer)
    decreases budget
  {
    hide Inv, Finished;
    if budget > 0 && !Finished(s) {
      DriveHeard(Turn(s, answer), answer, budget - 1);
    }
  }

  /** The test does not skip the last good index, nor the first bad one unless that is the last. */
  ghost predicate Clear(answer: int -> Status, n: nat, first: int) {
    (first > 0 ==> answer(first - 1) != SKIP) && (first < n - 1 ==> answer(first) != SKIP)
  }

  /** A search that has finished ends exactly, with lo = hi = current = the first bad index, if and only
      if the test skips neither side of it. It does not end beyond the first bad index unless that
      was skipped, nor before it unless the index below it was. */
  lemma EndsExactly(s: Live, answer: int -> Status, first: int)
    requires Finished(s) && Heard(s, answer) && Encloses(s, first) && TruthfulOrSkips(answer, s.n, first)
    ensures s.lo == s.hi <==> Clear(answer, s.n, first)
    ensures s.lo == s.hi ==> s.current == first
    ensures s.current > first ==> first < s.n - 1 && answer(first) == SKIP
    ensures s.current < first ==> answer(first - 1) == SKIP
  {
    if s.lo == s.hi {
      if s.lo != 0 {
        assert Logged(s, s.lo - 1, GOOD);
      }
      if s.hi != s.n - 1 {
        assert Logged(s, s.hi, BAD);
      }
    } else {
      assert forall i :: s.lo <= i < s.hi ==> i in s.skipped;
      assert first < s.hi ==> first in s.skipped;
      assert s.lo < first ==> first - 1 in s.skipped;
    }
    hide Settled;
  }

  lemma ProbeAfterOne(s: Search)
    requires s.lo == 0 && s.hi == 3 && s.skipped == [1] && HasUnskipped(0, 3, [1])
    ensures NextIndex(s) == 0
  {
    assert Requeue([Span(0, 1, 3)]) == [Span(0, 0, 1), Span(1, 2, 3)];
  }

  lemma ProbeAfterTwo(s: Search)
    requires s.lo == 0 && s.hi == 3 && s.skipped == [1, 0] && HasUnskipped(0, 3, [1, 0])
    ensures NextIndex(s) == 2
  {
    var q1 := [Span(0, 0, 1), Span(1, 2, 3)];
    assert Requeue([Span(0, 1, 3)]) == q1;
    assert Requeue(q1) == [Span(1, 2, 3), Span(0, 0, 0), Span(0, 0, 1)];
  }

  /** A search that asks about i next and hears "skip" goes on with one index more skipped. */
  lemma SkipTurn(s: Live, answer: int -> Status, i: int, budget: nat)
    requires HasUnskipped(s.lo, s.hi, s.skipped) && NextIndex(s) == i && answer(i) == SKIP
    ensures !Finished(s)
    ensures var s' := Turn(s, answer);
            && s'.lo == s.lo && s'.hi == s.hi && s'.current == i && s'.skipped == s.skipped + [i]
            && Drive(s, answer, budget + 1) == Drive(s', answer, budget)
  {
    hide NextIndex, Inv;
  }

  /** With every proper prefix of four items skipped, a search ends at index 2. */
  lemma AllSkipped(answer: int -> Status)
    requires answer(0) == answer(1) == answer(2) == SKIP
    ensures var s := Drive(Start(4), answer, 3);
            Finished(s) && s.current == 2
  {
    FreshUnfinished(4);
    var s0: Live := Start(4);
    assert HasUnskipped(0, 3, []) && HasUnskipped(0, 3, [1]) && HasUnskipped(0, 3, [1, 0]) by {
      assert 1 !in [] && 0 !in [1] && 2 !in [1, 0];
    }
    assert s0.lo == 0 && s0.hi == 3 && s0.skipped == [];
    hide *;
    NextAtMiddle(s0);
    SkipTurn(s0, answer, 1, 2);
    var s1 := Turn(s0, answer);
    ProbeAfterOne(s1);
    SkipTurn(s1, answer, 0, 1);
    var s2 := Turn(s1, answer);
    ProbeAfterTwo(s2);
    SkipTurn(s2, answer, 2, 0);
    EndedBySkips(Turn(s2, answer), answer);
  }

  lemma EndedBySkips(s: Live, answer: int -> Status)
    requires s.lo == 0 && s.hi == 3 && s.skipped == [1, 0, 2]
    ensures Finished(s) && Drive(s, answer, 0) == s
  {
  }

  lemma NextAtMiddle(s: Search)
    requires HasUnskipped(s.lo, s.hi, s.skipped) && (s.lo + s.hi) / 2 !in s.skipped
    ensures NextIndex(s) == (s.lo + s.hi) / 2
  {
  }

  lemma FreshUnfinished(n: nat)
    requires n >= 2
    ensures Inv(Start(n)) && !Finished(Start(n))
  {
    var s := Start(n);
    assert s.lo !in s.skipped;
  }

  /** The searcher at the top of each turn of the loop. */
  function Tops(s: Live, answer: int -> Status, budget: nat): (tops: seq<Live>)
    ensures forall j :: 0 <= j < |tops| ==> !Finished(tops[j]) && tops[j].n == s.n
    ensures |tops| == |Drive(s, answer, budget).indices| - |s.indices|
    decreases budget
  {
    if budget == 0 || Finished(s) then [] else [s] + Tops(Turn(s, answer), answer, budget - 1)
  }

  lemma TopsFirst(s: Live, answer: int -> Status, budget: nat)
    requires Tops(s, answer, budget) != []
    ensures Tops(s, answer, budget)[0] == s
  {
  }

  lemma TopsLater(s: Live, answer: int -> Status, budget: nat, j: nat)
    requires 0 < j < |Tops(s, answer, budget)|
    ensures budget > 0 && !Finished(s)
    ensures |Tops(Turn(s, answer), answer, budget - 1)| == |Tops(s, answer, budget)| - 1
    ensures Tops(s, answer, budget)[j] == Tops(Turn(s, answer), answer, budget - 1)[j - 1]
    ensures Drive(s, answer, budget) == Drive(Turn(s, answer), answer, budget - 1)
  {
  }

  lemma TopsNext(s: Live, answer: int -> Status, budget: nat, k: nat)
    requires budget > 0 && !Finished(s)
    ensures var later := Tops(Turn(s, answer), answer, budget - 1);
            && |Tops(s, answer, budget)| == |later| + 1
            && (k < |later| ==> Tops(s, answer, budget)[k + 1] == later[k])
  {
    hide Inv, Finished, Turn;
  }

  /** Starting again at any turn with the budget that was left ends in the same search ... */
  lemma {:induction false} DriveFrom(s: Live, answer: int -> Status, budget: nat, j: nat)
    requires j < |Tops(s, answer, budget)|
    ensures j <= budget
    ensures |Tops(s, answer, budget)[j].indices| == |s.indices| + j
    ensures Drive(Tops(s, answer, budget)[j], answer, budget - j) == Drive(s, answer, budget)
    decreases j
  {
    hide *;
    if j == 0 {
      TopsFirst(s, answer, budget);
    } else {
      TopsLater(s, answer, budget, j);
      DriveFrom(Turn(s, answer), answer, budget - 1, j - 1);
    }
  }

  /** ... by way of the same later turns. */
  lemma {:induction false} TopsFrom(s: Live, answer: int -> Status, budget: nat, j: nat, k: nat)
    requires j + k < |Tops(s, answer, budget)| && j <= budget
    ensures var later := Tops(Tops(s, answer, budget)[j], answer, budget - j);
            && |later| == |Tops(s, answer, budget)| - j
            && later[k] == Tops(s, answer, budget)[j + k]
    decreases j
  {
    hide *;
    if j == 0 {
      TopsFirst(s, answer, budget);
    } else {
      TopsLater(s, answer, budget, j);
      TopsLater(s, answer, budget, j + k);
      TopsFrom(Turn(s, answer), answer, budget - 1, j - 1, k);
    }
  }

  // ---------------------------------------------------------------- the class

  class BinarySearcher {
    var sortedList: seq<Item>
    var indexLog: seq<int>
    var statusLog: seq<Status>
    var skippedIndices: seq<int>
    var current: int
    var lo: int
    var hi: int

    function State(): Search
      reads this
    {
      Search(|sortedList|, lo, hi, current, skippedIndices, indexLog, statusLog)
    }

    constructor ()
      ensures sortedList == [] && State() == Search(0, 0, 0, 0, [], [], [])
    {
      sortedList, indexLog, statusLog, skippedIndices := [], [], [], [];
      current, lo, hi := 0, 0, 0;
    }

    /** Keeps the status log, the skips and `current` of an earlier list. */
    method SetSortedList(items: seq<Item>)
      requires items != []
      modifies this
      ensures sortedList == items
      ensures State() == Search(|items|, 0, |items| - 1, old(current), old(skippedIndices), [], old(statusLog))
    {
      sortedList := items;
      indexLog := [];
      hi := |items| - 1;
      lo := 0;
    }

    /** The result says whether the search is complete. */
    method SetStatus(status: Status) returns (done: bool)
      requires 0 <= current < |sortedList|
      modifies this
      ensures State() == Answered(old(State()), status)
      ensures sortedList == old(sortedList)
      ensures done <==> Finished(State())
    {
      indexLog := indexLog + [current];
      statusLog := statusLog + [status];
      if status == SKIP {
        skippedIndices := skippedIndices + [current];
      }
      if status == GOOD || status == BAD {
        if status == GOOD {
          lo := current + 1;
        } else {
          hi := current;
        }
        current := (lo + hi) / 2;
      }
      if lo == hi {
        return true;
      }
      var index := lo;
      while index < hi
        invariant lo <= index
        invariant forall i :: lo <= i < index && i < hi ==> i in skippedIndices
      {
        if index !in skippedIndices {
          return false;
        }
        index := index + 1;
      }
      return true;
    }

    method GetNextFlakyBinary()
      requires HasUnskipped(lo, hi, skippedIndices)
      requires current == (lo + hi) / 2
      modifies this`current
      ensures current == Probe(lo, hi, [MakeSpan(lo, hi)], skippedIndices, LeastUnskipped(lo, hi, skippedIndices), 0)
    {
      var q := [Span(lo, current, hi)];
      ghost var i, p := LeastUnskipped(lo, hi, skippedIndices), 0;
      ghost var pick := Probe(lo, hi, q, skippedIndices, i, p);
      while q != []
        invariant Tracks(lo, hi, q, skippedIndices, i, p)
        invariant Probe(lo, hi, q, skippedIndices, i, p) == pick
        decreases q[p].b - q[p].a, p
      {
        var element := q[0];
        if element.mid in skippedIndices {
          FollowTracks(lo, hi, q, skippedIndices, i, p);
          ghost var requeued := Requeue(q);
          p := Follow(q, i, p);
          q := q[1..];
          q := q + [Span(element.a, (element.a + element.mid) / 2, element.mid)];
          q := q + [Span(element.mid, (element.mid + element.b) / 2, element.b)];
          assert q == requeued;
        } else {
          current := element.mid;
          return;
        }
      }
    }

    method GetNext() returns (item: Item)
      requires 0 <= lo <= hi < |sortedList| && HasUnskipped(lo, hi, skippedIndices)
      modifies this`current
      ensures State() == Asked(old(State()))
      ensures BreadthFirst(lo, hi, skippedIndices, current)
      ensures 0 <= current < |sortedList| && item == sortedList[current]
    {
      NextIsBreadthFirst(State());
      hide BreadthFirst;
      current := (hi + lo) / 2;
      if current in skippedIndices {
        GetNextFlakyBinary();
      }
      item := sortedList[current];
    }
  }
}
