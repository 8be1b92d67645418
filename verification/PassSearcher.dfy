/** The pass-level bisection of binary_search_perforce.py: a search for the least limit (number of
    optimisation passes run) at which a miscompiled object goes bad. */
module PassBisection {
  import opened Sequences
  import opened BinarySearch

  datatype PassSearch = PassSearch(total: nat, lo: int, hi: int, current: int)

  /** A run of the search loop: its searcher, the tests it made, whether it ended. */
  datatype PassRun = PassRun(s: PassSearch, tests: nat, done: bool)

  function PassAsked(s: PassSearch): PassSearch {
    var hi := if s.hi == 0 then s.total else s.hi;
    s.(hi := hi, current := (hi + s.lo) / 2)
  }

  /** Testing limit 0 ends the search before the answer is looked at. */
  function PassAnswered(s: PassSearch, status: Status): PassSearch {
    if s.current == 0 then s
    else if status == GOOD then s.(lo := s.current + 1)
    else if status == BAD then s.(hi := s.current)
    else s
  }

  predicate PassFinished(s: PassSearch) {
    s.current == 0 || s.lo >= s.hi
  }

  /** The loop of DoBinarySearchBadPass, with `answer` the test's answer at each limit. */
  function PassDrive(s: PassSearch, answer: int -> Status, budget: nat): (r: PassRun)
    ensures r.tests <= budget && (!r.done ==> r.tests == budget)
    decreases budget
  {
    if budget == 0 then PassRun(s, 0, false)
    else
      var asked := PassAsked(s);
      var s' := PassAnswered(asked, answer(asked.current));
      if PassFinished(s') then PassRun(s', 1, true)
      else
        var rest := PassDrive(s', answer, budget - 1);
        rest.(tests := rest.tests + 1)
  }

  function PassStart(total: nat): PassSearch {
    PassSearch(total, 0, 0, 0)
  }

  /** The answers are monotone in the limit, with `least` the least bad limit. */
  ghost predicate Monotone(answer: int -> Status, total: nat, least: int) {
    0 <= least <= total && forall i :: 0 <= i <= total ==> answer(i) == (if i < least then GOOD else BAD)
  }

  /** Between tests: the interval is open and holds the least bad limit, and lo is 0 or beyond 1. */
  ghost predicate Between(s: PassSearch, least: int) {
    && 0 <= s.lo <= least <= s.hi <= s.total && s.lo < s.hi
    && s.lo != 1
  }

  lemma {:induction false} PassDriveFinds(s: PassSearch, answer: int -> Status, least: int, budget: nat)
    requires Monotone(answer, s.total, least)
    requires Between(s, least)
    requires s.hi - s.lo < Pow2(budget)
    ensures var r := PassDrive(s, answer, budget);
            && r.done
            && (r.s.current == 0 <==> least <= 1)
            && (least > 1 ==> r.s.lo == r.s.hi == least)
    decreases budget
  {
    var asked := PassAsked(s);
    var s' := PassAnswered(asked, answer(asked.current));
    if !PassFinished(s') {
      PassDriveFinds(s', answer, least, budget - 1);
    }
  }

  /** With answers monotone in the limit and bad at `total`, k tests suffice when total < 2^k:
      the search stops at limit 0 exactly when the least bad limit is 0 or 1, and otherwise closes
      in on the least bad limit. */
  lemma PassSearchFinds(total: nat, answer: int -> Status, least: int, k: nat)
    requires Monotone(answer, total, least)
    requires k > 0 && total < Pow2(k)
    ensures var r := PassDrive(PassStart(total), answer, k);
            && r.done && r.tests <= k
            && (r.s.current == 0 <==> least <= 1)
            && (least > 1 ==> r.s.lo == r.s.hi == least)
  {
    if total > 0 {
      var s := PassStart(total).(hi := total);
      assert PassDrive(s, answer, k) == PassDrive(PassStart(total), answer, k);
      PassDriveFinds(s, answer, least, k);
    }
  }

  /** The next limit to be tested is not 0 and answers "skip". */
  ghost predicate Stuck(s: PassSearch, answer: int -> Status) {
    PassAsked(s).current != 0 && answer(PassAsked(s).current) == SKIP
  }

  /** A skip changes nothing, so the same limit is tested until the budget is spent. */
  lemma {:induction false} StuckForever(s: PassSearch, answer: int -> Status, budget: nat)
    requires 0 <= s.lo < s.hi && Stuck(s, answer)
    ensures PassDrive(s, answer, budget) == PassRun(if budget == 0 then s else PassAsked(s), budget, false)
    decreases budget
  {
    if budget > 0 {
      assert PassAsked(PassAsked(s)) == PassAsked(s);
      StuckForever(PassAsked(s), answer, budget - 1);
    }
  }

  /** Whatever the answers: a search that has not ended within k tests sits at a skipped limit, and
      no larger budget makes it end. */
  lemma {:induction false} EndsOrSticks(s: PassSearch, answer: int -> Status, k: nat, larger: nat)
    requires 0 <= s.lo < s.hi <= s.total && s.hi - s.lo < Pow2(k) && k <= larger
    ensures var r := PassDrive(s, answer, k);
            && (r.done <==> !(0 <= r.s.lo < r.s.hi && Stuck(r.s, answer)))
            && (r.done <==> PassDrive(s, answer, larger).done)
    decreases k
  {
    var asked := PassAsked(s);
    var s' := PassAnswered(asked, answer(asked.current));
    if Stuck(s, answer) {
      StuckForever(s, answer, k);
      StuckForever(s, answer, larger);
      assert PassAsked(asked) == asked;
    } else if !PassFinished(s') {
      EndsOrSticks(s', answer, k - 1, larger - 1);
    }
  }

  class BinarySearcherForPass {
    var current: int
    var lo: int
    var hi: int
    var total: nat

    function State(): PassSearch
      reads this
    {
      PassSearch(total, lo, hi, current)
    }

    constructor (total: nat)
      ensures State() == PassStart(total)
    {
      current, lo, hi := 0, 0, 0;
      this.total := total;
    }

    method GetNext() returns (limit: int)
      modifies this
      ensures State() == PassAsked(old(State())) && limit == current
    {
      if hi == 0 {
        hi := total;
      }
      current := (hi + lo) / 2;
      limit := current;
    }

    method SetStatus(status: Status) returns (done: bool)
      modifies this
      ensures State() == PassAnswered(old(State()), status)
      ensures done <==> PassFinished(State())
    {
      if current == 0 {
        return true;
      }
      if status == GOOD {
        lo := current + 1;
      } else if status == BAD {
        hi := current;
      }
      return lo >= hi;
    }
  }

  /** The test loop around the searcher; `answer` stands for building with the limit and testing. */
  method DoBinarySearchBadPass(searcher: BinarySearcherForPass, answer: int -> Status, iterations: nat)
    returns (terminated: bool, searchCycles: nat)
    modifies searcher
    ensures PassDrive(old(searcher.State()), answer, iterations)
            == PassRun(searcher.State(), searchCycles, terminated)
  {
    terminated, searchCycles := false, 0;
    ghost var whole := PassDrive(searcher.State(), answer, iterations);
    while searchCycles < iterations && !terminated
      invariant searchCycles <= iterations
      invariant terminated ==> whole == PassRun(searcher.State(), searchCycles, true)
      invariant !terminated ==>
          var rest := PassDrive(searcher.State(), answer, iterations - searchCycles);
          whole == rest.(tests := searchCycles + rest.tests)
      decreases iterations - searchCycles, !terminated
    {
      searchCycles := searchCycles + 1;
      var limit := searcher.GetNext();
      terminated := searcher.SetStatus(answer(limit));
    }
  }
}
