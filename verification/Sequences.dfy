/** Small facts about sequences, sets and powers of two that several modules share. */
module Sequences {

  datatype Option<+T> = None | Some(value: T)

  /** No value occurs twice. */
  ghost predicate Distinct<T>(s: seq<T>) {
    forall i, j :: 0 <= i < j < |s| ==> s[i] != s[j]
  }

  function Elements<T>(s: seq<T>): set<T> {
    set x | x in s
  }

  function Pow2(k: nat): (p: nat)
    ensures p >= 1
  {
    if k == 0 then 1 else 2 * Pow2(k - 1)
  }

  lemma Prepend<T>(whole: seq<T>, first: T, rest: seq<T>)
    requires |whole| == |rest| + 1 && whole[0] == first
    requires forall k :: 0 <= k < |rest| ==> whole[k + 1] == rest[k]
    ensures whole == [first] + rest
  {
  }

  /** A distinct sequence has as many elements as entries. */
  lemma {:induction false} DistinctCount<T>(s: seq<T>)
    requires Distinct(s)
    ensures |Elements(s)| == |s|
  {
    if s == [] {
    } else {
      var front, last := s[..|s| - 1], s[|s| - 1];
      DistinctCount(front);
      assert s == front + [last];
      assert Elements(s) == Elements(front) + {last};
      assert last !in Elements(front);
    }
  }

  /** And only a distinct sequence has. */
  lemma {:induction false} CountDistinct<T>(s: seq<T>)
    ensures |Elements(s)| <= |s|
    ensures |Elements(s)| == |s| ==> Distinct(s)
  {
    if s == [] {
    } else {
      var front, last := s[..|s| - 1], s[|s| - 1];
      CountDistinct(front);
      assert s == front + [last];
      assert Elements(s) == Elements(front) + {last};
      if last in front {
        assert Elements(s) == Elements(front);
      }
    }
  }

  /** Pigeonhole: a distinct sequence drawn from a set is no longer than the set. */
  lemma Pigeonhole<T>(s: seq<T>, box: set<T>)
    requires Distinct(s) && forall x :: x in s ==> x in box
    ensures |s| <= |box|
  {
    DistinctCount(s);
    Within(Elements(s), box);
  }

  /** A subset is no larger; equal size forces equality. */
  lemma {:induction false} Within<T>(a: set<T>, b: set<T>)
    requires a <= b
    ensures |a| <= |b|
    ensures |a| == |b| ==> a == b
  {
    if a == {} {
    } else {
      var x :| x in a;
      Within(a - {x}, b - {x});
    }
  }

  /** Taking new elements out of what is left of a set leaves less. */
  lemma LeavesLess<T>(whole: set<T>, gone: set<T>, more: set<T>)
    requires more <= whole && more !! gone && more != {}
    ensures |whole - (gone + more)| < |whole - gone|
  {
    var x :| x in more;
    Within(whole - (gone + more), whole - gone - {x});
  }

  /** The integers of a half-open range. */
  function Range(lo: int, hi: int): (r: set<int>)
    requires lo <= hi
    ensures forall i :: i in r <==> lo <= i < hi
    decreases hi - lo
  {
    if lo == hi then {} else Range(lo, hi - 1) + {hi - 1}
  }

  lemma {:induction false} RangeSize(lo: int, hi: int)
    requires lo <= hi
    ensures |Range(lo, hi)| == hi - lo
    decreases hi - lo
  {
    if lo == hi {
    } else {
      RangeSize(lo, hi - 1);
    }
  }
}
