/** Sets of consecutive numbers. */
module Intervals {

  function Interval(lo: nat, hi: nat): set<nat>
    decreases hi
  {
    if lo >= hi then {} else Interval(lo, hi - 1) + {hi - 1}
  }

  lemma {:induction false} IntervalSize(lo: nat, hi: nat)
    requires lo <= hi
    ensures forall n :: n in Interval(lo, hi) <==> lo <= n < hi
    ensures |Interval(lo, hi)| == hi - lo
    decreases hi
  {
    if lo < hi {
      IntervalSize(lo, hi - 1);
    }
  }

  lemma SizeBetween(s: set<nat>, lo: nat, hi: nat)
    requires lo <= hi && forall n: nat :: n in s <==> lo <= n < hi
    ensures |s| == hi - lo
  {
    IntervalSize(lo, hi);
    assert s == Interval(lo, hi);
  }
}
