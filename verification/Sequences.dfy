/** Filtering of sequences and integer intervals. */
module Sequences {

  function Filter<T>(keep: T -> bool, s: seq<T>): seq<T> {
    if s == [] then [] else
      Filter(keep, s[..|s| - 1]) + (if keep(s[|s| - 1]) then [s[|s| - 1]] else [])
  }

  lemma FilterMembers<T>(keep: T -> bool, s: seq<T>)
    ensures forall x :: x in Filter(keep, s) <==> x in s && keep(x)
  {
    if s != [] {
      FilterMembers(keep, s[..|s| - 1]);
      assert s == s[..|s| - 1] + [s[|s| - 1]];
    }
  }

  lemma FilterNone<T>(keep: T -> bool, s: seq<T>)
    requires forall x :: x in s ==> !keep(x)
    ensures Filter(keep, s) == []
  {}

  lemma FilterLast<T>(keep: T -> bool, s: seq<T>, x: T)
    ensures Filter(keep, s + [x]) == if keep(x) then Filter(keep, s) + [x] else Filter(keep, s)
  {
    assert (s + [x])[..|s|] == s;
  }

  /** Positions of the kept elements, in order. */
  lemma {:induction false} FilterKeepsOrder<T>(keep: T -> bool, s: seq<T>) returns (at: seq<nat>)
    ensures |at| == |Filter(keep, s)|
    ensures forall i :: 0 <= i < |at| ==> at[i] < |s| && Filter(keep, s)[i] == s[at[i]] && keep(s[at[i]])
    ensures forall i, j :: 0 <= i < j < |at| ==> at[i] < at[j]
  {
    if s == [] {
      at := [];
    } else {
      hide Filter;
      var init, last := s[..|s| - 1], s[|s| - 1];
      assert s == init + [last];
      FilterLast(keep, init, last);
      at := FilterKeepsOrder(keep, init);
      if keep(last) { at := at + [|s| - 1]; }
    }
  }

  /** The integers from `lo` to `hi`, in order. */
  function Interval(lo: int, hi: int): seq<int>
    decreases hi - lo
  {
    if hi < lo then [] else Interval(lo, hi - 1) + [hi]
  }

  lemma {:induction false} IntervalMembers(lo: int, hi: int, x: int)
    ensures x in Interval(lo, hi) <==> lo <= x <= hi
    decreases hi - lo
  {
    if lo <= hi { IntervalMembers(lo, hi - 1, x); }
  }

  lemma {:induction false} IntervalLength(lo: int, hi: int)
    ensures |Interval(lo, hi)| == if lo <= hi then hi - lo + 1 else 0
    decreases hi - lo
  {
    if lo <= hi { IntervalLength(lo, hi - 1); }
  }
}
