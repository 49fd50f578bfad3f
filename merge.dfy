/** `merge_intervals`: sort a list of intervals in place by start, then sweep
    it once, collapsing every interval that starts at or before the end of the
    last output interval (so touching intervals merge). */
module Merge {
  import opened Intervals

  predicate AllValid(s: seq<Interval>) {
    forall k :: 0 <= k < |s| ==> Valid(s[k])
  }

  predicate SortedByStart(s: seq<Interval>) {
    forall i, j :: 0 <= i < j < |s| ==> s[i].start <= s[j].start
  }

  /** Each interval starts strictly after the previous one ends: the shape of
      a merged list. */
  predicate Separated(s: seq<Interval>) {
    forall k :: 0 < k < |s| ==> s[k - 1].end < s[k].start
  }

  /** The integer points covered by some closed interval of the list. */
  function Covered(s: seq<Interval>): set<int> {
    set x, t | x in s && t in Points(x) :: t
  }

  /** The whole seconds covered by some interval of the list. */
  function Seconds(s: seq<Interval>): set<int> {
    set x, t | x in s && t in Span(x) :: t
  }

  function Last(s: seq<Interval>): Interval
    requires |s| > 0
  {
    s[|s| - 1]
  }

  /** The sweep of lines 22-36 over an already sorted list: `Sweep(s, k)` is
      the output list once the sweep has consumed `s[..k]`. */
  function Sweep(s: seq<Interval>, k: nat): seq<Interval>
    requires 1 <= k <= |s|
  {
    if k == 1 then
      [s[0]]
    else
      var acc := Sweep(s, k - 1);
      var last, cur := Last(acc), s[k - 1];
      if cur.start <= last.end then
        acc[..|acc| - 1] + [Interval(last.start, Max(last.end, cur.end))]
      else
        acc + [cur]
  }

  /** Lines 31-32 as a step of `Sweep`: an interval that starts at or before
      the end of the last output interval widens it to the larger end and
      leaves the earlier output alone. */
  lemma SweepJoin(s: seq<Interval>, k: nat, p: seq<Interval>, last: Interval)
    requires 2 <= k <= |s| && Sweep(s, k - 1) == p + [last] && s[k - 1].start <= last.end
    ensures Sweep(s, k) == p + [Interval(last.start, Max(last.end, s[k - 1].end))]
  {
    assert (p + [last])[..|p|] == p;
  }

  /** Lines 33-34 as a step of `Sweep`: an interval that starts after the
      end of the last output interval is appended as it is. */
  lemma SweepAppend(s: seq<Interval>, k: nat, p: seq<Interval>)
    requires 2 <= k <= |s| && Sweep(s, k - 1) == p && |p| > 0 && Last(p).end < s[k - 1].start
    ensures Sweep(s, k) == p + [s[k - 1]]
  {
  }

  lemma CoveredSnoc(s: seq<Interval>, x: Interval)
    ensures Covered(s + [x]) == Covered(s) + Points(x)
    ensures Seconds(s + [x]) == Seconds(s) + Span(x)
  {
    assert forall y :: y in s + [x] <==> y in s || y == x;
  }

  lemma AllValidPermutation(s: seq<Interval>, t: seq<Interval>)
    requires multiset(s) == multiset(t) && AllValid(s)
    ensures AllValid(t)
  {
    forall k | 0 <= k < |t|
      ensures Valid(t[k])
    {
      assert t[k] in multiset(s);
    }
  }

  /** Covered and Seconds depend only on which intervals the list holds, so
      sorting leaves them alone. */
  lemma CoveredPermutation(s: seq<Interval>, t: seq<Interval>)
    requires multiset(s) == multiset(t)
    ensures Covered(s) == Covered(t) && Seconds(s) == Seconds(t)
  {
    assert forall y :: y in s <==> y in multiset(s);
    assert forall y :: y in t <==> y in multiset(t);
  }

  /** The shape of a sweep over a sorted list of valid intervals: never longer
      than what it consumed, every output interval valid, starts strictly
      after the previous output ends, and the last output interval starts no
      later than the last interval consumed. */
  lemma {:induction false} SweepShape(s: seq<Interval>, k: nat)
    requires AllValid(s) && SortedByStart(s) && 1 <= k <= |s|
    ensures 1 <= |Sweep(s, k)| <= k
    ensures AllValid(Sweep(s, k)) && Separated(Sweep(s, k))
    ensures Sweep(s, k)[0].start == s[0].start
    ensures Last(Sweep(s, k)).start <= s[k - 1].start
  {
    if k > 1 {
      SweepShape(s, k - 1);
      assert Valid(s[k - 1]) && s[k - 2].start <= s[k - 1].start;
      StepShape(s, k);
    }
  }

  /** One step keeps the output valid and separated, adds at most one
      interval, and keeps its first start. */
  lemma StepShape(s: seq<Interval>, k: nat)
    requires 2 <= k <= |s| && Valid(s[k - 1])
    requires var acc := Sweep(s, k - 1);
             AllValid(acc) && Separated(acc) && Last(acc).start <= s[k - 1].start
    ensures |Sweep(s, k - 1)| <= |Sweep(s, k)| <= |Sweep(s, k - 1)| + 1
    ensures AllValid(Sweep(s, k)) && Separated(Sweep(s, k))
    ensures Sweep(s, k)[0].start == Sweep(s, k - 1)[0].start && Last(Sweep(s, k)).start <= s[k - 1].start
  {
    var acc, next := Sweep(s, k - 1), Sweep(s, k);
    var last, cur := Last(acc), s[k - 1];
    if cur.start <= last.end {
      var front := acc[..|acc| - 1];
      assert next == front + [Interval(last.start, Max(last.end, cur.end))];
      assert next[..|acc| - 1] == front;
    } else {
      assert next == acc + [cur];
    }
  }

  /** Joining `cur` into `last` when `cur` starts inside `last` covers the
      union of the two. */
  lemma JoinCoverage(last: Interval, cur: Interval)
    requires last.start <= cur.start <= last.end
    ensures Points(Interval(last.start, Max(last.end, cur.end))) == Points(last) + Points(cur)
    ensures Span(Interval(last.start, Max(last.end, cur.end))) == Span(last) + Span(cur)
  {
  }

  /** One step of the sweep, on the coverage of the output list. */
  lemma StepCoverage(acc: seq<Interval>, cur: Interval)
    requires |acc| > 0 && Last(acc).start <= cur.start
    ensures var last := Last(acc);
            var next := if cur.start <= last.end
                        then acc[..|acc| - 1] + [Interval(last.start, Max(last.end, cur.end))]
                        else acc + [cur];
            Covered(next) == Covered(acc) + Points(cur) && Seconds(next) == Seconds(acc) + Span(cur)
  {
    var last := Last(acc);
    if cur.start <= last.end {
      var front := acc[..|acc| - 1];
      assert acc == front + [last];
      CoveredSnoc(front, last);
      CoveredSnoc(front, Interval(last.start, Max(last.end, cur.end)));
      JoinCoverage(last, cur);
    } else {
      CoveredSnoc(acc, cur);
    }
  }

  /** The sweep keeps exactly the points and the whole seconds of what it
      consumed. */
  lemma {:induction false} SweepCoverage(s: seq<Interval>, k: nat)
    requires AllValid(s) && SortedByStart(s) && 1 <= k <= |s|
    ensures Covered(Sweep(s, k)) == Covered(s[..k])
    ensures Seconds(Sweep(s, k)) == Seconds(s[..k])
  {
    assert s[..k] == s[..k - 1] + [s[k - 1]];
    CoveredSnoc(s[..k - 1], s[k - 1]);
    if k == 1 {
      assert s[..k - 1] == [];
    } else {
      SweepCoverage(s, k - 1);
      SweepShape(s, k - 1);
      StepCoverage(Sweep(s, k - 1), s[k - 1]);
    }
  }

  /** On separated input the sweep changes nothing. */
  lemma {:induction false} SweepSeparated(m: seq<Interval>, k: nat)
    requires Separated(m) && 1 <= k <= |m|
    ensures Sweep(m, k) == m[..k]
  {
    if k > 1 {
      SweepSeparated(m, k - 1);
      assert m[..k] == m[..k - 1] + [m[k - 1]];
    }
  }

  /** In a separated list of valid intervals every interval ends before any
      later one starts. */
  lemma {:induction false} SeparatedOrdered(m: seq<Interval>, i: int, j: int)
    requires AllValid(m) && Separated(m)
    requires 0 <= i < j < |m|
    ensures m[i].end < m[j].start
    decreases j - i
  {
    if i + 1 < j {
      SeparatedOrdered(m, i, j - 1);
    }
  }

  /** Both lists begin with the interval of least start. */
  lemma SameHead(m: seq<Interval>, t: seq<Interval>)
    requires AllValid(m) && Separated(m) && |m| > 0
    requires SortedByStart(t) && multiset(t) == multiset(m)
    ensures |t| > 0 && t[0] == m[0]
  {
    assert m[0] in multiset(t);
    var j :| 0 <= j < |t| && t[j] == m[0];
    assert t[0] in multiset(m);
    var i :| 0 <= i < |m| && m[i] == t[0];
    if i > 0 {
      SeparatedOrdered(m, 0, i);
      assert false;
    }
  }

  lemma TailMultiset(m: seq<Interval>, t: seq<Interval>)
    requires |m| > 0 && |t| > 0 && t[0] == m[0] && multiset(t) == multiset(m)
    ensures multiset(t[1..]) == multiset(m[1..])
  {
    assert t == [t[0]] + t[1..] && m == [m[0]] + m[1..];
    assert multiset(t) == multiset([t[0]]) + multiset(t[1..]);
    assert multiset(m) == multiset([m[0]]) + multiset(m[1..]);
    forall x
      ensures multiset(t[1..])[x] == multiset(m[1..])[x]
    {
      assert multiset(t)[x] == multiset([t[0]])[x] + multiset(t[1..])[x];
      assert multiset(m)[x] == multiset([m[0]])[x] + multiset(m[1..])[x];
    }
  }

  /** A list sorted by start that holds the same intervals as a separated list
      of valid intervals is that very list. */
  lemma {:induction false} SortedPermutationUnique(m: seq<Interval>, t: seq<Interval>)
    requires AllValid(m) && Separated(m)
    requires SortedByStart(t) && multiset(t) == multiset(m)
    ensures t == m
    decreases |m|
  {
    assert |t| == |multiset(t)| == |multiset(m)| == |m|;
    if |m| > 0 {
      SameHead(m, t);
      TailMultiset(m, t);
      SortedPermutationUnique(m[1..], t[1..]);
      assert t == [t[0]] + t[1..] && m == [m[0]] + m[1..];
    }
  }

  /** Merging a merged list again returns it unchanged, whatever order the
      sort leaves it in. */
  lemma MergeIdempotent(m: seq<Interval>, t: seq<Interval>)
    requires |m| > 0 && AllValid(m) && Separated(m)
    requires SortedByStart(t) && multiset(t) == multiset(m)
    ensures |t| > 0 && Sweep(t, |t|) == m
  {
    SortedPermutationUnique(m, t);
    SweepSeparated(m, |m|);
  }

  method Swap(a: array<Interval>, j: int)
    requires 0 < j < a.Length
    modifies a
    ensures a[j - 1] == old(a[j]) && a[j] == old(a[j - 1])
    ensures forall k :: 0 <= k < a.Length && k != j - 1 && k != j ==> a[k] == old(a[k])
    ensures multiset(a[..]) == multiset(old(a[..]))
  {
    a[j - 1], a[j] := a[j], a[j - 1];
  }

  /** Moves `a[i]` left past every larger start, so that `a[..i + 1]` is
      sorted when `a[..i]` was. */
  method InsertAt(a: array<Interval>, i: int)
    requires 0 <= i < a.Length
    requires forall p, q :: 0 <= p < q < i ==> a[p].start <= a[q].start
    modifies a
    ensures forall p, q :: 0 <= p < q <= i ==> a[p].start <= a[q].start
    ensures multiset(a[..]) == multiset(old(a[..]))
  {
    var j := i;
    while j > 0 && a[j - 1].start > a[j].start
      invariant 0 <= j <= i
      invariant forall p, q :: 0 <= p < q <= i && p != j && q != j ==> a[p].start <= a[q].start
      invariant forall q :: j < q <= i ==> a[j].start < a[q].start
      invariant multiset(a[..]) == multiset(old(a[..]))
    {
      Swap(a, j);
      j := j - 1;
    }
  }

  /** `intervals.sort(key=lambda x: x[0])`: an in-place insertion sort. */
  method SortByStart(a: array<Interval>)
    modifies a
    ensures SortedByStart(a[..])
    ensures multiset(a[..]) == multiset(old(a[..]))
  {
    var i := 0;
    while i < a.Length
      invariant 0 <= i <= a.Length
      invariant forall p, q :: 0 <= p < q < i ==> a[p].start <= a[q].start
      invariant multiset(a[..]) == multiset(old(a[..]))
    {
      InsertAt(a, i);
      i := i + 1;
    }
  }

  /** The sweep of a sorted permutation `s` of valid intervals `t`: what
      lines 18-36 return for `t`. */
  lemma SweepPermutation(s: seq<Interval>, t: seq<Interval>)
    requires multiset(s) == multiset(t) && SortedByStart(s) && AllValid(t) && |s| > 0
    ensures 1 <= |Sweep(s, |s|)| <= |s| && AllValid(Sweep(s, |s|)) && Separated(Sweep(s, |s|))
    ensures Covered(Sweep(s, |s|)) == Covered(t) && Seconds(Sweep(s, |s|)) == Seconds(t)
  {
    AllValidPermutation(t, s);
    SweepShape(s, |s|);
    SweepCoverage(s, |s|);
    assert s[..|s|] == s;
    CoveredPermutation(s, t);
  }

  /** `merge_intervals`: sorts the caller's array in place, then sweeps it. */
  method MergeIntervals(intervals: array<Interval>) returns (merged: seq<Interval>)
    requires intervals.Length > 0
    modifies intervals
    ensures SortedByStart(intervals[..])
    ensures multiset(intervals[..]) == multiset(old(intervals[..]))
    ensures merged == Sweep(intervals[..], intervals.Length)
    ensures AllValid(old(intervals[..])) ==>
              1 <= |merged| <= intervals.Length && AllValid(merged) && Separated(merged)
              && Covered(merged) == Covered(old(intervals[..]))
              && Seconds(merged) == Seconds(old(intervals[..]))
  {
    SortByStart(intervals);
    merged := [intervals[0]];
    for i := 1 to intervals.Length
      invariant merged == Sweep(intervals[..], i)
    {
      var last := merged[|merged| - 1];
      var cur := intervals[i];
      if cur.start <= last.end {
        merged := merged[..|merged| - 1] + [Interval(last.start, Max(last.end, cur.end))];
      } else {
        merged := merged + [cur];
      }
    }
    if AllValid(old(intervals[..])) {
      SweepPermutation(intervals[..], old(intervals[..]));
    }
  }
}
