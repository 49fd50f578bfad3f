/** Intervals on the integer timeline: clipping one interval against another
    (`find_intersection`) and the length of the clipped part
    (`count_intersection_seconds`). */
module Intervals {

  datatype Option<T> = None | Some(value: T)

  /** The two-marker list `[start, end]` of the source. Nothing forces
      `start <= end`: raw presence logs may hold reversed pairs. */
  datatype Interval = Interval(start: int, end: int)

  predicate Valid(i: Interval) {
    i.start <= i.end
  }

  function Max(a: int, b: int): int {
    if a < b then b else a
  }

  function Min(a: int, b: int): int {
    if a < b then a else b
  }

  /** `t` is a point of the closed interval `[start, end]`. */
  predicate HasPoint(i: Interval, t: int) {
    i.start <= t <= i.end
  }

  /** The whole second `[t, t + 1)` lies inside the interval. */
  predicate HasSecond(i: Interval, t: int) {
    i.start <= t < i.end
  }

  // In the two comprehensions below the bounds tell Dafny that the set is
  // finite and the predicate gives the solver a term to trigger on.

  /** The integer points of the closed interval. */
  function Points(i: Interval): set<int> {
    set t | i.start <= t <= i.end && HasPoint(i, t)
  }

  /** The whole seconds that the interval covers. */
  function Span(i: Interval): set<int> {
    set t | i.start <= t < i.end && HasSecond(i, t)
  }

  /** The length of an interval as a duration; a reversed interval lasts 0. */
  function Length(i: Interval): nat {
    if i.start <= i.end then i.end - i.start else 0
  }

  lemma {:induction false} SpanCardinality(i: Interval)
    ensures |Span(i)| == Length(i)
    decreases Length(i)
  {
    if i.start < i.end {
      var shorter := Interval(i.start, i.end - 1);
      SpanCardinality(shorter);
      assert Span(i) == Span(shorter) + {i.end - 1};
    } else {
      assert Span(i) == {};
    }
  }

  /** Clips `b` against `a`: the interval from the later start to the earlier
      end, or `None` when that would be reversed. A result may be a single
      point such as `[30, 30]`. */
  function FindIntersection(a: Interval, b: Interval): (r: Option<Interval>)
    ensures r.Some? ==> Valid(r.value)
    ensures r.Some? ==> a.start <= r.value.start && r.value.end <= a.end
    ensures r.Some? ==> b.start <= r.value.start && r.value.end <= b.end
  {
    var start := Max(a.start, b.start);
    var end := Min(a.end, b.end);
    if start > end then
      None
    else
      Some(Interval(start, end))
  }

  /** `None` means exactly that the two closed intervals share no integer
      point; otherwise the result holds exactly the points, and the whole
      seconds, that lie in both. */
  lemma FindIntersectionPoints(a: Interval, b: Interval)
    ensures FindIntersection(a, b).None? <==> Points(a) * Points(b) == {}
    ensures FindIntersection(a, b).Some? ==> Points(FindIntersection(a, b).value) == Points(a) * Points(b)
    ensures FindIntersection(a, b).Some? ==> Span(FindIntersection(a, b).value) == Span(a) * Span(b)
    ensures FindIntersection(a, b).None? ==> Span(a) * Span(b) == {}
  {
    var start := Max(a.start, b.start);
    if start <= Min(a.end, b.end) {
      assert start in Points(a) * Points(b);
    }
  }

  /** The `None` test of the source is exactly `max(starts) > min(ends)`, and a
      result is `[max(starts), min(ends)]`, zero-length results included. */
  lemma FindIntersectionBoundary(a: Interval, b: Interval)
    ensures FindIntersection(a, b).None? <==> Max(a.start, b.start) > Min(a.end, b.end)
    ensures FindIntersection(a, b).Some? ==>
              FindIntersection(a, b).value == Interval(Max(a.start, b.start), Min(a.end, b.end))
  {
  }

  lemma FindIntersectionSymmetric(a: Interval, b: Interval)
    ensures FindIntersection(a, b) == FindIntersection(b, a)
  {
  }

  /** The length of the clipped part; 0 when there is none. */
  function CountIntersectionSeconds(a: Interval, b: Interval): (r: int)
    ensures 0 <= r <= Length(a) && r <= Length(b)
  {
    match FindIntersection(a, b)
    case None =>
      0
    case Some(c) =>
      c.end - c.start
  }

  /** The count is the number of whole seconds that both intervals cover. */
  lemma CountIsCommonSeconds(a: Interval, b: Interval)
    ensures CountIntersectionSeconds(a, b) == |Span(a) * Span(b)|
  {
    FindIntersectionPoints(a, b);
    match FindIntersection(a, b)
    case None =>
    case Some(c) =>
      SpanCardinality(c);
  }

  /** Overlap is positive exactly when the clipped part has positive length:
      intervals that only touch, like `[10, 30]` and `[30, 50]`, give 0. */
  lemma {:induction false} CountPositiveIff(a: Interval, b: Interval)
    ensures CountIntersectionSeconds(a, b) > 0 <==> Max(a.start, b.start) < Min(a.end, b.end)
  {
    CountIsCommonSeconds(a, b);
    var m := Max(a.start, b.start);
    if m < Min(a.end, b.end) {
      assert m in Span(a) * Span(b);
    }
  }

  lemma CountSymmetric(a: Interval, b: Interval)
    ensures CountIntersectionSeconds(a, b) == CountIntersectionSeconds(b, a)
  {
    CountIsCommonSeconds(a, b);
    CountIsCommonSeconds(b, a);
    assert Span(a) * Span(b) == Span(b) * Span(a);
  }
}
