/** `appearance`: for how many whole seconds were both the pupil and the tutor
    present inside the lesson? The input maps "lesson", "pupil" and "tutor" to
    flat marker lists `[enter, leave, enter, leave, ...]`. */
module Appearance {
  import opened Intervals
  import opened Merge

  /** What a call produces: an integer, or the `ValueError` that Python
      raises when a `lesson` list longer than two markers reaches the
      unpacking `start1, end1 = interval1` of `find_intersection`. */
  datatype Outcome = Returned(seconds: int) | UnpackError

  /** The segments `markers[k : k + 2]` for `k = 0, 2, ..., j - 2`. */
  function Pairs(markers: seq<int>, j: nat): (r: seq<Interval>)
    requires j <= |markers| && j % 2 == 0
    ensures |r| == j / 2
  {
    if j == 0 then [] else Pairs(markers, j - 2) + [Interval(markers[j - 2], markers[j - 1])]
  }

  /** Segment `k` of the log is the pair `markers[2 * k], markers[2 * k + 1]`. */
  lemma {:induction false} PairsAt(markers: seq<int>, j: nat)
    requires j <= |markers| && j % 2 == 0
    ensures forall k :: 0 <= k < j / 2 ==> Pairs(markers, j)[k] == Interval(markers[2 * k], markers[2 * k + 1])
  {
    if j > 0 {
      PairsAt(markers, j - 2);
    }
  }

  /** The loop of lines 66-69 after it has consumed `markers[..j]`: each pair
      clipped to the lesson window; pairs that `find_intersection` rejects are
      dropped, zero-length results are kept. */
  function Clipped(window: Interval, markers: seq<int>, j: nat): (r: seq<Interval>)
    requires j <= |markers| && j % 2 == 0
    ensures |r| <= j / 2 && AllValid(r)
  {
    if j == 0 then
      []
    else
      var prev := Clipped(window, markers, j - 2);
      match FindIntersection(window, Interval(markers[j - 2], markers[j - 1]))
      case None =>
        prev
      case Some(c) =>
        prev + [c]
  }

  /** Clipping keeps exactly the seconds of the lesson at which the log says
      the participant was present. */
  lemma {:induction false} ClippedSeconds(window: Interval, markers: seq<int>, j: nat)
    requires j <= |markers| && j % 2 == 0
    ensures Seconds(Clipped(window, markers, j)) == Span(window) * Seconds(Pairs(markers, j))
  {
    if j > 0 {
      var prev := Clipped(window, markers, j - 2);
      var segment := Interval(markers[j - 2], markers[j - 1]);
      ClippedSeconds(window, markers, j - 2);
      CoveredSnoc(Pairs(markers, j - 2), segment);
      FindIntersectionPoints(window, segment);
      match FindIntersection(window, segment)
      case None =>
      case Some(c) =>
        CoveredSnoc(prev, c);
    }
  }

  /** The seconds at which a participant's log says they were present. */
  function Present(markers: seq<int>): set<int>
    requires |markers| % 2 == 0
  {
    Seconds(Pairs(markers, |markers|))
  }

  /** The seconds of the lesson window at which both were present. */
  function CommonSeconds(window: Interval, pupil: seq<int>, tutor: seq<int>): set<int>
    requires |pupil| % 2 == 0 && |tutor| % 2 == 0
  {
    Span(window) * Present(pupil) * Present(tutor)
  }

  /** The common seconds are those both clipped lists cover. */
  lemma CommonFromClipped(window: Interval, pupil: seq<int>, tutor: seq<int>)
    requires |pupil| % 2 == 0 && |tutor| % 2 == 0
    ensures CommonSeconds(window, pupil, tutor) ==
            Seconds(Clipped(window, pupil, |pupil|)) * Seconds(Clipped(window, tutor, |tutor|))
  {
    ClippedSeconds(window, pupil, |pupil|);
    ClippedSeconds(window, tutor, |tutor|);
  }

  /** What `appearance` computes, stated without the pipeline: 0 for malformed
      input, the `ValueError` for a longer `lesson` list once a clip is
      attempted, and otherwise the number of whole seconds of the lesson at
      which both participants were present. */
  function AppearanceSpec(intervals: map<string, seq<int>>): Outcome {
    if !("pupil" in intervals && "tutor" in intervals && "lesson" in intervals) then
      Returned(0)
    else
      var lesson, pupil, tutor := intervals["lesson"], intervals["pupil"], intervals["tutor"];
      if |lesson| % 2 != 0 || |pupil| % 2 != 0 || |tutor| % 2 != 0 then
        Returned(0)
      else if |lesson| == 0 || lesson[0] == lesson[1] then
        Returned(0)
      else if |lesson| != 2 then
        if |pupil| == 0 && |tutor| == 0 then Returned(0) else UnpackError
      else
        Returned(|CommonSeconds(Interval(lesson[0], lesson[1]), pupil, tutor)|)
  }

  /** The inner loop of lines 84-85 for one pupil interval `p`, after it has
      consumed `ys[..k]`. */
  function RowOverlap(p: Interval, ys: seq<Interval>, k: nat): int
    requires k <= |ys|
  {
    if k == 0 then 0 else RowOverlap(p, ys, k - 1) + CountIntersectionSeconds(p, ys[k - 1])
  }

  /** The nested loops of lines 82-85 after the outer one has consumed
      `xs[..i]`: the pairwise overlap summed over the cross product. */
  function TotalOverlap(xs: seq<Interval>, ys: seq<Interval>, i: nat): int
    requires i <= |xs|
  {
    if i == 0 then 0 else TotalOverlap(xs, ys, i - 1) + RowOverlap(xs[i - 1], ys, |ys|)
  }

  /** Intersecting with a union of disjoint parts adds up part by part. */
  lemma SplitIntersection(a: set<int>, b: set<int>, c: set<int>)
    requires b * c == {}
    ensures |a * (b + c)| == |a * b| + |a * c|
  {
    assert a * (b + c) == a * b + a * c;
    assert (a * b) * (a * c) == {};
  }

  lemma DisjointUnionOverlap(before: set<int>, added: set<int>, other: set<int>)
    requires before * added == {}
    ensures |(before + added) * other| == |before * other| + |added * other|
  {
    assert (before + added) * other == before * other + added * other;
    assert (before * other) * (added * other) == {};
  }

  /** The seconds of a separated list lie before the start of its last
      interval, except those of the last interval itself. */
  lemma SecondsBeforeLast(ys: seq<Interval>)
    requires |ys| > 0 && AllValid(ys) && Separated(ys)
    ensures Seconds(ys[..|ys| - 1]) * Span(Last(ys)) == {}
  {
    var init := ys[..|ys| - 1];
    forall t | t in Seconds(init)
      ensures t < Last(ys).start
    {
      var x :| x in init && t in Span(x);
      var k :| 0 <= k < |init| && init[k] == x;
      SeparatedOrdered(ys, k, |ys| - 1);
    }
  }

  /** Growing a prefix of a separated list by one interval adds exactly that
      interval's seconds, none of which were there before. */
  lemma PrefixSeconds(ys: seq<Interval>, k: nat)
    requires AllValid(ys) && Separated(ys) && 0 < k <= |ys|
    ensures Seconds(ys[..k]) == Seconds(ys[..k - 1]) + Span(ys[k - 1])
    ensures Seconds(ys[..k - 1]) * Span(ys[k - 1]) == {}
  {
    var prefix := ys[..k];
    assert prefix == ys[..k - 1] + [ys[k - 1]];
    CoveredSnoc(ys[..k - 1], ys[k - 1]);
    assert prefix[..k - 1] == ys[..k - 1];
    SecondsBeforeLast(prefix);
  }

  /** One more tutor interval adds its seconds in common with `p`, which
      the earlier ones did not cover. */
  lemma RowStep(p: Interval, ys: seq<Interval>, k: nat)
    requires AllValid(ys) && Separated(ys) && 0 < k <= |ys|
    ensures |Span(p) * Seconds(ys[..k])|
         == |Span(p) * Seconds(ys[..k - 1])| + CountIntersectionSeconds(p, ys[k - 1])
  {
    CountIsCommonSeconds(p, ys[k - 1]);
    PrefixSeconds(ys, k);
    SplitIntersection(Span(p), Seconds(ys[..k - 1]), Span(ys[k - 1]));
  }

  lemma {:induction false} RowOverlapCounts(p: Interval, ys: seq<Interval>, k: nat)
    requires AllValid(ys) && Separated(ys) && k <= |ys|
    ensures RowOverlap(p, ys, k) == |Span(p) * Seconds(ys[..k])|
  {
    if k == 0 {
      assert Seconds(ys[..k]) == {};
    } else {
      RowOverlapCounts(p, ys, k - 1);
      RowStep(p, ys, k);
    }
  }

  /** One more pupil interval adds its seconds in common with the tutor's
      list, which the earlier ones did not cover. */
  lemma TotalStep(xs: seq<Interval>, ys: seq<Interval>, i: nat)
    requires AllValid(xs) && Separated(xs) && 0 < i <= |xs|
    requires AllValid(ys) && Separated(ys)
    ensures |Seconds(xs[..i]) * Seconds(ys)|
         == |Seconds(xs[..i - 1]) * Seconds(ys)| + RowOverlap(xs[i - 1], ys, |ys|)
  {
    RowOverlapCounts(xs[i - 1], ys, |ys|);
    assert ys[..|ys|] == ys;
    PrefixSeconds(xs, i);
    DisjointUnionOverlap(Seconds(xs[..i - 1]), Span(xs[i - 1]), Seconds(ys));
  }

  /** On merged (separated) lists the summed pairwise overlap is exactly the
      number of seconds the two lists have in common: nothing is counted
      twice. */
  lemma {:induction false} TotalOverlapCounts(xs: seq<Interval>, ys: seq<Interval>, i: nat)
    requires AllValid(xs) && Separated(xs) && i <= |xs|
    requires AllValid(ys) && Separated(ys)
    ensures TotalOverlap(xs, ys, i) == |Seconds(xs[..i]) * Seconds(ys)|
  {
    if i == 0 {
      assert Seconds(xs[..i]) == {};
    } else {
      TotalOverlapCounts(xs, ys, i - 1);
      TotalStep(xs, ys, i);
    }
  }

  /** `totalOverlap` is symmetric on merged lists. */
  lemma TotalOverlapSymmetric(xs: seq<Interval>, ys: seq<Interval>)
    requires AllValid(xs) && Separated(xs)
    requires AllValid(ys) && Separated(ys)
    ensures TotalOverlap(xs, ys, |xs|) == TotalOverlap(ys, xs, |ys|)
  {
    TotalOverlapCounts(xs, ys, |xs|);
    TotalOverlapCounts(ys, xs, |ys|);
    assert xs[..|xs|] == xs && ys[..|ys|] == ys;
    assert Seconds(xs) * Seconds(ys) == Seconds(ys) * Seconds(xs);
  }

  /** The pipeline is right: whatever merged lists cover the clipped pupil and
      tutor segments, their summed overlap is the number of common seconds. */
  lemma PipelineCounts(window: Interval, pupil: seq<int>, tutor: seq<int>,
                       mergedPupil: seq<Interval>, mergedTutor: seq<Interval>)
    requires |pupil| % 2 == 0 && |tutor| % 2 == 0
    requires AllValid(mergedPupil) && Separated(mergedPupil)
    requires AllValid(mergedTutor) && Separated(mergedTutor)
    requires Seconds(mergedPupil) == Seconds(Clipped(window, pupil, |pupil|))
    requires Seconds(mergedTutor) == Seconds(Clipped(window, tutor, |tutor|))
    ensures TotalOverlap(mergedPupil, mergedTutor, |mergedPupil|) == |CommonSeconds(window, pupil, tutor)|
  {
    TotalOverlapCounts(mergedPupil, mergedTutor, |mergedPupil|);
    assert mergedPupil[..|mergedPupil|] == mergedPupil;
    CommonFromClipped(window, pupil, tutor);
  }

  /** Lines 66-74: clips every pair of `markers` against the lesson. The
      `ValueError` of the unpacking is raised on the first clip when `lesson`
      is not a single pair. */
  method ClipMarkers(lesson: seq<int>, markers: seq<int>) returns (clipped: Option<seq<Interval>>)
    requires |lesson| >= 2 && |markers| % 2 == 0
    ensures clipped.None? <==> |lesson| != 2 && |markers| > 0
    ensures clipped.Some? ==> clipped.value == Clipped(Interval(lesson[0], lesson[1]), markers, |markers|)
  {
    var acc: seq<Interval> := [];
    var j := 0;
    while j < |markers|
      invariant 0 <= j <= |markers| && j % 2 == 0
      invariant j > 0 ==> |lesson| == 2
      invariant acc == Clipped(Interval(lesson[0], lesson[1]), markers, j)
    {
      if |lesson| != 2 {
        return None;
      }
      var hit := FindIntersection(Interval(lesson[0], lesson[1]), Interval(markers[j], markers[j + 1]));
      if hit.Some? {
        acc := acc + [hit.value];
      }
      j := j + 2;
    }
    return Some(acc);
  }

  /** Lines 82-85: the overlap of every pupil interval with every tutor
      interval, accumulated. */
  method SumOverlaps(xs: seq<Interval>, ys: seq<Interval>) returns (common: int)
    ensures common == TotalOverlap(xs, ys, |xs|)
  {
    common := 0;
    for i := 0 to |xs|
      invariant common == TotalOverlap(xs, ys, i)
    {
      for k := 0 to |ys|
        invariant common == TotalOverlap(xs, ys, i) + RowOverlap(xs[i], ys, k)
      {
        common := common + CountIntersectionSeconds(xs[i], ys[k]);
      }
    }
  }

  /** Copies a list into a fresh array, the list object `merge_intervals`
      sorts in place. */
  method ToArray(s: seq<Interval>) returns (a: array<Interval>)
    ensures fresh(a) && a[..] == s
  {
    a := new Interval[|s|](k requires 0 <= k < |s| => s[k]);
  }

  /** `appearance`, lines 50-87. */
  method Appearance(intervals: map<string, seq<int>>) returns (outcome: Outcome)
    ensures outcome == AppearanceSpec(intervals)
  {
    if !("pupil" in intervals && "tutor" in intervals && "lesson" in intervals) {
      return Returned(0);
    }
    var lesson, pupil, tutor := intervals["lesson"], intervals["pupil"], intervals["tutor"];
    if !(|lesson| % 2 == 0 && |pupil| % 2 == 0 && |tutor| % 2 == 0) {
      return Returned(0);
    }
    if |lesson| == 0 || lesson[0] - lesson[1] == 0 {
      return Returned(0);
    }
    var window := Interval(lesson[0], lesson[1]);

    var pupilClipped := ClipMarkers(lesson, pupil);
    if pupilClipped.None? {
      return UnpackError;
    }
    var tutorClipped := ClipMarkers(lesson, tutor);
    if tutorClipped.None? {
      return UnpackError;
    }
    var pupilSegments, tutorSegments := pupilClipped.value, tutorClipped.value;
    if |pupilSegments| == 0 || |tutorSegments| == 0 {
      assert Seconds(pupilSegments) == {} || Seconds(tutorSegments) == {};
      CommonFromClipped(window, pupil, tutor);
      return Returned(0);
    }

    var pupilArray := ToArray(pupilSegments);
    var tutorArray := ToArray(tutorSegments);
    var mergedPupil := MergeIntervals(pupilArray);
    var mergedTutor := MergeIntervals(tutorArray);

    var common := SumOverlaps(mergedPupil, mergedTutor);
    PipelineCounts(window, pupil, tutor, mergedPupil, mergedTutor);
    return Returned(common);
  }

  // ---------------------------------------------------------------------
  // Properties of `appearance`

  /** Every malformed input gives 0: a missing key, a marker list of odd
      length, an empty lesson list or a lesson whose two markers are equal. */
  lemma MalformedGivesZero(intervals: map<string, seq<int>>)
    requires || !("pupil" in intervals && "tutor" in intervals && "lesson" in intervals)
             || |intervals["lesson"]| % 2 != 0 || |intervals["pupil"]| % 2 != 0
             || |intervals["tutor"]| % 2 != 0
             || |intervals["lesson"]| == 0
             || intervals["lesson"][0] == intervals["lesson"][1]
    ensures AppearanceSpec(intervals) == Returned(0)
  {
  }

  /** Line 76: when no segment of one participant survives clipping, the
      answer is 0. */
  lemma NothingClippedGivesZero(intervals: map<string, seq<int>>)
    requires "pupil" in intervals && "tutor" in intervals && "lesson" in intervals
    requires var lesson, pupil, tutor := intervals["lesson"], intervals["pupil"], intervals["tutor"];
             |lesson| == 2 && |pupil| % 2 == 0 && |tutor| % 2 == 0 &&
             (Clipped(Interval(lesson[0], lesson[1]), pupil, |pupil|) == [] ||
              Clipped(Interval(lesson[0], lesson[1]), tutor, |tutor|) == [])
    ensures AppearanceSpec(intervals) == Returned(0)
  {
    var lesson, pupil, tutor := intervals["lesson"], intervals["pupil"], intervals["tutor"];
    var window := Interval(lesson[0], lesson[1]);
    var p, t := Clipped(window, pupil, |pupil|), Clipped(window, tutor, |tutor|);
    assert Seconds([]) == {};
    CommonFromClipped(window, pupil, tutor);
  }

  /** A reversed lesson window such as `[200, 100]` clips every segment away,
      so the answer is 0. */
  lemma ReversedLessonGivesZero(intervals: map<string, seq<int>>)
    requires "pupil" in intervals && "tutor" in intervals && "lesson" in intervals
    requires |intervals["lesson"]| == 2 && intervals["lesson"][0] > intervals["lesson"][1]
    ensures AppearanceSpec(intervals) == Returned(0)
  {
    var lesson := intervals["lesson"];
    assert Span(Interval(lesson[0], lesson[1])) == {};
  }

  lemma SubsetCardinality(a: set<int>, b: set<int>)
    requires a <= b
    ensures |a| <= |b|
  {
    assert b == a + (b - a);
  }

  /** The answer is never negative and never exceeds the lesson length, and
      it is 0 unless the lesson list is a single pair. */
  lemma AppearanceBounded(intervals: map<string, seq<int>>)
    ensures AppearanceSpec(intervals).Returned? ==> 0 <= AppearanceSpec(intervals).seconds
    ensures AppearanceSpec(intervals).Returned? && AppearanceSpec(intervals).seconds > 0 ==>
              "lesson" in intervals && |intervals["lesson"]| == 2 &&
              AppearanceSpec(intervals).seconds <= intervals["lesson"][1] - intervals["lesson"][0]
  {
    var r := AppearanceSpec(intervals);
    if r.Returned? && r.seconds > 0 {
      var lesson, pupil, tutor := intervals["lesson"], intervals["pupil"], intervals["tutor"];
      var window := Interval(lesson[0], lesson[1]);
      SubsetCardinality(CommonSeconds(window, pupil, tutor), Span(window));
      SpanCardinality(window);
    }
  }

  /** Swapping the pupil's and the tutor's logs does not change the answer. */
  lemma AppearanceSymmetric(intervals: map<string, seq<int>>)
    requires "pupil" in intervals && "tutor" in intervals
    ensures AppearanceSpec(intervals["pupil" := intervals["tutor"]]["tutor" := intervals["pupil"]])
         == AppearanceSpec(intervals)
  {
    var swapped := intervals["pupil" := intervals["tutor"]]["tutor" := intervals["pupil"]];
    if "lesson" in intervals {
      var lesson, pupil, tutor := intervals["lesson"], intervals["pupil"], intervals["tutor"];
      assert swapped["lesson"] == lesson && swapped["pupil"] == tutor && swapped["tutor"] == pupil;
      if |lesson| == 2 && |pupil| % 2 == 0 && |tutor| % 2 == 0 {
        var window := Interval(lesson[0], lesson[1]);
        assert CommonSeconds(window, tutor, pupil) == CommonSeconds(window, pupil, tutor);
      }
    }
  }

  /** `Pairs(markers, j)` reads only `markers[..j]`. */
  lemma {:induction false} PairsPrefix(m: seq<int>, n: seq<int>, j: nat)
    requires j <= |m| && j <= |n| && j % 2 == 0 && m[..j] == n[..j]
    ensures Pairs(m, j) == Pairs(n, j)
  {
    if j > 0 {
      assert m[..j - 2] == m[..j][..j - 2] && n[..j - 2] == n[..j][..j - 2];
      assert m[j - 2] == m[..j][j - 2] && m[j - 1] == m[..j][j - 1];
      assert n[j - 2] == n[..j][j - 2] && n[j - 1] == n[..j][j - 1];
      PairsPrefix(m, n, j - 2);
    }
  }

  lemma {:induction false} PairsAppend(u: seq<int>, v: seq<int>, j: nat)
    requires |u| % 2 == 0 && j <= |v| && j % 2 == 0
    ensures Pairs(u + v, |u| + j) == Pairs(u, |u|) + Pairs(v, j)
  {
    if j == 0 {
      assert (u + v)[..|u|] == u[..|u|];
      PairsPrefix(u + v, u, |u|);
    } else {
      PairsAppend(u, v, j - 2);
      assert (u + v)[|u| + j - 2] == v[j - 2] && (u + v)[|u| + j - 1] == v[j - 1];
      var before, segment := Pairs(u, |u|), Interval(v[j - 2], v[j - 1]);
      assert Pairs(u + v, |u| + j) == Pairs(u + v, |u| + j - 2) + [segment];
      assert Pairs(v, j) == Pairs(v, j - 2) + [segment];
      assert (before + Pairs(v, j - 2)) + [segment] == before + (Pairs(v, j - 2) + [segment]);
    }
  }

  /** Clipping reads a log pair by pair, so it depends only on the pairs
      consumed so far. */
  lemma {:induction false} ClippedPrefix(window: Interval, m: seq<int>, n: seq<int>, j: nat)
    requires j <= |m| && j <= |n| && j % 2 == 0 && m[..j] == n[..j]
    ensures Clipped(window, m, j) == Clipped(window, n, j)
  {
    if j > 0 {
      assert m[..j - 2] == m[..j][..j - 2] && n[..j - 2] == n[..j][..j - 2];
      assert m[j - 2] == m[..j][j - 2] && m[j - 1] == m[..j][j - 1];
      assert n[j - 2] == n[..j][j - 2] && n[j - 1] == n[..j][j - 1];
      ClippedPrefix(window, m, n, j - 2);
    }
  }

  /** Clipping two logs one after the other clips their concatenation. */
  lemma {:induction false} ClippedAppend(window: Interval, u: seq<int>, v: seq<int>, j: nat)
    requires |u| % 2 == 0 && j <= |v| && j % 2 == 0
    ensures Clipped(window, u + v, |u| + j) == Clipped(window, u, |u|) + Clipped(window, v, j)
  {
    if j == 0 {
      assert (u + v)[..|u|] == u[..|u|];
      ClippedPrefix(window, u + v, u, |u|);
    } else {
      ClippedAppend(window, u, v, j - 2);
      assert (u + v)[|u| + j - 2] == v[j - 2] && (u + v)[|u| + j - 1] == v[j - 1];
      var before, rest := Clipped(window, u, |u|), Clipped(window, v, j - 2);
      match FindIntersection(window, Interval(v[j - 2], v[j - 1]))
      case None =>
      case Some(c) =>
        assert (before + rest) + [c] == before + (rest + [c]);
    }
  }

  lemma SecondsAppend(s: seq<Interval>, t: seq<Interval>)
    ensures Seconds(s + t) == Seconds(s) + Seconds(t)
  {
    assert forall y :: y in s + t <==> y in s || y in t;
  }

  /** A segment inserted anywhere in a participant's log adds exactly its
      own seconds. */
  lemma PresentInsert(markers: seq<int>, j: int, a: int, b: int)
    requires |markers| % 2 == 0 && 0 <= j <= |markers| && j % 2 == 0
    ensures Present(markers[..j] + [a, b] + markers[j..])
         == Present(markers) + Span(Interval(a, b))
  {
    var u, v := markers[..j], markers[j..];
    var extended := markers[..j] + [a, b] + markers[j..];
    var seg := Interval(a, b);
    var before, after := Pairs(u, |u|), Pairs(v, |v|);
    assert Pairs(markers, |markers|) == before + after by {
      assert markers == u + v;
      PairsAppend(u, v, |v|);
    }
    assert Pairs(u + [a, b], |u| + 2) == before + [seg] by {
      PairsAppend(u, [a, b], 2);
      assert Pairs([a, b], 2) == [seg];
    }
    assert Pairs(extended, |extended|) == (before + [seg]) + after by {
      assert extended == (u + [a, b]) + v;
      PairsAppend(u + [a, b], v, |v|);
    }
    SecondsAppend(before, after);
    SecondsAppend(before + [seg], after);
    CoveredSnoc(before, seg);
  }

  /** A pupil segment with start > end, or one lying wholly outside the
      lesson, contributes nothing wherever it stands in the log. */
  lemma IgnoredPupilSegment(intervals: map<string, seq<int>>, j: int, a: int, b: int)
    requires "pupil" in intervals && "tutor" in intervals && "lesson" in intervals
    requires |intervals["lesson"]| == 2
    requires var pupil := intervals["pupil"]; |pupil| % 2 == 0 && 0 <= j <= |pupil| && j % 2 == 0
    requires var lesson := intervals["lesson"];
             a > b || b <= lesson[0] || lesson[1] <= a
    ensures var pupil := intervals["pupil"];
            AppearanceSpec(intervals["pupil" := pupil[..j] + [a, b] + pupil[j..]]) == AppearanceSpec(intervals)
  {
    var lesson, pupil, tutor := intervals["lesson"], intervals["pupil"], intervals["tutor"];
    var extended := pupil[..j] + [a, b] + pupil[j..];
    var changed := intervals["pupil" := extended];
    assert changed["lesson"] == lesson && changed["tutor"] == tutor && changed["pupil"] == extended;
    if |tutor| % 2 == 0 && lesson[0] != lesson[1] {
      var window := Interval(lesson[0], lesson[1]);
      PresentInsert(pupil, j, a, b);
      assert Span(window) * Span(Interval(a, b)) == {};
      assert Span(window) * Present(extended) == Span(window) * Present(pupil);
      assert CommonSeconds(window, extended, tutor) == CommonSeconds(window, pupil, tutor);
    }
  }

  /** The same for a tutor segment, by symmetry. */
  lemma IgnoredTutorSegment(intervals: map<string, seq<int>>, j: int, a: int, b: int)
    requires "pupil" in intervals && "tutor" in intervals && "lesson" in intervals
    requires |intervals["lesson"]| == 2
    requires var tutor := intervals["tutor"]; |tutor| % 2 == 0 && 0 <= j <= |tutor| && j % 2 == 0
    requires var lesson := intervals["lesson"];
             a > b || b <= lesson[0] || lesson[1] <= a
    ensures var tutor := intervals["tutor"];
            AppearanceSpec(intervals["tutor" := tutor[..j] + [a, b] + tutor[j..]]) == AppearanceSpec(intervals)
  {
    var pupil, tutor := intervals["pupil"], intervals["tutor"];
    var extended := tutor[..j] + [a, b] + tutor[j..];
    var changed := intervals["tutor" := extended];
    var swapped := intervals["pupil" := tutor]["tutor" := pupil];
    IgnoredPupilSegment(swapped, j, a, b);
    AppearanceSymmetric(intervals);
    AppearanceSymmetric(changed);
    assert changed["pupil" := extended]["tutor" := pupil] == swapped["pupil" := extended];
  }

  /** The bridge used by the concrete scenarios: when the clipped segments
      are already in start order, the answer is the summed overlap of their
      sweeps. */
  lemma AppearanceBySweep(intervals: map<string, seq<int>>)
    requires "pupil" in intervals && "tutor" in intervals && "lesson" in intervals
    requires var lesson, pupil, tutor := intervals["lesson"], intervals["pupil"], intervals["tutor"];
             |lesson| == 2 && lesson[0] != lesson[1] && |pupil| % 2 == 0 && |tutor| % 2 == 0 &&
             (var p := Clipped(Interval(lesson[0], lesson[1]), pupil, |pupil|);
              var t := Clipped(Interval(lesson[0], lesson[1]), tutor, |tutor|);
              |p| > 0 && SortedByStart(p) && |t| > 0 && SortedByStart(t))
    ensures var lesson, pupil, tutor := intervals["lesson"], intervals["pupil"], intervals["tutor"];
            var p := Clipped(Interval(lesson[0], lesson[1]), pupil, |pupil|);
            var t := Clipped(Interval(lesson[0], lesson[1]), tutor, |tutor|);
            AppearanceSpec(intervals) == Returned(TotalOverlap(Sweep(p, |p|), Sweep(t, |t|), |Sweep(p, |p|)|))
  {
    var lesson, pupil, tutor := intervals["lesson"], intervals["pupil"], intervals["tutor"];
    var window := Interval(lesson[0], lesson[1]);
    var p, t := Clipped(window, pupil, |pupil|), Clipped(window, tutor, |tutor|);
    SweepShape(p, |p|);
    SweepCoverage(p, |p|);
    SweepShape(t, |t|);
    SweepCoverage(t, |t|);
    assert p[..|p|] == p && t[..|t|] == t;
    PipelineCounts(window, pupil, tutor, Sweep(p, |p|), Sweep(t, |t|));
  }
}
