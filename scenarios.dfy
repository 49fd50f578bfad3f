/** The cases of the module's unittest suite, each stated as a lemma about
    `AppearanceSpec` on the same dictionary. Where both participants keep a
    segment, the clipped lists (long logs in pieces, through
    `ClippedAppend`), their merges (one sweep step at a time, through
    `SweepJoin` and `SweepAppend`) and the summed overlap are evaluated, and
    `ByEvaluation` turns that into the answer; the other cases follow from
    the properties proved in `Appearance`. */
module Scenarios {
  import opened Intervals
  import opened Merge
  import opened Appearance

  /** Starts never decrease from one interval to the next. */
  predicate StartsAscend(s: seq<Interval>) {
    forall k :: 0 < k < |s| ==> s[k - 1].start <= s[k].start
  }

  lemma {:induction false} AscendStep(s: seq<Interval>, i: int, j: int)
    requires StartsAscend(s) && 0 <= i < j < |s|
    ensures s[i].start <= s[j].start
    decreases j - i
  {
    if i + 1 < j {
      AscendStep(s, i, j - 1);
    }
  }

  /** What evaluating the pipeline on a dictionary gives: the lesson is one
      proper pair, `p` and `t` are the clipped lists, both non-empty and
      already in order of start, `mergedPupil` and `mergedTutor` their merges,
      and `expected` the summed overlap. */
  predicate Evaluated(lesson: seq<int>, pupil: seq<int>, tutor: seq<int>,
                      p: seq<Interval>, t: seq<Interval>,
                      mergedPupil: seq<Interval>, mergedTutor: seq<Interval>, expected: int)
  {
    && |lesson| == 2 && lesson[0] != lesson[1] && |pupil| % 2 == 0 && |tutor| % 2 == 0
    && Clipped(Interval(lesson[0], lesson[1]), pupil, |pupil|) == p
    && Clipped(Interval(lesson[0], lesson[1]), tutor, |tutor|) == t
    && |p| > 0 && StartsAscend(p) && Sweep(p, |p|) == mergedPupil
    && |t| > 0 && StartsAscend(t) && Sweep(t, |t|) == mergedTutor
    && TotalOverlap(mergedPupil, mergedTutor, |mergedPupil|) == expected
  }

  /** An evaluated pipeline gives the answer `appearance` promises. */
  lemma ByEvaluation(lesson: seq<int>, pupil: seq<int>, tutor: seq<int>,
                     p: seq<Interval>, t: seq<Interval>,
                     mergedPupil: seq<Interval>, mergedTutor: seq<Interval>, expected: int)
    requires Evaluated(lesson, pupil, tutor, p, t, mergedPupil, mergedTutor, expected)
    ensures AppearanceSpec(map["lesson" := lesson, "pupil" := pupil, "tutor" := tutor]) == Returned(expected)
    ensures expected == |CommonSeconds(Interval(lesson[0], lesson[1]), pupil, tutor)|
  {
    var intervals := map["lesson" := lesson, "pupil" := pupil, "tutor" := tutor];
    assert intervals["lesson"] == lesson && intervals["pupil"] == pupil && intervals["tutor"] == tutor;
    forall i, j | 0 <= i < j < |p|
      ensures p[i].start <= p[j].start
    {
      AscendStep(p, i, j);
    }
    forall i, j | 0 <= i < j < |t|
      ensures t[i].start <= t[j].start
    {
      AscendStep(t, i, j);
    }
    AppearanceBySweep(intervals);
  }

  lemma ProvidedExampleOnePupilClipped()
    ensures Clipped(Interval(1594663200, 1594666800), [1594663340, 1594663389, 1594663390, 1594663395, 1594663396, 1594666472], 6) == [Interval(1594663340, 1594663389), Interval(1594663390, 1594663395), Interval(1594663396, 1594666472)]
  {
    var markers := [1594663340, 1594663389, 1594663390, 1594663395, 1594663396, 1594666472];
    assert Clipped(Interval(1594663200, 1594666800), markers, 2) == [Interval(1594663340, 1594663389)];
    assert Clipped(Interval(1594663200, 1594666800), markers, 4) == [Interval(1594663340, 1594663389), Interval(1594663390, 1594663395)];
  }

  lemma ProvidedExampleOnePupilInOrder()
    ensures StartsAscend([Interval(1594663340, 1594663389), Interval(1594663390, 1594663395), Interval(1594663396, 1594666472)])
  {
  }

  /** The clipped list element by element: the sweep steps below hold for
      every list with these elements. */
  predicate ProvidedExampleOnePupilIs(s: seq<Interval>) {
    |s| == 3
    && s[0] == Interval(1594663340, 1594663389)
    && s[1] == Interval(1594663390, 1594663395)
    && s[2] == Interval(1594663396, 1594666472)
  }

  lemma ProvidedExampleOnePupilMergedTo2(s: seq<Interval>)
    requires ProvidedExampleOnePupilIs(s)
    ensures Sweep(s, 2) == [Interval(1594663340, 1594663389)] + [Interval(1594663390, 1594663395)]
  {
    SweepAppend(s, 2, [Interval(1594663340, 1594663389)]);
  }

  lemma ProvidedExampleOnePupilMergedTo3(s: seq<Interval>)
    requires ProvidedExampleOnePupilIs(s)
    ensures Sweep(s, 3) == [Interval(1594663340, 1594663389)] + [Interval(1594663390, 1594663395)] + [Interval(1594663396, 1594666472)]
  {
    ProvidedExampleOnePupilMergedTo2(s);
    SweepAppend(s, 3, [Interval(1594663340, 1594663389)] + [Interval(1594663390, 1594663395)]);
  }

  lemma ProvidedExampleOnePupilMerged()
    ensures Sweep([Interval(1594663340, 1594663389), Interval(1594663390, 1594663395), Interval(1594663396, 1594666472)], 3) == [Interval(1594663340, 1594663389), Interval(1594663390, 1594663395), Interval(1594663396, 1594666472)]
  {
    ProvidedExampleOnePupilMergedTo3([Interval(1594663340, 1594663389), Interval(1594663390, 1594663395), Interval(1594663396, 1594666472)]);
  }

  lemma ProvidedExampleOneTutorClipped()
    ensures Clipped(Interval(1594663200, 1594666800), [1594663290, 1594663430, 1594663443, 1594666473], 4) == [Interval(1594663290, 1594663430), Interval(1594663443, 1594666473)]
  {
  }

  lemma ProvidedExampleOneTutorInOrder()
    ensures StartsAscend([Interval(1594663290, 1594663430), Interval(1594663443, 1594666473)])
  {
  }

  lemma ProvidedExampleOneEvaluated()
    ensures Evaluated([1594663200, 1594666800], [1594663340, 1594663389, 1594663390, 1594663395, 1594663396, 1594666472], [1594663290, 1594663430, 1594663443, 1594666473],
                       [Interval(1594663340, 1594663389), Interval(1594663390, 1594663395), Interval(1594663396, 1594666472)], [Interval(1594663290, 1594663430), Interval(1594663443, 1594666473)],
                       [Interval(1594663340, 1594663389), Interval(1594663390, 1594663395), Interval(1594663396, 1594666472)], [Interval(1594663290, 1594663430), Interval(1594663443, 1594666473)], 3117)
  {
    ProvidedExampleOnePupilClipped();
    ProvidedExampleOnePupilInOrder();
    ProvidedExampleOnePupilMerged();
    ProvidedExampleOneTutorClipped();
    ProvidedExampleOneTutorInOrder();
  }

  /** First recorded lesson of `test_provided_examples`. */
  lemma ProvidedExampleOne()
    ensures AppearanceSpec(map["lesson" := [1594663200, 1594666800],
                             "pupil" := [1594663340, 1594663389, 1594663390, 1594663395, 1594663396, 1594666472],
                             "tutor" := [1594663290, 1594663430, 1594663443, 1594666473]]) == Returned(3117)
  {
    ProvidedExampleOneEvaluated();
    ByEvaluation([1594663200, 1594666800], [1594663340, 1594663389, 1594663390, 1594663395, 1594663396, 1594666472], [1594663290, 1594663430, 1594663443, 1594666473],
                 [Interval(1594663340, 1594663389), Interval(1594663390, 1594663395), Interval(1594663396, 1594666472)], [Interval(1594663290, 1594663430), Interval(1594663443, 1594666473)],
                 [Interval(1594663340, 1594663389), Interval(1594663390, 1594663395), Interval(1594663396, 1594666472)], [Interval(1594663290, 1594663430), Interval(1594663443, 1594666473)], 3117);
  }

  /** The log is the concatenation of its pieces of 4 markers. */
  lemma ProvidedExampleTwoPupilClippedPieces()
    ensures [1594702789, 1594704500, 1594702807, 1594704542] + [1594704512, 1594704513, 1594704564, 1594705150] + [1594704581, 1594704582, 1594704734, 1594705009] + [1594705095, 1594705096, 1594705106, 1594706480] + [1594705158, 1594705773, 1594705849, 1594706480] + [1594706500, 1594706875, 1594706502, 1594706503] + [1594706524, 1594706524, 1594706579, 1594706641] == [1594702789, 1594704500, 1594702807, 1594704542, 1594704512, 1594704513, 1594704564, 1594705150, 1594704581, 1594704582, 1594704734, 1594705009, 1594705095, 1594705096, 1594705106, 1594706480, 1594705158, 1594705773, 1594705849, 1594706480, 1594706500, 1594706875, 1594706502, 1594706503, 1594706524, 1594706524, 1594706579, 1594706641]
  {
    assert [1594702789, 1594704500, 1594702807, 1594704542] + [1594704512, 1594704513, 1594704564, 1594705150] == [1594702789, 1594704500, 1594702807, 1594704542, 1594704512, 1594704513, 1594704564, 1594705150];
    assert [1594702789, 1594704500, 1594702807, 1594704542] + [1594704512, 1594704513, 1594704564, 1594705150] + [1594704581, 1594704582, 1594704734, 1594705009] == [1594702789, 1594704500, 1594702807, 1594704542, 1594704512, 1594704513, 1594704564, 1594705150, 1594704581, 1594704582, 1594704734, 1594705009];
    assert [1594702789, 1594704500, 1594702807, 1594704542] + [1594704512, 1594704513, 1594704564, 1594705150] + [1594704581, 1594704582, 1594704734, 1594705009] + [1594705095, 1594705096, 1594705106, 1594706480] == [1594702789, 1594704500, 1594702807, 1594704542, 1594704512, 1594704513, 1594704564, 1594705150, 1594704581, 1594704582, 1594704734, 1594705009, 1594705095, 1594705096, 1594705106, 1594706480];
    assert [1594702789, 1594704500, 1594702807, 1594704542] + [1594704512, 1594704513, 1594704564, 1594705150] + [1594704581, 1594704582, 1594704734, 1594705009] + [1594705095, 1594705096, 1594705106, 1594706480] + [1594705158, 1594705773, 1594705849, 1594706480] == [1594702789, 1594704500, 1594702807, 1594704542, 1594704512, 1594704513, 1594704564, 1594705150, 1594704581, 1594704582, 1594704734, 1594705009, 1594705095, 1594705096, 1594705106, 1594706480, 1594705158, 1594705773, 1594705849, 1594706480];
    assert [1594702789, 1594704500, 1594702807, 1594704542] + [1594704512, 1594704513, 1594704564, 1594705150] + [1594704581, 1594704582, 1594704734, 1594705009] + [1594705095, 1594705096, 1594705106, 1594706480] + [1594705158, 1594705773, 1594705849, 1594706480] + [1594706500, 1594706875, 1594706502, 1594706503] == [1594702789, 1594704500, 1594702807, 1594704542, 1594704512, 1594704513, 1594704564, 1594705150, 1594704581, 1594704582, 1594704734, 1594705009, 1594705095, 1594705096, 1594705106, 1594706480, 1594705158, 1594705773, 1594705849, 1594706480, 1594706500, 1594706875, 1594706502, 1594706503];
  }

  lemma ProvidedExampleTwoPupilClippedUpTo4()
    ensures Clipped(Interval(1594702800, 1594706400), [1594702789, 1594704500, 1594702807, 1594704542], 4) == [Interval(1594702800, 1594704500), Interval(1594702807, 1594704542)]
  {
  }

  lemma ProvidedExampleTwoPupilClippedUpTo8()
    ensures Clipped(Interval(1594702800, 1594706400), [1594702789, 1594704500, 1594702807, 1594704542] + [1594704512, 1594704513, 1594704564, 1594705150], 8) == [Interval(1594702800, 1594704500), Interval(1594702807, 1594704542)] + [Interval(1594704512, 1594704513), Interval(1594704564, 1594705150)]
  {
    ProvidedExampleTwoPupilClippedUpTo4();
    ClippedAppend(Interval(1594702800, 1594706400), [1594702789, 1594704500, 1594702807, 1594704542], [1594704512, 1594704513, 1594704564, 1594705150], 4);
  }

  lemma ProvidedExampleTwoPupilClippedUpTo12()
    ensures Clipped(Interval(1594702800, 1594706400), [1594702789, 1594704500, 1594702807, 1594704542] + [1594704512, 1594704513, 1594704564, 1594705150] + [1594704581, 1594704582, 1594704734, 1594705009], 12) == [Interval(1594702800, 1594704500), Interval(1594702807, 1594704542)] + [Interval(1594704512, 1594704513), Interval(1594704564, 1594705150)] + [Interval(1594704581, 1594704582), Interval(1594704734, 1594705009)]
  {
    ProvidedExampleTwoPupilClippedUpTo8();
    ClippedAppend(Interval(1594702800, 1594706400), [1594702789, 1594704500, 1594702807, 1594704542] + [1594704512, 1594704513, 1594704564, 1594705150], [1594704581, 1594704582, 1594704734, 1594705009], 4);
  }

  lemma ProvidedExampleTwoPupilClippedUpTo16()
    ensures Clipped(Interval(1594702800, 1594706400), [1594702789, 1594704500, 1594702807, 1594704542] + [1594704512, 1594704513, 1594704564, 1594705150] + [1594704581, 1594704582, 1594704734, 1594705009] + [1594705095, 1594705096, 1594705106, 1594706480], 16) == [Interval(1594702800, 1594704500), Interval(1594702807, 1594704542)] + [Interval(1594704512, 1594704513), Interval(1594704564, 1594705150)] + [Interval(1594704581, 1594704582), Interval(1594704734, 1594705009)] + [Interval(1594705095, 1594705096), Interval(1594705106, 1594706400)]
  {
    ProvidedExampleTwoPupilClippedUpTo12();
    ClippedAppend(Interval(1594702800, 1594706400), [1594702789, 1594704500, 1594702807, 1594704542] + [1594704512, 1594704513, 1594704564, 1594705150] + [1594704581, 1594704582, 1594704734, 1594705009], [1594705095, 1594705096, 1594705106, 1594706480], 4);
  }

  lemma ProvidedExampleTwoPupilClippedUpTo20()
    ensures Clipped(Interval(1594702800, 1594706400), [1594702789, 1594704500, 1594702807, 1594704542] + [1594704512, 1594704513, 1594704564, 1594705150] + [1594704581, 1594704582, 1594704734, 1594705009] + [1594705095, 1594705096, 1594705106, 1594706480] + [1594705158, 1594705773, 1594705849, 1594706480], 20) == [Interval(1594702800, 1594704500), Interval(1594702807, 1594704542)] + [Interval(1594704512, 1594704513), Interval(1594704564, 1594705150)] + [Interval(1594704581, 1594704582), Interval(1594704734, 1594705009)] + [Interval(1594705095, 1594705096), Interval(1594705106, 1594706400)] + [Interval(1594705158, 1594705773), Interval(1594705849, 1594706400)]
  {
    ProvidedExampleTwoPupilClippedUpTo16();
    ClippedAppend(Interval(1594702800, 1594706400), [1594702789, 1594704500, 1594702807, 1594704542] + [1594704512, 1594704513, 1594704564, 1594705150] + [1594704581, 1594704582, 1594704734, 1594705009] + [1594705095, 1594705096, 1594705106, 1594706480], [1594705158, 1594705773, 1594705849, 1594706480], 4);
  }

  lemma ProvidedExampleTwoPupilClippedUpTo24()
    ensures Clipped(Interval(1594702800, 1594706400), [1594702789, 1594704500, 1594702807, 1594704542] + [1594704512, 1594704513, 1594704564, 1594705150] + [1594704581, 1594704582, 1594704734, 1594705009] + [1594705095, 1594705096, 1594705106, 1594706480] + [1594705158, 1594705773, 1594705849, 1594706480] + [1594706500, 1594706875, 1594706502, 1594706503], 24) == [Interval(1594702800, 1594704500), Interval(1594702807, 1594704542)] + [Interval(1594704512, 1594704513), Interval(1594704564, 1594705150)] + [Interval(1594704581, 1594704582), Interval(1594704734, 1594705009)] + [Interval(1594705095, 1594705096), Interval(1594705106, 1594706400)] + [Interval(1594705158, 1594705773), Interval(1594705849, 1594706400)] + []
  {
    ProvidedExampleTwoPupilClippedUpTo20();
    ClippedAppend(Interval(1594702800, 1594706400), [1594702789, 1594704500, 1594702807, 1594704542] + [1594704512, 1594704513, 1594704564, 1594705150] + [1594704581, 1594704582, 1594704734, 1594705009] + [1594705095, 1594705096, 1594705106, 1594706480] + [1594705158, 1594705773, 1594705849, 1594706480], [1594706500, 1594706875, 1594706502, 1594706503], 4);
  }

  lemma ProvidedExampleTwoPupilClippedUpTo28()
    ensures Clipped(Interval(1594702800, 1594706400), [1594702789, 1594704500, 1594702807, 1594704542] + [1594704512, 1594704513, 1594704564, 1594705150] + [1594704581, 1594704582, 1594704734, 1594705009] + [1594705095, 1594705096, 1594705106, 1594706480] + [1594705158, 1594705773, 1594705849, 1594706480] + [1594706500, 1594706875, 1594706502, 1594706503] + [1594706524, 1594706524, 1594706579, 1594706641], 28) == [Interval(1594702800, 1594704500), Interval(1594702807, 1594704542)] + [Interval(1594704512, 1594704513), Interval(1594704564, 1594705150)] + [Interval(1594704581, 1594704582), Interval(1594704734, 1594705009)] + [Interval(1594705095, 1594705096), Interval(1594705106, 1594706400)] + [Interval(1594705158, 1594705773), Interval(1594705849, 1594706400)] + [] + []
  {
    ProvidedExampleTwoPupilClippedUpTo24();
    ClippedAppend(Interval(1594702800, 1594706400), [1594702789, 1594704500, 1594702807, 1594704542] + [1594704512, 1594704513, 1594704564, 1594705150] + [1594704581, 1594704582, 1594704734, 1594705009] + [1594705095, 1594705096, 1594705106, 1594706480] + [1594705158, 1594705773, 1594705849, 1594706480] + [1594706500, 1594706875, 1594706502, 1594706503], [1594706524, 1594706524, 1594706579, 1594706641], 4);
  }

  lemma ProvidedExampleTwoPupilClippedJoined()
    ensures [Interval(1594702800, 1594704500), Interval(1594702807, 1594704542)] + [Interval(1594704512, 1594704513), Interval(1594704564, 1594705150)] + [Interval(1594704581, 1594704582), Interval(1594704734, 1594705009)] + [Interval(1594705095, 1594705096), Interval(1594705106, 1594706400)] + [Interval(1594705158, 1594705773), Interval(1594705849, 1594706400)] + [] + [] == [Interval(1594702800, 1594704500), Interval(1594702807, 1594704542), Interval(1594704512, 1594704513), Interval(1594704564, 1594705150), Interval(1594704581, 1594704582), Interval(1594704734, 1594705009), Interval(1594705095, 1594705096), Interval(1594705106, 1594706400), Interval(1594705158, 1594705773), Interval(1594705849, 1594706400)]
  {
  }

  lemma ProvidedExampleTwoPupilClipped()
    ensures Clipped(Interval(1594702800, 1594706400), [1594702789, 1594704500, 1594702807, 1594704542, 1594704512, 1594704513, 1594704564, 1594705150, 1594704581, 1594704582, 1594704734, 1594705009, 1594705095, 1594705096, 1594705106, 1594706480, 1594705158, 1594705773, 1594705849, 1594706480, 1594706500, 1594706875, 1594706502, 1594706503, 1594706524, 1594706524, 1594706579, 1594706641], 28) == [Interval(1594702800, 1594704500), Interval(1594702807, 1594704542), Interval(1594704512, 1594704513), Interval(1594704564, 1594705150), Interval(1594704581, 1594704582), Interval(1594704734, 1594705009), Interval(1594705095, 1594705096), Interval(1594705106, 1594706400), Interval(1594705158, 1594705773), Interval(1594705849, 1594706400)]
  {
    ProvidedExampleTwoPupilClippedPieces();
    ProvidedExampleTwoPupilClippedUpTo28();
    ProvidedExampleTwoPupilClippedJoined();
  }

  lemma ProvidedExampleTwoPupilInOrder()
    ensures StartsAscend([Interval(1594702800, 1594704500), Interval(1594702807, 1594704542), Interval(1594704512, 1594704513), Interval(1594704564, 1594705150), Interval(1594704581, 1594704582), Interval(1594704734, 1594705009), Interval(1594705095, 1594705096), Interval(1594705106, 1594706400), Interval(1594705158, 1594705773), Interval(1594705849, 1594706400)])
  {
  }

  /** The clipped list element by element: the sweep steps below hold for
      every list with these elements. */
  predicate ProvidedExampleTwoPupilIs(s: seq<Interval>) {
    |s| == 10
    && s[0] == Interval(1594702800, 1594704500)
    && s[1] == Interval(1594702807, 1594704542)
    && s[2] == Interval(1594704512, 1594704513)
    && s[3] == Interval(1594704564, 1594705150)
    && s[4] == Interval(1594704581, 1594704582)
    && s[5] == Interval(1594704734, 1594705009)
    && s[6] == Interval(1594705095, 1594705096)
    && s[7] == Interval(1594705106, 1594706400)
    && s[8] == Interval(1594705158, 1594705773)
    && s[9] == Interval(1594705849, 1594706400)
  }

  lemma ProvidedExampleTwoPupilMergedTo2(s: seq<Interval>)
    requires ProvidedExampleTwoPupilIs(s)
    ensures Sweep(s, 2) == [Interval(1594702800, 1594704542)]
  {
    SweepJoin(s, 2, [], Interval(1594702800, 1594704500));
  }

  lemma ProvidedExampleTwoPupilMergedTo3(s: seq<Interval>)
    requires ProvidedExampleTwoPupilIs(s)
    ensures Sweep(s, 3) == [Interval(1594702800, 1594704542)]
  {
    ProvidedExampleTwoPupilMergedTo2(s);
    SweepJoin(s, 3, [], Interval(1594702800, 1594704542));
  }

  lemma ProvidedExampleTwoPupilMergedTo4(s: seq<Interval>)
    requires ProvidedExampleTwoPupilIs(s)
    ensures Sweep(s, 4) == [Interval(1594702800, 1594704542)] + [Interval(1594704564, 1594705150)]
  {
    ProvidedExampleTwoPupilMergedTo3(s);
    SweepAppend(s, 4, [Interval(1594702800, 1594704542)]);
  }

  lemma ProvidedExampleTwoPupilMergedTo5(s: seq<Interval>)
    requires ProvidedExampleTwoPupilIs(s)
    ensures Sweep(s, 5) == [Interval(1594702800, 1594704542)] + [Interval(1594704564, 1594705150)]
  {
    ProvidedExampleTwoPupilMergedTo4(s);
    SweepJoin(s, 5, [Interval(1594702800, 1594704542)], Interval(1594704564, 1594705150));
  }

  lemma ProvidedExampleTwoPupilMergedTo6(s: seq<Interval>)
    requires ProvidedExampleTwoPupilIs(s)
    ensures Sweep(s, 6) == [Interval(1594702800, 1594704542)] + [Interval(1594704564, 1594705150)]
  {
    ProvidedExampleTwoPupilMergedTo5(s);
    SweepJoin(s, 6, [Interval(1594702800, 1594704542)], Interval(1594704564, 1594705150));
  }

  lemma ProvidedExampleTwoPupilMergedTo7(s: seq<Interval>)
    requires ProvidedExampleTwoPupilIs(s)
    ensures Sweep(s, 7) == [Interval(1594702800, 1594704542)] + [Interval(1594704564, 1594705150)]
  {
    ProvidedExampleTwoPupilMergedTo6(s);
    SweepJoin(s, 7, [Interval(1594702800, 1594704542)], Interval(1594704564, 1594705150));
  }

  lemma ProvidedExampleTwoPupilMergedTo8(s: seq<Interval>)
    requires ProvidedExampleTwoPupilIs(s)
    ensures Sweep(s, 8) == [Interval(1594702800, 1594704542)] + [Interval(1594704564, 1594706400)]
  {
    ProvidedExampleTwoPupilMergedTo7(s);
    SweepJoin(s, 8, [Interval(1594702800, 1594704542)], Interval(1594704564, 1594705150));
  }

  lemma ProvidedExampleTwoPupilMergedTo9(s: seq<Interval>)
    requires ProvidedExampleTwoPupilIs(s)
    ensures Sweep(s, 9) == [Interval(1594702800, 1594704542)] + [Interval(1594704564, 1594706400)]
  {
    ProvidedExampleTwoPupilMergedTo8(s);
    SweepJoin(s, 9, [Interval(1594702800, 1594704542)], Interval(1594704564, 1594706400));
  }

  lemma ProvidedExampleTwoPupilMergedTo10(s: seq<Interval>)
    requires ProvidedExampleTwoPupilIs(s)
    ensures Sweep(s, 10) == [Interval(1594702800, 1594704542)] + [Interval(1594704564, 1594706400)]
  {
    ProvidedExampleTwoPupilMergedTo9(s);
    SweepJoin(s, 10, [Interval(1594702800, 1594704542)], Interval(1594704564, 1594706400));
  }

  lemma ProvidedExampleTwoPupilMerged()
    ensures Sweep([Interval(1594702800, 1594704500), Interval(1594702807, 1594704542), Interval(1594704512, 1594704513), Interval(1594704564, 1594705150), Interval(1594704581, 1594704582), Interval(1594704734, 1594705009), Interval(1594705095, 1594705096), Interval(1594705106, 1594706400), Interval(1594705158, 1594705773), Interval(1594705849, 1594706400)], 10) == [Interval(1594702800, 1594704542), Interval(1594704564, 1594706400)]
  {
    ProvidedExampleTwoPupilMergedTo10([Interval(1594702800, 1594704500), Interval(1594702807, 1594704542), Interval(1594704512, 1594704513), Interval(1594704564, 1594705150), Interval(1594704581, 1594704582), Interval(1594704734, 1594705009), Interval(1594705095, 1594705096), Interval(1594705106, 1594706400), Interval(1594705158, 1594705773), Interval(1594705849, 1594706400)]);
  }

  lemma ProvidedExampleTwoTutorClipped()
    ensures Clipped(Interval(1594702800, 1594706400), [1594700035, 1594700364, 1594702749, 1594705148, 1594705149, 1594706463], 6) == [Interval(1594702800, 1594705148), Interval(1594705149, 1594706400)]
  {
    var markers := [1594700035, 1594700364, 1594702749, 1594705148, 1594705149, 1594706463];
    assert Clipped(Interval(1594702800, 1594706400), markers, 2) == [];
    assert Clipped(Interval(1594702800, 1594706400), markers, 4) == [Interval(1594702800, 1594705148)];
  }

  lemma ProvidedExampleTwoTutorInOrder()
    ensures StartsAscend([Interval(1594702800, 1594705148), Interval(1594705149, 1594706400)])
  {
  }

  lemma ProvidedExampleTwoEvaluated()
    ensures Evaluated([1594702800, 1594706400], [1594702789, 1594704500, 1594702807, 1594704542, 1594704512, 1594704513, 1594704564, 1594705150, 1594704581, 1594704582, 1594704734, 1594705009, 1594705095, 1594705096, 1594705106, 1594706480, 1594705158, 1594705773, 1594705849, 1594706480, 1594706500, 1594706875, 1594706502, 1594706503, 1594706524, 1594706524, 1594706579, 1594706641], [1594700035, 1594700364, 1594702749, 1594705148, 1594705149, 1594706463],
                       [Interval(1594702800, 1594704500), Interval(1594702807, 1594704542), Interval(1594704512, 1594704513), Interval(1594704564, 1594705150), Interval(1594704581, 1594704582), Interval(1594704734, 1594705009), Interval(1594705095, 1594705096), Interval(1594705106, 1594706400), Interval(1594705158, 1594705773), Interval(1594705849, 1594706400)], [Interval(1594702800, 1594705148), Interval(1594705149, 1594706400)],
                       [Interval(1594702800, 1594704542), Interval(1594704564, 1594706400)], [Interval(1594702800, 1594705148), Interval(1594705149, 1594706400)], 3577)
  {
    ProvidedExampleTwoPupilClipped();
    ProvidedExampleTwoPupilInOrder();
    ProvidedExampleTwoPupilMerged();
    ProvidedExampleTwoTutorClipped();
    ProvidedExampleTwoTutorInOrder();
  }

  /** Second recorded lesson: overlapping, nested, out-of-lesson and zero-length pupil segments. */
  lemma ProvidedExampleTwo()
    ensures AppearanceSpec(map["lesson" := [1594702800, 1594706400],
                             "pupil" := [1594702789, 1594704500, 1594702807, 1594704542, 1594704512, 1594704513, 1594704564, 1594705150, 1594704581, 1594704582, 1594704734, 1594705009, 1594705095, 1594705096, 1594705106, 1594706480, 1594705158, 1594705773, 1594705849, 1594706480, 1594706500, 1594706875, 1594706502, 1594706503, 1594706524, 1594706524, 1594706579, 1594706641],
                             "tutor" := [1594700035, 1594700364, 1594702749, 1594705148, 1594705149, 1594706463]]) == Returned(3577)
  {
    ProvidedExampleTwoEvaluated();
    ByEvaluation([1594702800, 1594706400], [1594702789, 1594704500, 1594702807, 1594704542, 1594704512, 1594704513, 1594704564, 1594705150, 1594704581, 1594704582, 1594704734, 1594705009, 1594705095, 1594705096, 1594705106, 1594706480, 1594705158, 1594705773, 1594705849, 1594706480, 1594706500, 1594706875, 1594706502, 1594706503, 1594706524, 1594706524, 1594706579, 1594706641], [1594700035, 1594700364, 1594702749, 1594705148, 1594705149, 1594706463],
                 [Interval(1594702800, 1594704500), Interval(1594702807, 1594704542), Interval(1594704512, 1594704513), Interval(1594704564, 1594705150), Interval(1594704581, 1594704582), Interval(1594704734, 1594705009), Interval(1594705095, 1594705096), Interval(1594705106, 1594706400), Interval(1594705158, 1594705773), Interval(1594705849, 1594706400)], [Interval(1594702800, 1594705148), Interval(1594705149, 1594706400)],
                 [Interval(1594702800, 1594704542), Interval(1594704564, 1594706400)], [Interval(1594702800, 1594705148), Interval(1594705149, 1594706400)], 3577);
  }

  lemma ProvidedExampleThreeTutorClipped()
    ensures Clipped(Interval(1594692000, 1594695600), [1594692017, 1594692066, 1594692068, 1594696341], 4) == [Interval(1594692017, 1594692066), Interval(1594692068, 1594695600)]
  {
  }

  lemma ProvidedExampleThreeTutorInOrder()
    ensures StartsAscend([Interval(1594692017, 1594692066), Interval(1594692068, 1594695600)])
  {
  }

  lemma ProvidedExampleThreeEvaluated()
    ensures Evaluated([1594692000, 1594695600], [1594692033, 1594696347], [1594692017, 1594692066, 1594692068, 1594696341],
                       [Interval(1594692033, 1594695600)], [Interval(1594692017, 1594692066), Interval(1594692068, 1594695600)],
                       [Interval(1594692033, 1594695600)], [Interval(1594692017, 1594692066), Interval(1594692068, 1594695600)], 3565)
  {
    ProvidedExampleThreeTutorClipped();
    ProvidedExampleThreeTutorInOrder();
  }

  /** Third recorded lesson. */
  lemma ProvidedExampleThree()
    ensures AppearanceSpec(map["lesson" := [1594692000, 1594695600],
                             "pupil" := [1594692033, 1594696347],
                             "tutor" := [1594692017, 1594692066, 1594692068, 1594696341]]) == Returned(3565)
  {
    ProvidedExampleThreeEvaluated();
    ByEvaluation([1594692000, 1594695600], [1594692033, 1594696347], [1594692017, 1594692066, 1594692068, 1594696341],
                 [Interval(1594692033, 1594695600)], [Interval(1594692017, 1594692066), Interval(1594692068, 1594695600)],
                 [Interval(1594692033, 1594695600)], [Interval(1594692017, 1594692066), Interval(1594692068, 1594695600)], 3565);
  }

  lemma NoOverlapEvaluated()
    ensures Evaluated([0, 1000], [100, 200], [300, 400],
                       [Interval(100, 200)], [Interval(300, 400)],
                       [Interval(100, 200)], [Interval(300, 400)], 0)
  {
  }

  /** `test_no_overlap_between_pupil_and_tutor`. */
  lemma NoOverlap()
    ensures AppearanceSpec(map["lesson" := [0, 1000],
                             "pupil" := [100, 200],
                             "tutor" := [300, 400]]) == Returned(0)
  {
    NoOverlapEvaluated();
    ByEvaluation([0, 1000], [100, 200], [300, 400],
                 [Interval(100, 200)], [Interval(300, 400)],
                 [Interval(100, 200)], [Interval(300, 400)], 0);
  }

  lemma FullOverlapEvaluated()
    ensures Evaluated([0, 100], [0, 100], [0, 100],
                       [Interval(0, 100)], [Interval(0, 100)],
                       [Interval(0, 100)], [Interval(0, 100)], 100)
  {
  }

  /** `test_full_overlap_pupil_tutor_lesson`. */
  lemma FullOverlap()
    ensures AppearanceSpec(map["lesson" := [0, 100],
                             "pupil" := [0, 100],
                             "tutor" := [0, 100]]) == Returned(100)
  {
    FullOverlapEvaluated();
    ByEvaluation([0, 100], [0, 100], [0, 100],
                 [Interval(0, 100)], [Interval(0, 100)],
                 [Interval(0, 100)], [Interval(0, 100)], 100);
  }

  lemma PartialOverlapEvaluated()
    ensures Evaluated([0, 100], [10, 50], [30, 70],
                       [Interval(10, 50)], [Interval(30, 70)],
                       [Interval(10, 50)], [Interval(30, 70)], 20)
  {
  }

  /** `test_partial_overlap`. */
  lemma PartialOverlap()
    ensures AppearanceSpec(map["lesson" := [0, 100],
                             "pupil" := [10, 50],
                             "tutor" := [30, 70]]) == Returned(20)
  {
    PartialOverlapEvaluated();
    ByEvaluation([0, 100], [10, 50], [30, 70],
                 [Interval(10, 50)], [Interval(30, 70)],
                 [Interval(10, 50)], [Interval(30, 70)], 20);
  }

  lemma ClippingByLessonEvaluated()
    ensures Evaluated([100, 200], [50, 150], [120, 250],
                       [Interval(100, 150)], [Interval(120, 200)],
                       [Interval(100, 150)], [Interval(120, 200)], 30)
  {
  }

  /** `test_intervals_clipping_by_lesson`. */
  lemma ClippingByLesson()
    ensures AppearanceSpec(map["lesson" := [100, 200],
                             "pupil" := [50, 150],
                             "tutor" := [120, 250]]) == Returned(30)
  {
    ClippingByLessonEvaluated();
    ByEvaluation([100, 200], [50, 150], [120, 250],
                 [Interval(100, 150)], [Interval(120, 200)],
                 [Interval(100, 150)], [Interval(120, 200)], 30);
  }

  lemma PupilSegmentsPupilClipped()
    ensures Clipped(Interval(0, 1000), [10, 20, 50, 60, 90, 110], 6) == [Interval(10, 20), Interval(50, 60), Interval(90, 110)]
  {
    var markers := [10, 20, 50, 60, 90, 110];
    assert Clipped(Interval(0, 1000), markers, 2) == [Interval(10, 20)];
    assert Clipped(Interval(0, 1000), markers, 4) == [Interval(10, 20), Interval(50, 60)];
  }

  lemma PupilSegmentsPupilInOrder()
    ensures StartsAscend([Interval(10, 20), Interval(50, 60), Interval(90, 110)])
  {
  }

  /** The clipped list element by element: the sweep steps below hold for
      every list with these elements. */
  predicate PupilSegmentsPupilIs(s: seq<Interval>) {
    |s| == 3
    && s[0] == Interval(10, 20)
    && s[1] == Interval(50, 60)
    && s[2] == Interval(90, 110)
  }

  lemma PupilSegmentsPupilMergedTo2(s: seq<Interval>)
    requires PupilSegmentsPupilIs(s)
    ensures Sweep(s, 2) == [Interval(10, 20)] + [Interval(50, 60)]
  {
    SweepAppend(s, 2, [Interval(10, 20)]);
  }

  lemma PupilSegmentsPupilMergedTo3(s: seq<Interval>)
    requires PupilSegmentsPupilIs(s)
    ensures Sweep(s, 3) == [Interval(10, 20)] + [Interval(50, 60)] + [Interval(90, 110)]
  {
    PupilSegmentsPupilMergedTo2(s);
    SweepAppend(s, 3, [Interval(10, 20)] + [Interval(50, 60)]);
  }

  lemma PupilSegmentsPupilMerged()
    ensures Sweep([Interval(10, 20), Interval(50, 60), Interval(90, 110)], 3) == [Interval(10, 20), Interval(50, 60), Interval(90, 110)]
  {
    PupilSegmentsPupilMergedTo3([Interval(10, 20), Interval(50, 60), Interval(90, 110)]);
  }

  lemma PupilSegmentsEvaluated()
    ensures Evaluated([0, 1000], [10, 20, 50, 60, 90, 110], [0, 100],
                       [Interval(10, 20), Interval(50, 60), Interval(90, 110)], [Interval(0, 100)],
                       [Interval(10, 20), Interval(50, 60), Interval(90, 110)], [Interval(0, 100)], 30)
  {
    PupilSegmentsPupilClipped();
    PupilSegmentsPupilInOrder();
    PupilSegmentsPupilMerged();
  }

  /** `test_pupil_multiple_segments_tutor_one_segment`. */
  lemma PupilSegments()
    ensures AppearanceSpec(map["lesson" := [0, 1000],
                             "pupil" := [10, 20, 50, 60, 90, 110],
                             "tutor" := [0, 100]]) == Returned(30)
  {
    PupilSegmentsEvaluated();
    ByEvaluation([0, 1000], [10, 20, 50, 60, 90, 110], [0, 100],
                 [Interval(10, 20), Interval(50, 60), Interval(90, 110)], [Interval(0, 100)],
                 [Interval(10, 20), Interval(50, 60), Interval(90, 110)], [Interval(0, 100)], 30);
  }

  lemma TutorSegmentsTutorClipped()
    ensures Clipped(Interval(0, 1000), [10, 20, 50, 60, 90, 110], 6) == [Interval(10, 20), Interval(50, 60), Interval(90, 110)]
  {
    var markers := [10, 20, 50, 60, 90, 110];
    assert Clipped(Interval(0, 1000), markers, 2) == [Interval(10, 20)];
    assert Clipped(Interval(0, 1000), markers, 4) == [Interval(10, 20), Interval(50, 60)];
  }

  lemma TutorSegmentsTutorInOrder()
    ensures StartsAscend([Interval(10, 20), Interval(50, 60), Interval(90, 110)])
  {
  }

  /** The clipped list element by element: the sweep steps below hold for
      every list with these elements. */
  predicate TutorSegmentsTutorIs(s: seq<Interval>) {
    |s| == 3
    && s[0] == Interval(10, 20)
    && s[1] == Interval(50, 60)
    && s[2] == Interval(90, 110)
  }

  lemma TutorSegmentsTutorMergedTo2(s: seq<Interval>)
    requires TutorSegmentsTutorIs(s)
    ensures Sweep(s, 2) == [Interval(10, 20)] + [Interval(50, 60)]
  {
    SweepAppend(s, 2, [Interval(10, 20)]);
  }

  lemma TutorSegmentsTutorMergedTo3(s: seq<Interval>)
    requires TutorSegmentsTutorIs(s)
    ensures Sweep(s, 3) == [Interval(10, 20)] + [Interval(50, 60)] + [Interval(90, 110)]
  {
    TutorSegmentsTutorMergedTo2(s);
    SweepAppend(s, 3, [Interval(10, 20)] + [Interval(50, 60)]);
  }

  lemma TutorSegmentsTutorMerged()
    ensures Sweep([Interval(10, 20), Interval(50, 60), Interval(90, 110)], 3) == [Interval(10, 20), Interval(50, 60), Interval(90, 110)]
  {
    TutorSegmentsTutorMergedTo3([Interval(10, 20), Interval(50, 60), Interval(90, 110)]);
  }

  lemma TutorSegmentsEvaluated()
    ensures Evaluated([0, 1000], [0, 100], [10, 20, 50, 60, 90, 110],
                       [Interval(0, 100)], [Interval(10, 20), Interval(50, 60), Interval(90, 110)],
                       [Interval(0, 100)], [Interval(10, 20), Interval(50, 60), Interval(90, 110)], 30)
  {
    TutorSegmentsTutorClipped();
    TutorSegmentsTutorInOrder();
    TutorSegmentsTutorMerged();
  }

  /** `test_tutor_multiple_segments_pupil_one_segment`. */
  lemma TutorSegments()
    ensures AppearanceSpec(map["lesson" := [0, 1000],
                             "pupil" := [0, 100],
                             "tutor" := [10, 20, 50, 60, 90, 110]]) == Returned(30)
  {
    TutorSegmentsEvaluated();
    ByEvaluation([0, 1000], [0, 100], [10, 20, 50, 60, 90, 110],
                 [Interval(0, 100)], [Interval(10, 20), Interval(50, 60), Interval(90, 110)],
                 [Interval(0, 100)], [Interval(10, 20), Interval(50, 60), Interval(90, 110)], 30);
  }

  lemma ComplexOverlapPupilClipped()
    ensures Clipped(Interval(0, 200), [0, 50, 70, 120, 150, 180], 6) == [Interval(0, 50), Interval(70, 120), Interval(150, 180)]
  {
    var markers := [0, 50, 70, 120, 150, 180];
    assert Clipped(Interval(0, 200), markers, 2) == [Interval(0, 50)];
    assert Clipped(Interval(0, 200), markers, 4) == [Interval(0, 50), Interval(70, 120)];
  }

  lemma ComplexOverlapPupilInOrder()
    ensures StartsAscend([Interval(0, 50), Interval(70, 120), Interval(150, 180)])
  {
  }

  /** The clipped list element by element: the sweep steps below hold for
      every list with these elements. */
  predicate ComplexOverlapPupilIs(s: seq<Interval>) {
    |s| == 3
    && s[0] == Interval(0, 50)
    && s[1] == Interval(70, 120)
    && s[2] == Interval(150, 180)
  }

  lemma ComplexOverlapPupilMergedTo2(s: seq<Interval>)
    requires ComplexOverlapPupilIs(s)
    ensures Sweep(s, 2) == [Interval(0, 50)] + [Interval(70, 120)]
  {
    SweepAppend(s, 2, [Interval(0, 50)]);
  }

  lemma ComplexOverlapPupilMergedTo3(s: seq<Interval>)
    requires ComplexOverlapPupilIs(s)
    ensures Sweep(s, 3) == [Interval(0, 50)] + [Interval(70, 120)] + [Interval(150, 180)]
  {
    ComplexOverlapPupilMergedTo2(s);
    SweepAppend(s, 3, [Interval(0, 50)] + [Interval(70, 120)]);
  }

  lemma ComplexOverlapPupilMerged()
    ensures Sweep([Interval(0, 50), Interval(70, 120), Interval(150, 180)], 3) == [Interval(0, 50), Interval(70, 120), Interval(150, 180)]
  {
    ComplexOverlapPupilMergedTo3([Interval(0, 50), Interval(70, 120), Interval(150, 180)]);
  }

  lemma ComplexOverlapTutorClipped()
    ensures Clipped(Interval(0, 200), [30, 80, 100, 160], 4) == [Interval(30, 80), Interval(100, 160)]
  {
  }

  lemma ComplexOverlapTutorInOrder()
    ensures StartsAscend([Interval(30, 80), Interval(100, 160)])
  {
  }

  lemma ComplexOverlapEvaluated()
    ensures Evaluated([0, 200], [0, 50, 70, 120, 150, 180], [30, 80, 100, 160],
                       [Interval(0, 50), Interval(70, 120), Interval(150, 180)], [Interval(30, 80), Interval(100, 160)],
                       [Interval(0, 50), Interval(70, 120), Interval(150, 180)], [Interval(30, 80), Interval(100, 160)], 60)
  {
    ComplexOverlapPupilClipped();
    ComplexOverlapPupilInOrder();
    ComplexOverlapPupilMerged();
    ComplexOverlapTutorClipped();
    ComplexOverlapTutorInOrder();
  }

  /** `test_both_multiple_segments_complex_overlap`. */
  lemma ComplexOverlap()
    ensures AppearanceSpec(map["lesson" := [0, 200],
                             "pupil" := [0, 50, 70, 120, 150, 180],
                             "tutor" := [30, 80, 100, 160]]) == Returned(60)
  {
    ComplexOverlapEvaluated();
    ByEvaluation([0, 200], [0, 50, 70, 120, 150, 180], [30, 80, 100, 160],
                 [Interval(0, 50), Interval(70, 120), Interval(150, 180)], [Interval(30, 80), Interval(100, 160)],
                 [Interval(0, 50), Interval(70, 120), Interval(150, 180)], [Interval(30, 80), Interval(100, 160)], 60);
  }

  lemma AdjacentMergePupilClipped()
    ensures Clipped(Interval(0, 100), [10, 20, 20, 30], 4) == [Interval(10, 20), Interval(20, 30)]
  {
  }

  lemma AdjacentMergePupilInOrder()
    ensures StartsAscend([Interval(10, 20), Interval(20, 30)])
  {
  }

  lemma AdjacentMergeEvaluated()
    ensures Evaluated([0, 100], [10, 20, 20, 30], [15, 25],
                       [Interval(10, 20), Interval(20, 30)], [Interval(15, 25)],
                       [Interval(10, 30)], [Interval(15, 25)], 10)
  {
    AdjacentMergePupilClipped();
    AdjacentMergePupilInOrder();
  }

  /** `test_adjacent_intervals_needing_merge`: `[10, 20]` and `[20, 30]` merge. */
  lemma AdjacentMerge()
    ensures AppearanceSpec(map["lesson" := [0, 100],
                             "pupil" := [10, 20, 20, 30],
                             "tutor" := [15, 25]]) == Returned(10)
  {
    AdjacentMergeEvaluated();
    ByEvaluation([0, 100], [10, 20, 20, 30], [15, 25],
                 [Interval(10, 20), Interval(20, 30)], [Interval(15, 25)],
                 [Interval(10, 30)], [Interval(15, 25)], 10);
  }

  lemma TouchingNoOverlapEvaluated()
    ensures Evaluated([10, 50], [10, 30], [30, 50],
                       [Interval(10, 30)], [Interval(30, 50)],
                       [Interval(10, 30)], [Interval(30, 50)], 0)
  {
  }

  /** `test_intervals_touching_no_overlap`: the shared point 30 is no second. */
  lemma TouchingNoOverlap()
    ensures AppearanceSpec(map["lesson" := [10, 50],
                             "pupil" := [10, 30],
                             "tutor" := [30, 50]]) == Returned(0)
  {
    TouchingNoOverlapEvaluated();
    ByEvaluation([10, 50], [10, 30], [30, 50],
                 [Interval(10, 30)], [Interval(30, 50)],
                 [Interval(10, 30)], [Interval(30, 50)], 0);
  }

  lemma TouchingWithOverlapEvaluated()
    ensures Evaluated([10, 50], [10, 40], [20, 50],
                       [Interval(10, 40)], [Interval(20, 50)],
                       [Interval(10, 40)], [Interval(20, 50)], 20)
  {
  }

  /** `test_intervals_touching_with_overlap`. */
  lemma TouchingWithOverlap()
    ensures AppearanceSpec(map["lesson" := [10, 50],
                             "pupil" := [10, 40],
                             "tutor" := [20, 50]]) == Returned(20)
  {
    TouchingWithOverlapEvaluated();
    ByEvaluation([10, 50], [10, 40], [20, 50],
                 [Interval(10, 40)], [Interval(20, 50)],
                 [Interval(10, 40)], [Interval(20, 50)], 20);
  }

  lemma InvalidSegmentsPupilClipped()
    ensures Clipped(Interval(1594663200, 1594666800), [1594663340, 1594663389, 1594663395, 1594663390, 1594663392, 1594663392, 1594663396, 1594666472], 8) == [Interval(1594663340, 1594663389), Interval(1594663392, 1594663392), Interval(1594663396, 1594666472)]
  {
    var markers := [1594663340, 1594663389, 1594663395, 1594663390, 1594663392, 1594663392, 1594663396, 1594666472];
    assert Clipped(Interval(1594663200, 1594666800), markers, 2) == [Interval(1594663340, 1594663389)];
    assert Clipped(Interval(1594663200, 1594666800), markers, 4) == [Interval(1594663340, 1594663389)];
    assert Clipped(Interval(1594663200, 1594666800), markers, 6) == [Interval(1594663340, 1594663389), Interval(1594663392, 1594663392)];
  }

  lemma InvalidSegmentsPupilInOrder()
    ensures StartsAscend([Interval(1594663340, 1594663389), Interval(1594663392, 1594663392), Interval(1594663396, 1594666472)])
  {
  }

  /** The clipped list element by element: the sweep steps below hold for
      every list with these elements. */
  predicate InvalidSegmentsPupilIs(s: seq<Interval>) {
    |s| == 3
    && s[0] == Interval(1594663340, 1594663389)
    && s[1] == Interval(1594663392, 1594663392)
    && s[2] == Interval(1594663396, 1594666472)
  }

  lemma InvalidSegmentsPupilMergedTo2(s: seq<Interval>)
    requires InvalidSegmentsPupilIs(s)
    ensures Sweep(s, 2) == [Interval(1594663340, 1594663389)] + [Interval(1594663392, 1594663392)]
  {
    SweepAppend(s, 2, [Interval(1594663340, 1594663389)]);
  }

  lemma InvalidSegmentsPupilMergedTo3(s: seq<Interval>)
    requires InvalidSegmentsPupilIs(s)
    ensures Sweep(s, 3) == [Interval(1594663340, 1594663389)] + [Interval(1594663392, 1594663392)] + [Interval(1594663396, 1594666472)]
  {
    InvalidSegmentsPupilMergedTo2(s);
    SweepAppend(s, 3, [Interval(1594663340, 1594663389)] + [Interval(1594663392, 1594663392)]);
  }

  lemma InvalidSegmentsPupilMerged()
    ensures Sweep([Interval(1594663340, 1594663389), Interval(1594663392, 1594663392), Interval(1594663396, 1594666472)], 3) == [Interval(1594663340, 1594663389), Interval(1594663392, 1594663392), Interval(1594663396, 1594666472)]
  {
    InvalidSegmentsPupilMergedTo3([Interval(1594663340, 1594663389), Interval(1594663392, 1594663392), Interval(1594663396, 1594666472)]);
  }

  lemma InvalidSegmentsTutorClipped()
    ensures Clipped(Interval(1594663200, 1594666800), [1594663290, 1594663430, 1594663443, 1594666473], 4) == [Interval(1594663290, 1594663430), Interval(1594663443, 1594666473)]
  {
  }

  lemma InvalidSegmentsTutorInOrder()
    ensures StartsAscend([Interval(1594663290, 1594663430), Interval(1594663443, 1594666473)])
  {
  }

  lemma InvalidSegmentsEvaluated()
    ensures Evaluated([1594663200, 1594666800], [1594663340, 1594663389, 1594663395, 1594663390, 1594663392, 1594663392, 1594663396, 1594666472], [1594663290, 1594663430, 1594663443, 1594666473],
                       [Interval(1594663340, 1594663389), Interval(1594663392, 1594663392), Interval(1594663396, 1594666472)], [Interval(1594663290, 1594663430), Interval(1594663443, 1594666473)],
                       [Interval(1594663340, 1594663389), Interval(1594663392, 1594663392), Interval(1594663396, 1594666472)], [Interval(1594663290, 1594663430), Interval(1594663443, 1594666473)], 3112)
  {
    InvalidSegmentsPupilClipped();
    InvalidSegmentsPupilInOrder();
    InvalidSegmentsPupilMerged();
    InvalidSegmentsTutorClipped();
    InvalidSegmentsTutorInOrder();
  }

  /** `test_invalid_segments_in_input`: the reversed segment is clipped away, the zero-length one is kept and adds nothing. */
  lemma InvalidSegments()
    ensures AppearanceSpec(map["lesson" := [1594663200, 1594666800],
                             "pupil" := [1594663340, 1594663389, 1594663395, 1594663390, 1594663392, 1594663392, 1594663396, 1594666472],
                             "tutor" := [1594663290, 1594663430, 1594663443, 1594666473]]) == Returned(3112)
  {
    InvalidSegmentsEvaluated();
    ByEvaluation([1594663200, 1594666800], [1594663340, 1594663389, 1594663395, 1594663390, 1594663392, 1594663392, 1594663396, 1594666472], [1594663290, 1594663430, 1594663443, 1594666473],
                 [Interval(1594663340, 1594663389), Interval(1594663392, 1594663392), Interval(1594663396, 1594666472)], [Interval(1594663290, 1594663430), Interval(1594663443, 1594666473)],
                 [Interval(1594663340, 1594663389), Interval(1594663392, 1594663392), Interval(1594663396, 1594666472)], [Interval(1594663290, 1594663430), Interval(1594663443, 1594666473)], 3112);
  }

  /** `test_intervals_outside_lesson`: every segment lies outside the lesson. */
  lemma OutsideLesson()
    ensures AppearanceSpec(map["lesson" := [100, 200],
                               "pupil" := [0, 50, 250, 300],
                               "tutor" := [10, 60, 260, 310]]) == Returned(0)
  {
    var pupil := [0, 50, 250, 300];
    assert Clipped(Interval(100, 200), pupil, 2) == [];
    var intervals := map["lesson" := [100, 200], "pupil" := pupil, "tutor" := [10, 60, 260, 310]];
    assert intervals["lesson"] == [100, 200] && intervals["pupil"] == pupil;
    NothingClippedGivesZero(intervals);
  }

  /** `test_empty_pupil_intervals`, `test_empty_tutor_intervals` and
      `test_one_party_absent_completely`. */
  lemma OnePartyAbsent()
    ensures AppearanceSpec(map["lesson" := [0, 1000], "pupil" := [], "tutor" := [100, 200]]) == Returned(0)
    ensures AppearanceSpec(map["lesson" := [0, 1000], "pupil" := [100, 200], "tutor" := []]) == Returned(0)
    ensures AppearanceSpec(map["lesson" := [0, 100], "pupil" := [10, 20], "tutor" := []]) == Returned(0)
    ensures AppearanceSpec(map["lesson" := [0, 100], "pupil" := [], "tutor" := [10, 20]]) == Returned(0)
  {
    NothingClippedGivesZero(map["lesson" := [0, 1000], "pupil" := [], "tutor" := [100, 200]]);
    NothingClippedGivesZero(map["lesson" := [0, 1000], "pupil" := [100, 200], "tutor" := []]);
    NothingClippedGivesZero(map["lesson" := [0, 100], "pupil" := [10, 20], "tutor" := []]);
    NothingClippedGivesZero(map["lesson" := [0, 100], "pupil" := [], "tutor" := [10, 20]]);
  }

  /** `test_empty_or_invalid_lesson_interval`: a zero-length lesson, an empty
      lesson list, a reversed lesson and a missing `lesson` key. */
  lemma InvalidLesson()
    ensures AppearanceSpec(map["lesson" := [100, 100], "pupil" := [0, 200], "tutor" := [0, 200]]) == Returned(0)
    ensures AppearanceSpec(map["lesson" := [], "pupil" := [0, 200], "tutor" := [0, 200]]) == Returned(0)
    ensures AppearanceSpec(map["lesson" := [200, 100], "pupil" := [0, 200], "tutor" := [0, 200]]) == Returned(0)
    ensures AppearanceSpec(map["pupil" := [0, 200], "tutor" := [0, 200]]) == Returned(0)
  {
    MalformedGivesZero(map["lesson" := [100, 100], "pupil" := [0, 200], "tutor" := [0, 200]]);
    MalformedGivesZero(map["lesson" := [], "pupil" := [0, 200], "tutor" := [0, 200]]);
    ReversedLessonGivesZero(map["lesson" := [200, 100], "pupil" := [0, 200], "tutor" := [0, 200]]);
    MalformedGivesZero(map["pupil" := [0, 200], "tutor" := [0, 200]]);
  }
}
