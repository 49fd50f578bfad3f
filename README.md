# Lesson attendance overlap, in Dafny

A model of `task3/solution.py`: for how many whole seconds were both the pupil
and the tutor present inside a lesson? The input maps `"lesson"`, `"pupil"`
and `"tutor"` to flat marker lists `[enter, leave, enter, leave, ...]`.
`appearance` checks the input, pairs each log into segments and clips each
segment to the lesson with `find_intersection`. It then merges each
participant's clipped segments with `merge_intervals` (an in-place sort by
start, then a sweep that joins overlapping and touching intervals) and sums
`count_intersection_seconds` over every pupil/tutor pair.

Modules:

- `Intervals` (`intervals.dfy`): the interval value, clipping and the overlap
  length. Each has a set meaning: `Points` (closed integer points) and `Span`
  (whole seconds `[t, t + 1)`).
- `Merge` (`merge.dfy`): the in-place insertion sort on an `array`, the sweep as
  a specification function `Sweep`, and the imperative `MergeIntervals`
  proved against both.
- `Appearance` (`appearance.dfy`):
  - the pipeline as methods (`ClipMarkers`, `SumOverlaps`, `Appearance`);
  - an independent statement of the answer, `AppearanceSpec`: the number of
    seconds of the lesson window at which both logs say the person was present;
  - the properties of that answer.
- `Scenarios` (`scenarios.dfy`): every unittest case, stated about
  `AppearanceSpec` on the same dictionary.

Where the code and its own comments disagree, the model follows the code:

- A `lesson` list of more than two markers reaches the unpacking on line 6
  through line 67 and raises `ValueError` as soon as a segment is clipped.
  This is modelled as `Outcome.UnpackError`. If both logs are empty, nothing
  is clipped and line 77 returns 0.
- A clipped zero-length segment such as `[x, x]` is kept, not filtered out by
  `find_intersection`, although the comments on lines 257 and 273 say so. It
  adds 0 seconds, so no test result depends on this.

## Model

| member | source | states |
|---|---|---|
| Intervals.FindIntersection | task3/solution.py:4-15 | a clipped result is a valid interval lying inside both arguments |
| Intervals.FindIntersectionPoints | task3/solution.py:4-15 | `None` exactly when the two closed intervals share no integer point; otherwise the result holds exactly the common points and exactly the common whole seconds |
| Intervals.FindIntersectionBoundary | task3/solution.py:9-15 | the definition spelled out: `None` exactly when `max(starts) > min(ends)`, otherwise `[max(starts), min(ends)]`, zero-length included; what this means for the points and seconds is `Intervals.FindIntersectionPoints` |
| Intervals.FindIntersectionSymmetric | task3/solution.py:4-15 | clipping is symmetric in its two arguments |
| Intervals.SpanCardinality | task3/solution.py:47 | an interval covers `end - start` whole seconds (0 when reversed) |
| Intervals.CountIntersectionSeconds | task3/solution.py:39-47 | the count is never negative and never exceeds either interval's length |
| Intervals.CountIsCommonSeconds | task3/solution.py:39-47 | the count is the number of whole seconds both intervals cover |
| Intervals.CountPositiveIff | task3/solution.py:39-47 | the count is positive exactly when `max(starts) < min(ends)`, so touching intervals give 0 |
| Intervals.CountSymmetric | task3/solution.py:39-47 | the count is symmetric |
| Merge.SortByStart | task3/solution.py:20 | the array ends sorted by start and is a permutation of what it held |
| Merge.MergeIntervals | task3/solution.py:18-36 | sorts the caller's array (a sorted permutation), returns the sweep of it, and for valid intervals returns a non-empty list, no longer than the input, of valid intervals, each starting after the previous one ends, covering exactly the input's points and seconds |
| Merge.SweepJoin | task3/solution.py:31-32 | an interval starting at or before the end of the last output interval widens it to the larger end and leaves the earlier output unchanged |
| Merge.SweepAppend | task3/solution.py:33-34 | an interval starting after the end of the last output interval is appended unchanged |
| Merge.SweepShape | task3/solution.py:22-36 | the sweep of a sorted list is non-empty, no longer than its input, valid, separated, and starts where the input starts |
| Merge.SweepCoverage | task3/solution.py:22-36 | the sweep covers exactly the points and the whole seconds of what it consumed |
| Merge.SweepSeparated | task3/solution.py:22-36 | on an already merged list the sweep changes nothing |
| Merge.SweepPermutation | task3/solution.py:18-36 | the sweep of any start-sorted permutation of valid intervals is a non-empty, no longer, valid, separated list covering exactly the original's points and seconds |
| Merge.SortedPermutationUnique | task3/solution.py:20 | the only start-sorted permutation of a merged list is the list itself |
| Merge.MergeIdempotent | task3/solution.py:18-36 | merging a merged list returns it unchanged, whatever order the sort leaves |
| Appearance.Pairs | task3/solution.py:66-67 | a log of `j` markers has `j / 2` segments |
| Appearance.PairsAt | task3/solution.py:66-67 | segment `k` is the slice `markers[2k : 2k + 2]`, as the loop's `[j: j + 2]` takes it |
| Appearance.Clipped | task3/solution.py:66-74 | clipping keeps at most one valid interval per segment |
| Appearance.ClippedSeconds | task3/solution.py:66-74 | the clipped list covers exactly the lesson seconds at which the log shows presence |
| Appearance.ClippedAppend | task3/solution.py:66-74 | clipping a concatenated log concatenates the clipped pieces |
| Appearance.ClipMarkers | task3/solution.py:66-74 | the loop yields the clipped list; it fails (the unpacking error) exactly when the lesson is not one pair and the log is non-empty |
| Appearance.RowOverlapCounts | task3/solution.py:84-85 | the inner loop over a merged tutor list counts the seconds a pupil interval shares with it |
| Appearance.RowStep | task3/solution.py:84-85 | one more tutor interval of a merged list adds exactly the seconds it shares with the pupil interval, none counted before |
| Appearance.TotalStep | task3/solution.py:82-85 | one more pupil interval of a merged list adds exactly its row's overlap to the common seconds, none counted before |
| Appearance.TotalOverlapCounts | task3/solution.py:82-85 | on merged lists the summed pairwise overlap is the number of common seconds: nothing is counted twice |
| Appearance.TotalOverlapSymmetric | task3/solution.py:82-85 | the summed overlap of two merged lists is symmetric |
| Appearance.SumOverlaps | task3/solution.py:82-85 | the nested loops compute the summed pairwise overlap |
| Appearance.PipelineCounts | task3/solution.py:78-87 | merged lists covering the clipped segments yield exactly the number of common seconds |
| Appearance.CommonFromClipped | task3/solution.py:66-77 | the common seconds are those covered by both clipped lists |
| Appearance.Appearance | task3/solution.py:50-87 | the method's outcome is `AppearanceSpec`: 0 for malformed input, the unpacking error for a longer lesson list, otherwise the number of seconds of the lesson at which both were present |
| Appearance.MalformedGivesZero | task3/solution.py:52-61 | a missing key, an odd-length list, an empty lesson or equal lesson markers give 0 |
| Appearance.NothingClippedGivesZero | task3/solution.py:76-77 | an empty clipped list for either participant gives 0 |
| Appearance.ReversedLessonGivesZero | task3/solution.py:60-77 | a reversed lesson such as `[200, 100]` gives 0 |
| Appearance.AppearanceBounded | task3/solution.py:50-87 | the answer is never negative; a positive answer needs a single-pair lesson and is at most `lesson[1] - lesson[0]` |
| Appearance.AppearanceSymmetric | task3/solution.py:50-87 | swapping the pupil's and the tutor's logs leaves the answer unchanged |
| Appearance.PresentInsert | task3/solution.py:66-74 | inserting a segment into a log adds exactly that segment's seconds to the presence |
| Appearance.IgnoredPupilSegment | task3/solution.py:66-69 | a pupil segment with start > end or wholly outside the lesson changes nothing, wherever it is inserted |
| Appearance.IgnoredTutorSegment | task3/solution.py:71-74 | the same for a tutor segment |
| Appearance.AppearanceBySweep | task3/solution.py:76-87 | when the clipped lists are already in start order, the answer is the summed overlap of their sweeps |
| Scenarios.ByEvaluation | task3/solution.py:76-87 | an evaluated pipeline (clipped, sorted, swept, summed) gives the answer and the count of common seconds |
| Scenarios.ProvidedExampleOne | task3/solution.py:94-97 | the first recorded lesson gives 3117 |
| Scenarios.ProvidedExampleTwo | task3/solution.py:98-101 | the second recorded lesson gives 3577 |
| Scenarios.ProvidedExampleThree | task3/solution.py:102-105 | the third recorded lesson gives 3565 |
| Scenarios.NoOverlap | task3/solution.py:111-116 | disjoint presence gives 0 |
| Scenarios.FullOverlap | task3/solution.py:118-123 | full presence gives 100 |
| Scenarios.PartialOverlap | task3/solution.py:125-131 | `[10, 50]` and `[30, 70]` give 20 |
| Scenarios.OutsideLesson | task3/solution.py:133-138 | segments outside the lesson give 0 |
| Scenarios.ClippingByLesson | task3/solution.py:140-148 | segments clipped by the lesson give 30 |
| Scenarios.OnePartyAbsent | task3/solution.py:150-162 | an empty pupil or tutor log gives 0 |
| Scenarios.InvalidLesson | task3/solution.py:164-182 | a zero-length, empty or reversed lesson, or a missing lesson key, gives 0 |
| Scenarios.PupilSegments | task3/solution.py:185-203 | three pupil segments against one tutor segment give 30 |
| Scenarios.TutorSegments | task3/solution.py:205-211 | three tutor segments against one pupil segment give 30 |
| Scenarios.ComplexOverlap | task3/solution.py:213-228 | several segments on both sides give 60 |
| Scenarios.AdjacentMerge | task3/solution.py:230-238 | touching `[10, 20]` and `[20, 30]` merge to `[10, 30]`; the answer is 10 |
| Scenarios.TouchingNoOverlap | task3/solution.py:252-258 | intervals that only touch give 0 |
| Scenarios.TouchingWithOverlap | task3/solution.py:260-266 | `[10, 40]` and `[20, 50]` give 20 |
| Scenarios.InvalidSegments | task3/solution.py:268-293 | a reversed segment is dropped and a zero-length one adds nothing: 3112 |

## Left out

- The `unittest` harness (lines 89-297) is not modelled; its cases are the lemmas of `Scenarios`.
- `task1/solution.py` (a decorator that checks argument types by runtime reflection) and `task2/solution.py` (a web scraper that writes a CSV file) are not part of this model: one is Python reflection, the other network and file I/O.
- Python's dynamic typing is not modelled: the dictionary is a `map<string, seq<int>>` and every marker is an integer. An empty dictionary is a map without the three keys.
- Merge.SortByStart: sort stability for equal starts is not modelled. The sort is an insertion sort stated as a sorted permutation, which is all that `Sweep` needs (`MergeIdempotent` shows that any sorted order of a merged list gives the same result).
- Merge.MergeIntervals: requires a non-empty array. On an empty list the source fails with `IndexError` at line 22, and its only caller (line 76) never passes one; that error path is not modelled.
- Merge.MergeIntervals: the merged list holds interval values, so the aliasing between the output and the caller's list objects is not modelled.
- Appearance.Appearance: the clipped lists are copied into fresh arrays before they are sorted, because in the source they are local lists that no caller sees.
- Appearance.ClipMarkers: the `ValueError` is modelled as a `None` result, which `Appearance` turns into `Outcome.UnpackError`. The exception's message and type are not modelled.
