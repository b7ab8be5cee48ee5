# XD-to-LRS core in Dafny

XD-to-LRS places INRIX XD road segments on the Virginia linear referencing
system (LRS) and then checks and corrects the result. This project models
the decision logic of that pipeline and proves properties about it:

- **Route matching** (`xd_to_rns.py`, module `XdToRns`). Routes found near
  points of a segment are tallied in a `Counter` (module `Counter`). The
  first tier matches a segment when its begin, middle and end points agree
  on one route. The second tier matches when one route is the unique most
  common one among points spaced 50 m apart.
- **Direction correction** (`flipRoutes.py`, module `FlipRoutes`). An
  ordered table of rules on the route name and the order of the two
  measures keeps each event on its route or moves it to the
  opposite-direction twin. The run is a class holding the script's
  module-level state.
- **Confidence scoring** (`AutoQC.py`, module `AutoQC`): a Hausdorff-style
  shape test, bearing comparison, the 0-100 score in hundredths, and writing
  the scores back into the conflation rows.
- **Checks**:
  - overlapping events (`FindOverlappingEvents.py`, module `FindOverlappingEvents`);
  - length comparison (`lengthCompare.py`, module `LengthCompare`), on an array of rows updated in place;
  - mileage per district (`measureMileageByDistrict.py`, module `MeasureMileage`);
  - reversed non-prime S-routes (`IdentifyReversedSRoutes.py`, module `IdentifyReversed`).

Module `Py` holds the Python semantics the scripts rely on: `None` as
`Option`, exceptions as `Result`, truthiness, slicing that never raises,
round-half-even, and a dict filled in a loop, where the last write wins.
Module `EventTable` holds the event record.

All geometry is left abstract. Distances, projections onto a route,
lengths, side-of-line tests, selection by location and the routes within
the search distance of a point are oracle functions. They are fields of a
datatype or parameters of the operation. Cursors are sequences of rows.

## Model

| member | source | states |
|---|---|---|
| Py.RoundHalfEven | measureMileageByDistrict.py:16 | `round(x)` is within one half of x, and a tie goes to the even integer |
| Py.RoundTo | flipRoutes.py:107 | `round(x, d)` is within half a unit of the d-th decimal of x |
| Py.RoundToMonotone | AutoQC.py:46 | rounding to d decimals preserves order |
| Py.DictFromPairs | flipRoutes.py:148 | a dict built by assignment in a loop has exactly the keys assigned |
| Py.DictFromPairsLastWins | flipRoutes.py:148 | the value kept for a key is the one from the last assignment to it |
| FlipRoutes.ReversedList | flipRoutes.py:22-30 | the reversed-route list holds the built-in route and the loaded JSON names, and nothing else; an unreadable file adds nothing |
| FlipRoutes.GetMsr | flipRoutes.py:50-113 | both measures are null together, and exactly when the route is missing or null in the dictionary or projecting raises; otherwise each is the projected M value rounded to 3 decimals (within 0.0005) |
| FlipRoutes.Decide | flipRoutes.py:156-230 | a record is flipped if and only if its route has a twin in oppRteDict, its name is not null, and the rules after the twin check flip it (FlippedExactly says when) |
| FlipRoutes.PrAscendingKept | flipRoutes.py:165-175 | an S-VA route with PR at [7:9] and begin <= end is kept unless it is in the reversed list |
| FlipRoutes.NpDescendingKept | flipRoutes.py:176-185 | an S-VA route with NP at [7:9] and begin >= end is kept unless it is in the reversed list |
| FlipRoutes.ReversedPrNpFallsThrough | flipRoutes.py:165-230 | a listed-as-reversed S-VA route that matched the PR or NP rule sets needsFlip and falls through: it is kept if it is a ramp, otherwise flipped |
| FlipRoutes.ReversedWithoutNeedKept | flipRoutes.py:188-193 | a listed-as-reversed route that matched neither the PR nor the NP rule is kept |
| FlipRoutes.RampNeverFlipped | flipRoutes.py:195-200 | a name containing RMP is never flipped; it errors only as an S-VA route with a null measure |
| FlipRoutes.RvaPaKept | flipRoutes.py:202-207 | an R-VA name containing PA is kept whatever its measures |
| FlipRoutes.RvaDirectionKept | flipRoutes.py:209-221 | an R-VA route is kept when NB/EB ascends or SB/WB descends; equal measures keep any of the four |
| FlipRoutes.RaiseExactly | flipRoutes.py:156-237 | the rules raise if and only if a measure is null and the route is S-VA, or is an R-VA route that no earlier rule kept |
| FlipRoutes.FlippedExactly | flipRoutes.py:165-230 | a named route is flipped if and only if no rule keeps it and none raises: an S-VA route has both measures; the name is not a ramp; a listed route matched the PR or NP rule and an unlisted one matched neither; and an R-VA route is not PA, has both measures and runs against the direction its name gives |
| FlipRoutes.BackwardsPrFlipped | flipRoutes.py:165-230 | an unlisted S-VA PR route that is not a ramp and has begin > end is flipped |
| FlipRoutes.BackwardsNpFlipped | flipRoutes.py:176-230 | an unlisted S-VA NP route that is not a ramp and has begin < end is flipped |
| FlipRoutes.BackwardsRvaFlipped | flipRoutes.py:209-230 | an unlisted R-VA route named NB or EB, and none of SB, WB, PA or RMP, is flipped when begin > end |
| FlipRoutes.OtherRoutesFlipped | flipRoutes.py:223-230 | a name that is neither S-VA nor R-VA, not listed and not a ramp is flipped, even with null measures |
| FlipRoutes.DecideTwinCheck | flipRoutes.py:158-163 | a route with no twin is kept; a null name with a twin entry raises |
| FlipRoutes.Correct | flipRoutes.py:156-237 | the emitted event keeps the id; if not flipped it is the input record unchanged; if flipped it is on the twin route with get_msr's measures |
| FlipRoutes.NoTwinEmittedUnchanged | flipRoutes.py:158-163 | a record whose route is absent from oppRteDict is emitted unchanged and counted as not flipped |
| FlipRoutes.RaiseEmitsOriginal | flipRoutes.py:233-237 | a record on which the rules raise is emitted unchanged and counted as an error |
| FlipRoutes.FlipWithoutGeometry | flipRoutes.py:224-230 | a flip onto a twin with no geometry counts as flipped and emits the twin with null measures |
| FlipRoutes.Outputs | flipRoutes.py:153-237 | one output event per input record, in order, each the record's correction |
| FlipRoutes.CountsPartition | flipRoutes.py:156-239 | every record bumps exactly one of the three counters, so the counters add up to the record count |
| FlipRoutes.ErrorIdsAreErrored | flipRoutes.py:233-237 | errorList gains one id per errored record, only ids of errored records |
| FlipRoutes.OppRteDictKeys | flipRoutes.py:136-141 | the keys of oppRteDict are exactly the overlap routes that also occur in the input layer |
| FlipRoutes.OppPairsSound | flipRoutes.py:139-141 | each assignment of the oppRteDict loop is for an overlap route that occurs in the input layer |
| FlipRoutes.OppPairsComplete | flipRoutes.py:139-141 | every overlap route that occurs in the input layer is assigned |
| FlipRoutes.BuildOppRteDict | flipRoutes.py:136-141 | the loop builds oppRteDict, last assignment winning, and its keys are input routes |
| FlipRoutes.BuildLrsGeomDict | flipRoutes.py:148 | the loop builds LRSGeomDict, last row winning |
| FlipRoutes.FlipRun.constructor | flipRoutes.py:18-21 | on import the counters are 0, and errorList and outputEvents are empty |
| FlipRoutes.FlipRun.AddToEventTable | flipRoutes.py:39-47 | appends exactly one event and changes nothing else |
| FlipRoutes.FlipRun.ProcessRecord | flipRoutes.py:155-237 | one record appends its correction and bumps only the counter of its outcome; an error also appends its id to errorList |
| FlipRoutes.FlipRun.ProcessAll | flipRoutes.py:153-237 | the cursor loop appends every record's correction and adds each counter's count |
| FlipRoutes.FlipRun.RunFlipRoutes | flipRoutes.py:115-239 | outputEvents is reset and then holds one event per record; the counters and errorList grow by the run's counts, totalling the record count |
| AutoQC.Distances | AutoQC.py:23-28 | one distance per vertex of geom1, to geom2, in order |
| AutoQC.PartDistances | AutoQC.py:26-28 | the inner loop appends the distance of each vertex of one part, in order |
| AutoQC.SeqMax | AutoQC.py:35 | `max` is an element and no element exceeds it |
| AutoQC.SeqMin | AutoQC.py:33 | `min` is an element and no element is below it |
| AutoQC.Normalize | AutoQC.py:32-33 | each distance is reduced by the smallest one |
| AutoQC.NormalizedHausdorff | AutoQC.py:32-35 | normalised distances are non-negative and their maximum is max - min |
| AutoQC.NormalizedAtMostPlain | AutoQC.py:32-35 | with non-negative distances, normalising never increases the result |
| AutoQC.HausdorffDistance | AutoQC.py:23-36 | ValueError when geom1 has no vertices; otherwise the maximum (normalised) vertex distance |
| AutoQC.SimilarShape | AutoQC.py:39-52 | (False, None) for a null geom1; an error, ValueError, exactly when either geometry has no vertices; otherwise the rounded smaller value, similar iff below a tenth of geom1's length and below 10 |
| AutoQC.IsSimilarShape | AutoQC.py:39-52 | the method computing both directions returns what SimilarShape states |
| AutoQC.NormalizedShapeTestNoStricter | AutoQC.py:39-52 | with non-negative distances, a pair that passes the plain shape test passes the normalised one |
| AutoQC.CompareBearing | AutoQC.py:59-90 | the difference is the absolute difference of the two bearings; the conflation direction starts at its first point only when that is strictly closer to the XD begin; First/Second use the half-way points |
| AutoQC.BearingTieTakesLastPoint | AutoQC.py:67-74 | with both conflation ends equally far from the XD begin, the conflation bearing runs from its last point to its first |
| AutoQC.Subtraction | AutoQC.py:157-164 | six non-negative deductions, the bearing one always 0 |
| AutoQC.SubtractionSum | AutoQC.py:157-167 | the deductions are 10, 30, 30, 30, 10 hundredths for the tests that fail |
| AutoQC.ScoreBounds | AutoQC.py:155-172 | the score is between 0 and 100 |
| AutoQC.PerfectScoreIff | AutoQC.py:155-172 | the score is 100 if and only if length difference, length ratio, both shape tests and centroid test pass |
| AutoQC.BearingIrrelevant | AutoQC.py:163 | the bearing test never changes the score |
| AutoQC.AllTestsFailedScoresZero | AutoQC.py:166-170 | failing every test floors the score at 0 |
| AutoQC.BearingSum | AutoQC.py:148-151 | the sum of the three bearing differences is non-negative |
| AutoQC.Tests | AutoQC.py:128-151 | the measurements fail exactly when the XD length rounds to 0 (ZeroDivisionError) or a geometry has no vertices |
| AutoQC.FinalScore | AutoQC.py:155-172 | the score is 100 minus the deductions, floored at 0 |
| AutoQC.MeasureTests | AutoQC.py:128-151 | the method computes what Tests states |
| AutoQC.GetConfidenceScore | AutoQC.py:114-199 | 0 for a null conflation geometry; otherwise the score of the measurements or their error, and any score is in 0..100 |
| AutoQC.UpdatedMeaning | AutoQC.py:100-110 | a row with no score is unchanged; a row with scores gets the last score for its XDSegID |
| AutoQC.BuildScoreDict | AutoQC.py:100-102 | the loop builds scoreDict, last score winning |
| AutoQC.AddConfidenceField | AutoQC.py:93-110 | every row is updated as UpdatedMeaning describes and nothing else changes |
| Counter.IncrementFacts | xd_to_rns.py:113 | `c[k] += 1` adds one to k's count and leaves every other count alone |
| Counter.IncrementGet | xd_to_rns.py:113 | after `c[x] += 1` the count of x is one more and every other key's count is unchanged |
| Counter.TallyCounts | xd_to_rns.py:109-113 | a Counter filled from a list has one entry per distinct element, counting its occurrences; it is empty iff the list is |
| Counter.InsertFacts | xd_to_rns.py:53 | inserting into a list sorted by count keeps it sorted and puts the new entry ahead of equal counts |
| Counter.InsertSorted | xd_to_rns.py:53 | inserting into a list sorted by count, largest first, keeps it sorted |
| Counter.SortFacts | xd_to_rns.py:53 | sorting by count keeps the entries, orders them by count and keeps equal counts in insertion order |
| Counter.GetMostCommon | xd_to_rns.py:48-55 | ValueError iff the Counter is empty; otherwise exactly the entries with the maximum count, in insertion order |
| Counter.SingleEntryIsUniqueMax | xd_to_rns.py:48-55 | a single most-common entry is a unique most common key, with its occurrence count |
| Counter.UniqueMaxIsSingleEntry | xd_to_rns.py:48-55 | a unique most common key is the single entry returned |
| Counter.SingleMostCommon | xd_to_rns.py:48-55 | one entry is returned if and only if one key is most common, and it carries that key's occurrence count |
| XdToRns.GetPointMp | xd_to_rns.py:58-86 | None exactly when locating the point raises; otherwise the M value rounded to 3 decimals |
| XdToRns.SampleCount | xd_to_rns.py:93-99 | the number of 50 m offsets strictly below the length: ceil(len/50), 0 for a non-positive length |
| XdToRns.SamplePoints | xd_to_rns.py:89-101 | the points at offsets 0, 50, 100, ... metres |
| XdToRns.GetPointsAlongLine | xd_to_rns.py:89-101 | the while loop returns the points at 0, 50, ... below the length, whatever m is passed |
| XdToRns.AddRoutes | xd_to_rns.py:112-113 | the inner loop adds one to the count of every route found near one point |
| XdToRns.TallyPoints | xd_to_rns.py:109-113 | the nested loops fill the Counter of every route found near every point |
| XdToRns.FirstTierMeaning | xd_to_rns.py:104-132 | the first tier returns k if and only if k is the unique most common route and was found 3 times; no routes return None |
| XdToRns.FirstIteration | xd_to_rns.py:104-132 | the method returns the first tier's answer for the begin, middle and end points |
| XdToRns.SecondTierRaisesWithoutHits | xd_to_rns.py:140-163 | as written, second_iteration raises ValueError exactly when no route was found, and otherwise agrees with the guarded version |
| XdToRns.ZeroLengthSegmentRaises | xd_to_rns.py:93-153 | as written, a zero-length segment makes second_iteration raise |
| XdToRns.SecondTierMeaning | xd_to_rns.py:158-163 | the guarded second tier returns k if and only if k is the unique most common route; nothing found gives None |
| XdToRns.SecondIteration | xd_to_rns.py:135-165 | the method as written, including its ValueError |
| XdToRns.SecondIterationGuarded | xd_to_rns.py:135-165 | the corrected method returns the guarded second tier's answer |
| XdToRns.MatchOneMeaning | xd_to_rns.py:186-208 | with the guarded second tier (the corrected program): a first-tier match wins; otherwise a second-tier match; a matched row carries the route and its rounded begin/end M values; otherwise the row is [id, None, None, None] |
| XdToRns.MatchSegment | xd_to_rns.py:188-208 | the loop body of the corrected program, calling the guarded second tier where line 198 calls second_iteration, appends the row MatchOneMeaning describes |
| XdToRns.MatchXdToLrs | xd_to_rns.py:174-211 | the corrected program: one row per segment, in cursor order |
| XdToRns.MatchOneAsWrittenMeaning | xd_to_rns.py:188-208 | as written, one segment raises ValueError exactly when the first tier finds nothing and no route is found along it; otherwise it gets the corrected program's row |
| XdToRns.MatchSegmentAsWritten | xd_to_rns.py:188-208 | the loop body as written, calling the raising second_iteration: ValueError exactly on such a segment, otherwise the corrected row |
| XdToRns.MatchAllAsWrittenMeaning | xd_to_rns.py:174-211 | as written, the loop raises ValueError exactly when some segment raises; otherwise it yields the corrected program's row for every segment |
| XdToRns.ZeroLengthSegmentAbortsRun | xd_to_rns.py:93-198 | as written, one zero-length segment that the first tier misses makes the whole run raise ValueError, where the corrected program gives it [id, None, None, None] |
| XdToRns.MatchXdToLrsAsWritten | xd_to_rns.py:174-211 | match_xd_to_lrs as written returns no output and raises ValueError exactly when some segment raises; otherwise one row per segment, equal to the corrected program's |
| Py.TryMappedRows | xd_to_rns.py:186-208 | a list built by a loop whose step may raise raises exactly when some step does, with that step's error; otherwise the i-th entry is the i-th step's value |
| FindOverlappingEvents.OwnInterval | FindOverlappingEvents.py:7-15 | every row's own (begin, end) is listed under its route |
| FindOverlappingEvents.BuildEventDict | FindOverlappingEvents.py:7-15 | EventDict's keys are the layer's route names, each mapped to all of its intervals in cursor order |
| FindOverlappingEvents.OverlapCount | FindOverlappingEvents.py:24-27 | the inner loop counts the containing events, or raises on a null comparison |
| FindOverlappingEvents.CountNoneIfAnyRaises | FindOverlappingEvents.py:25-27 | one comparison that raises makes the row's count raise |
| FindOverlappingEvents.CountAtLeastOne | FindOverlappingEvents.py:24-27 | without a raise, the count is positive iff some listed event contains the row |
| FindOverlappingEvents.CountAtLeastTwo | FindOverlappingEvents.py:24-28 | without a raise, count >= 1 iff some listed event contains the row, and count >= 2 iff two different ones do |
| FindOverlappingEvents.FlaggedIffSecondContainer | FindOverlappingEvents.py:23-29 | a row with non-null measures contains itself, and is flagged iff no comparison raises and two listed events, itself included, contain it |
| FindOverlappingEvents.NullMeasureNeverFlagged | FindOverlappingEvents.py:21-31 | a row with a null measure raises on its own interval and is skipped, never flagged |
| FindOverlappingEvents.OverlapsAreFlaggedRows | FindOverlappingEvents.py:17-31 | the reported rows are exactly the flagged rows of the layer, at most one per row |
| FindOverlappingEvents.FindOverlaps | FindOverlappingEvents.py:17-35 | the scan returns the flagged rows in cursor order; their number is what is printed |
| LengthCompare.XdLenKeys | lengthCompare.py:4-8 | XDLenDict has exactly the XD ids as keys |
| LengthCompare.BuildXdLenDict | lengthCompare.py:4-8 | the loop builds XDLenDict, last row winning |
| LengthCompare.BuildTotals | lengthCompare.py:37-41 | XDTotalDicts maps every XD id to the non-null lengths of its conflation rows in cursor order |
| LengthCompare.MeasureRows | lengthCompare.py:27-34 | each row gets its computed length; a row whose length raises keeps its old value |
| LengthCompare.SetTotals | lengthCompare.py:43-46 | each row gets the sum of its id's lengths and nothing else changes |
| LengthCompare.SetXdLens | lengthCompare.py:51-54 | each row gets its id's XD length and nothing else changes |
| LengthCompare.SetLenDiffs | lengthCompare.py:59-62 | each row gets the absolute difference of its total and XD length |
| LengthCompare.CompareLengths | lengthCompare.py:1-62 | requires every conflation id to be an XD id (KeyError otherwise); the rows end as Compared describes |
| LengthCompare.FinishRows | lengthCompare.py:43-62 | the three update loops leave every row with its total, its XD length and their absolute difference |
| LengthCompare.LensForMembers | lengthCompare.py:37-41 | an id's list holds exactly the non-null lengths of the rows with that id |
| LengthCompare.LensForSingle | lengthCompare.py:37-41 | the only row of an id, if it has a length, makes up the whole list |
| LengthCompare.ComparedRow | lengthCompare.py:27-62 | id and shape kept; ConflationLen computed or kept when it raises; total is the sum; XDLen from the last XD row of the id; LenDiff = abs(total - XDLen) >= 0 |
| LengthCompare.SharedIdSharedTotals | lengthCompare.py:43-62 | rows sharing an XDSegID share ConflationTotalLen, XDLen and LenDiff |
| LengthCompare.TotalIsSumOfLengths | lengthCompare.py:37-46 | the total is the sum of exactly the measured lengths of the id's rows; a lone row's total is its own length |
| MeasureMileage.InsertByMiles | measureMileageByDistrict.py:19 | inserting into a table sorted by Miles keeps it sorted and is a permutation plus the new row |
| MeasureMileage.SortByMiles | measureMileageByDistrict.py:19 | the sorted table is ordered by Miles, largest first, and is a permutation of the output |
| MeasureMileage.DistrictLengths | measureMileageByDistrict.py:11-15 | the inner loop collects abs(end - begin) for events with two truthy measures |
| MeasureMileage.LengthsSound | measureMileageByDistrict.py:12-15 | every length is abs(end - begin) of an event with two truthy measures |
| MeasureMileage.LengthsComplete | measureMileageByDistrict.py:12-15 | every event with two truthy measures contributes its length, and there are at most as many lengths as events |
| MeasureMileage.CountMileage | measureMileageByDistrict.py:4-38 | both functions return the output, one row per district, sorted by Miles |
| MeasureMileage.LengthsMeaning | measureMileageByDistrict.py:12-15 | the lengths are exactly abs(end - begin) of events with both measures truthy (not null, not 0); each one is >= 0 |
| MeasureMileage.UncountedEventsGiveZero | measureMileageByDistrict.py:13 | with no event having two truthy measures the mileage is 0 |
| MeasureMileage.MilesBounds | measureMileageByDistrict.py:16 | the mileage is >= 0 and within one half of the exact sum |
| MeasureMileage.TableMeaning | measureMileageByDistrict.py:7-19 | the table has one row per district with its name and mileage, all >= 0, sorted largest first |
| IdentifyReversed.StoppedStays | IdentifyReversedSRoutes.py:19-54 | after a part raises, later parts change nothing |
| IdentifyReversed.ScanParts | IdentifyReversedSRoutes.py:20-51 | the part loop appends what the parts append, stopping at the first exception |
| IdentifyReversed.BuildGeomDict | IdentifyReversedSRoutes.py:10 | geomDict is built from the rows, last row winning |
| IdentifyReversed.IdentifyReversedSRoutes | IdentifyReversedSRoutes.py:10-54 | ReversedRoutes is the concatenation of each examined route's appends, in cursor order |
| IdentifyReversed.PartMeaning | IdentifyReversedSRoutes.py:22-51 | a part appends something iff the parent is known, the query succeeds, distance >= 1 and the side is False; it then appends the route, and also the parent iff the master side is True |
| IdentifyReversed.AppendsKept | IdentifyReversedSRoutes.py:19-54 | appends are never undone, and once a part raises no later part adds anything |
| IdentifyReversed.MissingParentAppendsNothing | IdentifyReversedSRoutes.py:23 | a route whose parent is missing from geomDict appends nothing |
| IdentifyReversed.OncePerReversedPart | IdentifyReversedSRoutes.py:20-43 | a route with n reversed parts is appended n times, so duplicates occur |
| IdentifyReversed.Copies | IdentifyReversedSRoutes.py:43 | n copies of a name |
| IdentifyReversed.StepsNames | IdentifyReversedSRoutes.py:43-51 | a route only ever appends its own name or its parent's |
| IdentifyReversed.OnlyExaminedRoutes | IdentifyReversedSRoutes.py:17-51 | every entry of ReversedRoutes is the name or parent of a route that starts with S-VA and has NP at [7:9] |

## Left out

- I/O, logging, pandas DataFrames, CSV and JSON files, `print`, field creation with `ListFields`/`AddField_management` (lengthCompare.py:11-23, AutoQC.py:95-97), and `MakeFeatureLayer`. Cursors are sequences of rows; updated rows are array elements or returned values.
- Geometry is oracle functions, not computed: projection, measureOnLine and positionAlongLine, distances, centroids, lengths, queryPointAndDistance, SelectLayerByLocation, and the multipart closest-part choice inside get_msr. The model says nothing about how the oracles compute their answers.
- Floating point is modelled as exact reals. The AutoQC deductions are proved in integer hundredths, which matches the float result only while rounding error stays below half a hundredth.
- FlipRoutes.FlipRun.RunFlipRoutes: the f-strings logged at flipRoutes.py:242-244 divide by the total count and are evaluated whatever the log level. When the counters are still 0 after the loop, the function raises ZeroDivisionError before writing the CSV (line 248). The counters are module globals that are never reset, so this happens only when every run so far had empty input. The model does not capture this error: it returns normally.
- flipRoutes.py:253-368 repeats run_flip_routes under `__main__`; only the function is modelled. The `__main__` drivers of AutoQC.py (lines 203-250) and xd_to_rns.py (lines 214-238) are not modelled either.
- compare_bearing is called at AutoQC.py:148-150 with the global `ConflationGeom` of the `__main__` loop instead of the `conflationGeom` parameter. The model passes the parameter, which is the same object when the script is run as a program.
- MatchOneMeaning: states the row of the corrected program, which uses the guarded second tier. As written, a segment whose first tier finds nothing and along which no route is found raises ValueError instead (see Findings); MatchOneAsWrittenMeaning states that.
- MatchSegment: calls the guarded second tier where xd_to_rns.py:198 calls the raising second_iteration; MatchSegmentAsWritten models the loop body as written.
- MatchXdToLrs: one row per segment holds only for the corrected program. As written, match_xd_to_lrs raises ValueError at the first such segment and returns nothing; MatchXdToLrsAsWritten models that.
- XdToRns.ThirdIteration: third_iteration (xd_to_rns.py:168-171) is a stub that returns None, so it has no contract.
- XDSegment's RoadNumber, RoadName and SlipRoad fields (xd_to_rns.py:16-18) are read but never used by the matcher, so they are not part of the model.
- The search distance of find_nearby_routes is its 10-metre default (xd_to_rns.py:36); the oracle `nearby` stands for it.
- MeasureMileage.SortByMiles: pandas' default sort is not stable, so rows with equal Miles may come out in any order. The model fixes one order (insertion order) and proves only sortedness and permutation.
- MeasureMileage.CountMileage covers both count_mileage_XD and count_mileage_TMC. They differ only in the names of the measure fields, which are part of the selection oracle.
- RunConflation.py, RunConflation_Batch.py, testfunctions.py and scrap.py are orchestration, UI or dead code, and are not part of this model.
- FindOverlappingEvents.py:11-15: the `except` clause around the EventDict append is dead code, because every key is created first (BuildEventDict).
- LengthCompare.CompareLengths: a conflation id missing from the XD layer raises KeyError and ends the script. This is a precondition, not a modelled error path.
- IdentifyReversed: a null RTE_NM would raise AttributeError outside the `try` (line 17) and end the script, so route names are non-null strings.
- XdToRns.XDSegment: XD rows are assumed to have a non-null SHAPE@. Building an XDSegment from a row with a null geometry reads `Geom.firstPoint` (xd_to_rns.py:20-22) and raises AttributeError. match_xd_to_lrs has no `try`, so the run ends. The "exactly when" contracts of MatchOneAsWrittenMeaning, MatchAllAsWrittenMeaning and MatchXdToLrsAsWritten hold only for such rows.
- AutoQC.GetConfidenceScore: the XD geometry is a non-null `Geom`. get_confidence_score null-checks only the conflation geometry (AutoQC.py:124-126). A null XDGeom raises AttributeError at `XDGeom.getLength()` (line 128), which nothing catches. The error cases of AutoQC.Tests and GetConfidenceScore are exact only for non-null XD geometry.
- LengthCompare.XdRow: XD rows are assumed to have a non-null SHAPE@ and XDSegID. Otherwise `row[1].getLength(...)` (lengthCompare.py:7) raises AttributeError, or `int(row[0])` (lines 8 and 37) raises TypeError. Both are outside any `try` and end the script.

## Findings

| source | as written | input that shows it | evidently intended | confidence | as-written member | corrected member |
|---|---|---|---|---|---|---|
| xd_to_rns.py:153 | second_iteration calls get_most_common with no guard for an empty Counter. `max([])` then raises ValueError, which match_xd_to_lrs does not catch. | A segment with no LRS route within 10 m of any sample point; or a zero-length segment, which has no sample points. | Return None, like first_iteration's `len(routes) == 0` guard (xd_to_rns.py:115-117), so that the segment gets [id, None, None, None]. | not executed | XdToRns.SecondTierRaisesWithoutHits | XdToRns.SecondTierMeaning |
| xd_to_rns.py:198 | match_xd_to_lrs calls the unguarded second_iteration, so the ValueError of xd_to_rns.py:153 escapes the cursor loop. The whole run then returns no output. | Anywhere in the XD layer, a zero-length segment whose first tier finds nothing, for example because two routes lie within 10 m of all three of its points; or a segment with no route within 10 m of any of its points. | Each such segment gets [id, None, None, None] and the other segments are still matched. | not executed | XdToRns.MatchXdToLrsAsWritten | XdToRns.MatchXdToLrs |
