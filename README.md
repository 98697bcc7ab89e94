# Video segmentation and participant detection, modelled in Dafny

This project models the core of a desktop tool that turns a recorded
training video into a timeline. The timeline has two parts:

- **task segments**: intervals labelled with the surgical-training task being performed;
- **participant markers**: intervals in which a card naming a participant or an expert is held up to the camera.

The project also models the pieces around that core. These are the
annotation entities and how they are stored and versioned on disk, the
video registry, clip export and its summaries, configuration, batch
sizing, and the small formatting and naming helpers.

Each source file of the core has its own Dafny module. Where the source
mutates state step by step, the model uses methods with loops. Each such
method is proved against a specification function, and the properties the
source promises are proved as lemmas about that function:

- `VideoInference` covers the three frame-level stages:
  - windowed argmax smoothing over prefix sums, on a score matrix and a prefix matrix held in `array2`;
  - the `while changed` enforcer of a minimum run duration, which mutates a `tasks` array in place;
  - the scan that aggregates frames into contiguous time ranges.
- `LabelRuns` holds the maximal-run partition and the boundary count. The boundary count is the enforcer's termination measure.
- `CardText` holds the Levenshtein distance (a recursive definition, and the row-by-row DP proved equal to it) and the card parser (a method with nested loops, against a search function). `CardExamples` proves the unit-test strings.
- `CardSessions` holds the session/timeout state machine that both participant detectors share.
  - `ParticipantDetector` is the app's detector: the frame reader, the scene-change skip and the sentinel tail.
  - `LegacyDetector` is the older single-loop script, which has no tail.
  - `FrameSource` covers the frame stream.
- `Annotation` holds the entities with their dictionary round trips and the participant-for-task query.
- `AnnotationRepository` covers version naming, numbering and deletion, over a given directory listing.
- `VideoRepository` is a class whose `cache` sequence the operations update, with a registry file that is written back.
- `VideoExporter` covers clip naming and index allocation. `ExportService` with `Tally` covers the export summaries.
- `VideoProcessor` is the pipeline that assembles an annotation.
- `AppConfig`, `BatchOptimiser`, `VideoUtils`, `VideoItems`, `Constants` and `DomainResult` model the rest.
- `Text`, `Numeric`, `Sorting` and `Optional` are shared helpers:
  - decimal printing and parsing, padding, splitting;
  - floor, truncation, rounding and clamping on `real`;
  - insertion sort;
  - the optional type.

Times, confidences and memory sizes are `real`. Python's `int()` of a float
is truncation toward zero (`Numeric.Trunc`), and `//` and `%` on floats
are floor division and the floored remainder (`Numeric.Mod`).

The things the system reads from outside are inputs to the model:

- the model's label vocabulary;
- per-frame OCR texts;
- per-frame "similar to the previous frame" flags;
- per-frame "can be read" flags;
- the capture's properties;
- the directory listing;
- the set of existing files;
- whether ffmpeg, a file write or an unlink succeeds.

The model follows what the code does, including where its own comments
or its names suggest otherwise:

- **Which run the enforcer relabels.** The comment at processing/scripts/video_inference/video_inference.py:181 says the loop merges "the shortest sub-minimum segment". The code relabels the *leftmost* sub-minimum run that has a neighbour, then starts again. `VideoInference.FirstMergeFrom` states that choice.
- **Frames skipped by the scene-change rule.** `_ocr_frames` (app/processing/participant_detector.py:105-109) yields the previous parse result for a frame close to the previous one, but only while no card is showing. So a skipped frame always yields "no card". `ParticipantDetector.OcrSamplesSpec` proves this.
- **Frames that fail to decode.** In `_read_frames` (app/processing/participant_detector.py:76-84) the first frame that cannot be grabbed or read ends the stream. No later frame is looked at (`FrameSource.FirstFail`).
- **Where the time ranges start.** `aggregate_time_ranges` (processing/scripts/video_inference/video_inference.py:232-234) starts the first range at the first frame's time, not at 0. Each range ends where the next begins, as the comment at line 239 says (`VideoInference.RangesContiguous`).
- **Closing open sessions.** The synthetic tail (app/processing/participant_detector.py:152) is `card_timeout_frames` empty results. It closes an open session only when `card_timeout_frames` is positive, which is the precondition of `CardSessions.SentinelClosesSession`.
- **Marker durations.** The code rounds a marker's duration to hundredths.
- **Window size 1.** Under a window of size 1 the code keeps a frame's own label only when its confidence is positive. With confidence 0 every window sum is 0, and `np.argmax` picks the first vocabulary entry (`VideoInference.NoSmoothingKeepsLabel`).

Two further points follow the code as written:

- **Numbers with leading zeros.** `delete_all_versions` rebuilds each file name from the parsed version number, so a file such as `clip_annotations_v007.json` is counted as version 7. It is never deleted, because the name rebuilt for it is `..._v7.json`. `AnnotationRepository.DeleteAllCanonical` states what happens when every listed file has the rebuilt name.
- **Saving a new version.** `save` with `create_new_version` takes `(latest or 1) + 1`, so a latest version of 0 also gives 2.

## Model

| member | source | states |
|---|---|---|
| DomainResult.Result.Unwrap | app/domain/result.py:24-51 | returns the value exactly on `Ok`; on `Err` it raises `ValueError` |
| DomainResult.Result.UnwrapErr | app/domain/result.py:30-57 | returns the error exactly on `Err`; on `Ok` it raises `ValueError` |
| DomainResult.Result.UnwrapOr | app/domain/result.py:27-54 | the held value on `Ok`, the default on `Err` |
| DomainResult.Result.Map | app/domain/result.py:33-60 | applies the function to a success value and leaves an error as it is |
| DomainResult.Result.MapErr | app/domain/result.py:36-63 | applies the function to an error and leaves a success as it is |
| DomainResult.MatchResult | app/domain/result.py:71-77 | calls the success handler on `Ok` and the error handler on `Err` |
| DomainResult.OkXorErr | app/domain/result.py:18-48 | every result is exactly one of `is_ok` and `is_err` |
| DomainResult.MapCompose | app/domain/result.py:33-60 | mapping twice equals mapping once by the composed function |
| DomainResult.MapMapErrCommute | app/domain/result.py:33-63 | `map` and `map_err` commute |
| DomainResult.MatchAfterMap | app/domain/result.py:33-77 | matching a mapped result equals matching with the composed success handler |
| DomainResult.UnwrapOrAgrees | app/domain/result.py:24-54 | `unwrap_or` returns what `unwrap` returns whenever `unwrap` does not raise, and the default otherwise |
| VideoProcessor.ParseTimestamp | app/processing/video_processor.py:131-146 | anything but three ':'-separated parts raises `ValueError`; a returned value is never negative |
| VideoProcessor.ParseTimestampFields | app/processing/video_processor.py:133-144 | "h:m:s" parses exactly when h and m read as non-negative integers and s as a non-negative decimal, and the value is h·3600 + m·60 + s |
| VideoProcessor.ParseFormatted | app/processing/video_processor.py:131-144 | a timestamp rendered by `format_timestamp` from a non-negative time parses back to that time within half a millisecond |
| VideoProcessor.ParseFormattedNegative | app/processing/video_processor.py:141-142 | a rendering of a negative time has negative hours and is refused |
| VideoProcessor.ParseCombined | app/processing/video_processor.py:137-144 | "02:30:45" parses to 9045 seconds |
| VideoProcessor.ParseTwoFields | app/processing/video_processor.py:133-135 | a string with two ':'-separated parts is refused |
| VideoProcessor.ParseFourFields | app/processing/video_processor.py:133-135 | a string with four ':'-separated parts is refused |
| VideoProcessor.ParticipantProgress | app/processing/video_processor.py:102-105 | 50 + trunc(current/total·50) lies in [50, 100] for 0 ≤ current ≤ total, is 100 at the end and 50 at the start |
| VideoProcessor.ProgressMonotone | app/processing/video_processor.py:102-105 | more frames done never reports less progress |
| VideoProcessor.ProgressExample | app/processing/video_processor.py:102-105 | 25 of 50 frames reports 75 |
| VideoProcessor.SegmentOf | app/processing/video_processor.py:89-97 | a segment takes its range's task name and mean confidence, and its times from the parsed start and end strings |
| VideoProcessor.SegmentsOf | app/processing/video_processor.py:89-97 | one segment per time range, in order, or `ValueError` when any timestamp fails to parse |
| VideoProcessor.Collect | app/processing/video_processor.py:89-97 | the list comprehension over conversions: the values in order, one per element, or an error only when some element raised |
| VideoProcessor.SegmentsOfNonNegative | app/processing/video_processor.py:89-97 | ranges with non-negative times always convert, each segment within half a millisecond of its range's start and end |
| VideoProcessor.MarkersOf | app/processing/video_processor.py:112-121 | one marker per detection, in order |
| VideoProcessor.DetectorPercentages | app/processing/video_processor.py:102-105 | a projection: each detector progress report becomes ("Detecting participants", participant progress); the bounds are those of `ParticipantProgress` |
| VideoProcessor.ProcessVideo | app/processing/video_processor.py:47-128 | a metadata error stops the run with no progress report; a bad timestamp stops it after "Analysing tasks"; a detector error stops it after the 50% report; otherwise the annotation has the metadata, the segments, one marker per detection and `processed` set, and the reports are 0, 50, the detector's and 100 |
| VideoProcessor.DetectStage | app/processing/video_processor.py:99-128 | after the 50% report: a detector error stops the run with no further report; otherwise the annotation gets one marker per detection, field for field, and `processed` set, and the reports are the detector's percentages then 100 |
| Numeric.Clamp | app/processing/batch_optimiser.py:66 | `max(lo, min(x, hi))` lies in [lo, hi] and is x when x is already there |
| BatchOptimiser.ClassifierBatchSize | app/processing/batch_optimiser.py:52-85 | on the GPU path (asked for and GPU memory > 0) the size lies in [8, 128], otherwise in [4, 32]; inside the range it is the truncated estimate of its path |
| BatchOptimiser.OcrBatchSize | app/processing/batch_optimiser.py:103-134 | on the GPU path the size lies in [4, 32], otherwise in [2, 8]; inside the range it is the truncated estimate of its path |
| BatchOptimiser.GpuWithoutMemoryFallsBack | app/processing/batch_optimiser.py:54-105 | asking for the GPU when it reports no memory gives the CPU sizes for both models |
| BatchOptimiser.BatchSizesMonotone | app/processing/batch_optimiser.py:57-131 | on a fixed path, more memory never gives a smaller batch |
| BatchOptimiser.SmallMachine | app/processing/batch_optimiser.py:73-131 | with 0.5 GB of RAM and no GPU the classifier batch is 20 and the OCR batch is the floor of 2 |
| BatchOptimiser.LargeGpu | app/processing/batch_optimiser.py:57-117 | an 8 GB GPU gives the caps 128 and 32 |
| Annotation.AsReal | app/models/annotation.py:33-34 | a `float` field accepts a JSON float or integer, and holds the number it denotes |
| Annotation.TaskSegment.Duration | app/models/annotation.py:17-19 | start + duration = end, and the duration is positive exactly when start < end |
| Annotation.TaskSegment.ToDict | app/models/annotation.py:21-27 | the dictionary has exactly the four keys task_name, start_time, end_time and confidence |
| Annotation.SegmentFromDict | app/models/annotation.py:29-36 | a missing task name, start or end is an error; each field read is the dictionary's value; a missing confidence defaults to 1.0 |
| Annotation.SegmentRoundTrip | app/models/annotation.py:21-36 | `from_dict(to_dict(s))` gives back s |
| Annotation.ParticipantMarker.Label | app/models/annotation.py:47-49 | the label starts with the type, and the rest reads back as the number |
| Annotation.ParticipantMarker.ToDict | app/models/annotation.py:51-58 | the dictionary has exactly the five keys of the marker's fields |
| Annotation.MarkerFromDict | app/models/annotation.py:60-68 | a missing type, number or timestamp is an error; each field read is the dictionary's value; duration defaults to 0.0 and confidence to 1.0 |
| Annotation.MarkerRoundTrip | app/models/annotation.py:51-68 | `from_dict(to_dict(m))` gives back m |
| Annotation.SegmentsToValues | app/models/annotation.py:124 | one dictionary per segment, in order |
| Annotation.SegmentsFromValues | app/models/annotation.py:149-152 | a successful read gives one segment per item |
| Annotation.SegmentsRoundTrip | app/models/annotation.py:124-152 | reading back the written segment list gives the same list |
| Annotation.MarkersToValues | app/models/annotation.py:125 | one dictionary per marker, in order |
| Annotation.MarkersFromValues | app/models/annotation.py:154-157 | a successful read gives one marker per item |
| Annotation.MarkersRoundTrip | app/models/annotation.py:125-157 | reading back the written marker list gives the same list |
| Annotation.VideoAnnotation.ToDict | app/models/annotation.py:113-130 | the nested layout has its eight top-level keys, and `modified_at` is the time of writing |
| Annotation.VideoAnnotation.GetParticipantForTask | app/models/annotation.py:91-111 | the answer is None exactly when the annotation has no markers |
| Annotation.Fresh | app/models/annotation.py:72-89 | a new annotation has version 1, duration 0, 30 fps, no frames, no segments or markers, is unprocessed and has model version "1.0" |
| Annotation.MetadataFromDict | app/models/annotation.py:134-144 | an absent metadata part gives duration 0.0, 30 fps and 0 frames |
| Annotation.ProcessingFromDict | app/models/annotation.py:135-146 | an absent processing part gives unprocessed and model version "1.0" |
| Annotation.SegmentsFromDict | app/models/annotation.py:149-152 | an absent segment list reads as empty |
| Annotation.MarkersFromDict | app/models/annotation.py:154-157 | an absent marker list reads as empty |
| Annotation.AnnotationFromDict | app/models/annotation.py:132-159 | a missing video path is an error; every absent key takes its default as listed in the constructor |
| Annotation.AnnotationRoundTrip | app/models/annotation.py:113-159 | reading back what `to_dict` wrote gives the annotation again, with `modified_at` set to the time of writing |
| Annotation.HeaderRoundTrip | app/models/annotation.py:114-141 | path, version and creation time read back as written, and the modification time reads as the time of writing |
| Annotation.PartsRoundTrip | app/models/annotation.py:119-157 | metadata, processing status, segments and markers read back as written |
| Annotation.MinimalDictIsFresh | app/models/annotation.py:132-159 | a dictionary holding only the video path reads as a fresh annotation |
| Annotation.LatestAtOrBefore | app/models/annotation.py:95-100 | the index of the first marker with the largest timestamp at or before t, or -1 exactly when every marker is after t |
| Annotation.EarliestAfter | app/models/annotation.py:103-108 | the index of the first marker with the smallest timestamp after t, or -1 exactly when none is after t |
| Annotation.ParticipantFor | app/models/annotation.py:91-111 | the answer is None exactly when there are no markers |
| Annotation.ParticipantBefore | app/models/annotation.py:95-101 | when some marker is at or before the start, the answer is the label of the first one with the largest such timestamp, whatever markers come after |
| Annotation.ParticipantAfter | app/models/annotation.py:103-109 | when every marker is after the start, the answer is the label of the first one with the smallest timestamp |
| Annotation.LabelExamples | app/models/annotation.py:47-49 | labels "P1" and "E3" |
| VideoExporter.ToExport | app/utils/video_exporter.py:23-26 | a subsequence of the segments holding exactly those whose lowercased name is not "idle" |
| VideoExporter.ClipLabel | app/utils/video_exporter.py:38-40 | the participant label found for the segment, or "None" when there are no markers or the label is empty |
| VideoExporter.FirstFree | app/utils/video_exporter.py:52-63 | the first index from the start, within the budget, whose clip path does not exist, with every earlier candidate existing; None exactly when all candidates exist |
| VideoExporter.ExportSegment | app/utils/video_exporter.py:85-91 | a clip is produced exactly when the segment has positive duration and ffmpeg succeeds |
| VideoExporter.Step | app/utils/video_exporter.py:37-78 | one loop pass adds at most one exported path and never removes an existing file |
| VideoExporter.StepTagged | app/utils/video_exporter.py:42-78 | one loop pass with the participant label known adds at most one exported path and never removes an existing file |
| VideoExporter.ExportAllSegments | app/utils/video_exporter.py:22-83 | the loop returns the exported paths and progress reports the fold `ExportAll` describes |
| VideoExporter.FindFreeIndex | app/utils/video_exporter.py:52-63 | the retry loop stops below 10000 tries exactly when a free candidate exists, and then at the first one |
| VideoExporter.AllIdleExportsNothing | app/utils/video_exporter.py:28-29 | when every segment is idle nothing is exported and nothing is reported |
| VideoExporter.LastReportIsComplete | app/utils/video_exporter.py:80-81 | the last progress report is (total, total, "Export complete") |
| VideoExporter.StepKeepsFresh | app/utils/video_exporter.py:55-76 | one pass keeps every exported clip new, present and distinct from the others |
| VideoExporter.RunKeepsFresh | app/utils/video_exporter.py:37-78 | the whole loop keeps the exported clips new, present and pairwise distinct |
| VideoExporter.ExportedPathsFresh | app/utils/video_exporter.py:22-83 | no exported clip is a file that existed before, and no two exported clips share a path |
| VideoExporter.NewKeyStartsAtOne | app/utils/video_exporter.py:47-59 | an unseen (task, label) pair whose first name is free gets index 1, and its next index becomes 2 |
| VideoExporter.SeenKeyContinues | app/utils/video_exporter.py:49-59 | a pair seen before continues from its stored index n, and its next index becomes n + 1 |
| VideoExporter.CollisionTakesNext | app/utils/video_exporter.py:54-63 | with index 1 taken and 2 free, the clip gets index 2 and the next index becomes 3 |
| VideoExporter.ExhaustedSkips | app/utils/video_exporter.py:65-67 | when all 10000 candidates exist the segment is skipped with no change and no report |
| VideoExporter.NonPositiveDurationNotExported | app/utils/video_exporter.py:87-91 | a segment whose end is not after its start is never exported |
| Tally.TotalMerge | app/core/services/export_service.py:80-84 | merging two tallies key by key adds their totals |
| Tally.TotalIncrement | app/core/services/export_service.py:57 | counting one more occurrence of a task adds one to the total |
| Tally.TotalUpdate | app/core/services/export_service.py:57 | storing v at a key changes the total by v minus what was stored there |
| Tally.SumAtRemove | app/core/services/export_service.py:62 | `sum(values())` does not depend on the order the keys are visited in |
| Tally.Merge | app/core/services/export_service.py:83-84 | the merged tally has the keys of both, and each count is the sum of the two counts |
| ExportService.TaskCountsCount | app/core/services/export_service.py:55-57 | a task is in the tally exactly when it has a non-idle segment, and its count is the number of its non-idle segments |
| ExportService.TaskCountsTotal | app/core/services/export_service.py:55-62 | the counts add up to the number of clips the exporter cuts |
| ExportService.ExportedDurationOfClips | app/core/services/export_service.py:55-59 | the total duration is the summed length of the clips the exporter cuts, idle segments excluded |
| ExportService.AllIdleSummary | app/core/services/export_service.py:52-65 | an annotation with only idle segments gives 0 clips, an empty tally and duration 0 |
| ExportService.SumValues | app/core/services/export_service.py:62 | the loop sums every value of the tally |
| ExportService.GetExportSummary | app/core/services/export_service.py:41-68 | no annotation gives `Err`; otherwise `Ok` with the tally and duration of the non-idle segments and the tally's sum as the total |
| ExportService.MergeInto | app/core/services/export_service.py:83-84 | `combined[task] = combined.get(task, 0) + count` over every entry gives the key-by-key merge |
| ExportService.GetBatchExportSummary | app/core/services/export_service.py:70-93 | always `Ok`: the summaries of the videos that have an annotation added up, in order |
| ExportService.BatchTotalIsClips | app/core/services/export_service.py:75-81 | the batch total is the number of clips of the annotated videos |
| ExportService.BatchTotalIsSumOfCounts | app/core/services/export_service.py:80-84 | the batch total equals the sum of the merged tally |
| ExportService.BatchCountsPerTask | app/core/services/export_service.py:83-84 | each task's merged count is the number of its clips across the annotated videos |
| ExportService.NoAnnotationsNoClips | app/core/services/export_service.py:75-78 | a batch in which no video has an annotation gives 0 clips, an empty tally and duration 0 |
| ExportService.LinesAt | app/core/services/export_service.py:29-30 | line k is "  • task: count clip(s)" for the k-th task |
| ExportService.LeastExists | app/core/services/export_service.py:29 | a non-empty set of task names has a least one in string order |
| ExportService.SortedKeysHead | app/core/services/export_service.py:29 | the sorted listing starts with the least task name |
| ExportService.SortedKeysSpec | app/core/services/export_service.py:29 | `sorted` lists every task name exactly once, in strictly ascending order |
| ExportService.GetBreakdownText | app/core/services/export_service.py:27-31 | the text is the lines of the tasks in sorted order, joined by newlines |
| ExportService.EmptyBreakdown | app/core/services/export_service.py:27-31 | an empty tally gives the empty text |
| ExportService.LineNoNewline | app/core/services/export_service.py:30 | a line holds no newline when the task name holds none |
| ExportService.BreakdownSplits | app/core/services/export_service.py:27-31 | splitting the text at newlines gives back exactly one line per task |
| ExportService.BreakdownExample | app/core/services/export_service.py:27-31 | the tally {Walk: 2, Sit: 1} gives the lines for Sit then Walk |
| Sorting.StrLeTotal | app/core/services/export_service.py:29 | Python's string order is total |
| Sorting.StrLeAntisymmetric | app/core/services/export_service.py:29 | strings ordered both ways are equal |
| VideoRepository.IndexOfPath | app/infrastructure/repositories/video_repository.py:108-109 | the position of the first entry with the path, or -1 exactly when no entry has it |
| VideoRepository.AddedTo | app/infrastructure/repositories/video_repository.py:105-116 | an existing path is replaced in place with length and other entries unchanged; a new path is appended; unique paths stay unique |
| VideoRepository.Without | app/infrastructure/repositories/video_repository.py:122 | the filtered list is never longer than the original |
| VideoRepository.WithStatus | app/infrastructure/repositories/video_repository.py:138-149 | only the first entry with the path changes: its processed flag is set, its version changes only when one is given, every other field and entry is untouched; an unknown path changes nothing |
| VideoRepository.Registry.constructor | app/infrastructure/repositories/video_repository.py:31-34 | a new repository has no cache, and its list is what loading the registry file gives |
| VideoRepository.Registry.EnsureCache | app/infrastructure/repositories/video_repository.py:70-73 | the cache is filled from disk on first use and kept afterwards |
| VideoRepository.Registry.Persist | app/infrastructure/repositories/video_repository.py:75-99 | the registry file holds the list exactly when the write succeeds, and the result says so |
| VideoRepository.Registry.GetAll | app/infrastructure/repositories/video_repository.py:101-103 | returns the whole list and changes nothing in it |
| VideoRepository.Registry.Add | app/infrastructure/repositories/video_repository.py:105-116 | the cache becomes the list with the item replaced or appended, and it is written back |
| VideoRepository.Registry.Remove | app/infrastructure/repositories/video_repository.py:118-129 | the cache loses every entry for the path; the result is false exactly when nothing was removed or the write failed; nothing is written when nothing was removed |
| VideoRepository.Registry.FindByPath | app/infrastructure/repositories/video_repository.py:131-136 | returns the first entry with the path, or None, and changes nothing |
| VideoRepository.Registry.UpdateStatus | app/infrastructure/repositories/video_repository.py:138-149 | the cache gets the new status for the path; an unknown path gives false and writes nothing |
| VideoRepository.Registry.ClearAll | app/infrastructure/repositories/video_repository.py:151-154 | the cache becomes empty and an empty registry is written |
| VideoRepository.AddsKeepUnique | app/infrastructure/repositories/video_repository.py:105-116 | after any sequence of adds to an empty registry no two entries share a path |
| VideoRepository.LoadedKeepsExisting | app/infrastructure/repositories/video_repository.py:46-58 | loading keeps exactly the stored entries with a non-empty path whose file exists |
| VideoRepository.FindAfterAdd | app/infrastructure/repositories/video_repository.py:105-136 | after adding an item, finding its path gives that item |
| VideoRepository.WithoutKeepsOthers | app/infrastructure/repositories/video_repository.py:122 | `remove` keeps exactly the entries for other paths |
| VideoRepository.WithoutShrinksIff | app/infrastructure/repositories/video_repository.py:124-129 | the list gets shorter exactly when some entry had the path |
| VideoRepository.WithoutIsSubsequence | app/infrastructure/repositories/video_repository.py:122 | the kept entries are the list comprehension's, in their original order |
| VideoRepository.FindAfterRemove | app/infrastructure/repositories/video_repository.py:118-136 | after a removal the path is not found, and every other path finds what it found before |
| VideoRepository.FindAfterUpdate | app/infrastructure/repositories/video_repository.py:131-149 | after `update_status`, finding the path gives the entry with the new flag, and the new version when one was given |
| AnnotationRepository.Versions | app/infrastructure/repositories/annotation_repository.py:53-59 | the glob loop collects at most one version per listed file |
| AnnotationRepository.MaxOf | app/infrastructure/repositories/annotation_repository.py:61 | None exactly for no versions; otherwise a collected version that no other exceeds |
| AnnotationRepository.CollectVersions | app/infrastructure/repositories/annotation_repository.py:51-59 | the loop's list is every parsable matching file's version, in listing order |
| AnnotationRepository.FindLatestVersion | app/infrastructure/repositories/annotation_repository.py:44-61 | the result is the largest version of a matching file, or None when there is none |
| AnnotationRepository.ListVersions | app/infrastructure/repositories/annotation_repository.py:133-149 | the result is ascending and holds exactly the collected versions, repeats included |
| AnnotationRepository.SaveVersion | app/infrastructure/repositories/annotation_repository.py:99-107 | a new version is one past the latest, with a missing or zero latest counting as 1; otherwise the annotation's own version, or 1 when it has none |
| AnnotationRepository.Save | app/infrastructure/repositories/annotation_repository.py:97-131 | a successful save gives the annotation with its version set and the path for that version, and that file then appears in the directory; a failed write gives an error naming the path and leaves the directory unchanged |
| AnnotationRepository.DeleteRun | app/infrastructure/repositories/annotation_repository.py:155-163 | the count is the number of distinct files removed, all of them from the listing |
| AnnotationRepository.DeleteAllVersions | app/infrastructure/repositories/annotation_repository.py:151-168 | always Ok, with the count of files the loop removed, and the listing then lacks exactly those files |
| AnnotationRepository.NoSlashFileName | app/infrastructure/repositories/annotation_repository.py:35 | a name without a slash is its own file name |
| AnnotationRepository.IntToStringNoUnderscore | app/infrastructure/repositories/annotation_repository.py:42 | a printed version has no underscore, slash or dot in it |
| AnnotationRepository.AfterLastStep | app/infrastructure/repositories/annotation_repository.py:55 | what follows the last separator grows by the last character when the string does not end with the separator |
| AnnotationRepository.AfterLastMarker | app/infrastructure/repositories/annotation_repository.py:55 | splitting `x + "_v" + d` on `_v` ends in `d` whenever `d` has no underscore |
| AnnotationRepository.JsonStem | app/infrastructure/repositories/annotation_repository.py:55 | the stem of `stem.json` is `stem` |
| AnnotationRepository.VersionOfAnnotationName | app/infrastructure/repositories/annotation_repository.py:42-56 | the file `save` writes for version v is matched by the glob and reads back as v |
| AnnotationRepository.GlobMatchesName | app/infrastructure/repositories/annotation_repository.py:42-53 | every versioned annotation name matches the search pattern |
| AnnotationRepository.StemOfName | app/infrastructure/repositories/annotation_repository.py:42-55 | the stem of a versioned annotation name is the name without `.json` |
| AnnotationRepository.LatestIsLastListed | app/infrastructure/repositories/annotation_repository.py:61-149 | the latest version is the last element of the sorted version list |
| AnnotationRepository.NewVersionIsNext | app/infrastructure/repositories/annotation_repository.py:102 | a new version after v is v + 1, and the first new version is 2 |
| AnnotationRepository.SaveVersionExamples | app/infrastructure/repositories/annotation_repository.py:99-107 | saving v1 as new gives v2; no version saves as v1; without a new version the annotation's own version is kept |
| AnnotationRepository.DeleteCountBound | app/infrastructure/repositories/annotation_repository.py:155-160 | the count never exceeds the number of versions listed |
| AnnotationRepository.NothingToDelete | app/infrastructure/repositories/annotation_repository.py:158-163 | when no version's file exists or every unlink fails, nothing is removed and the count is 0 |
| AnnotationRepository.DeleteAllCanonical | app/infrastructure/repositories/annotation_repository.py:151-168 | when every version's file exists and can be removed, the count equals the number of distinct versions and exactly their files are removed |
| AnnotationRepository.DeletedNamesStep | app/infrastructure/repositories/annotation_repository.py:155-160 | the removed files are exactly those of the versions handled so far, one more after each step |
| AnnotationRepository.AnnotationFileNameInjective | app/infrastructure/repositories/annotation_repository.py:42 | two versions share an annotation file name only when they are equal |
| Sorting.Sort | app/infrastructure/repositories/annotation_repository.py:149 | the result is sorted and is a permutation of the input |
| AppConfig.PostInit | app/core/config/app_config.py:53-58 | an empty model path or log file path takes the project's path; a non-empty one, and every other field, is kept |
| AppConfig.New | app/core/config/app_config.py:17-58 | construction fails exactly when a keyword is not a field; a successful one has a non-empty model path whenever the project path is non-empty |
| AppConfig.Default | app/core/config/app_config.py:24-58 | the configuration built from no keywords: the documented defaults, no device, the project's paths |
| AppConfig.Filtered | app/core/config/app_config.py:72-73 | the filtered dictionary keeps exactly the keys that are field names, with their values |
| AppConfig.Load | app/core/config/app_config.py:60-79 | no file or text that is not JSON gives the defaults; a parsed object gives the configuration of its fields; only a parsed document that is not an object fails |
| AppConfig.FieldsOfFiltered | app/core/config/app_config.py:72-75 | dropping unknown keys leaves every field's value as it was |
| AppConfig.LoadIgnoresUnknown | app/core/config/app_config.py:72-75 | adding a key that is not a field to the file changes nothing about what is loaded |
| AppConfig.AsDictKeys | app/core/config/app_config.py:87 | the saved document has one key per field and no other |
| AppConfig.SaveLoadRoundTrip | app/core/config/app_config.py:81-92 | loading the document `save` writes gives back the same configuration, for configurations whose paths are set |
| AppConfig.LoadFiltersUnknownExample | app/core/config/app_config.py:72-75 | a file with `sample_every` 10 and two unknown keys loads with `sample_every` 10 and the other defaults |
| AppConfig.IsLogLevel | app/core/config/app_config.py:124-125 | a level is accepted when its upper-case form is one of the five standard names |
| AppConfig.ErrorAt | app/core/config/app_config.py:100-126 | the error each check reports sits at that check's position in the order |
| AppConfig.Validate | app/core/config/app_config.py:100-128 | the list built is the errors of the failed checks, in order |
| AppConfig.ErrorsUpToMembers | app/core/config/app_config.py:100-126 | among the first k checks, an error is listed exactly when its check fails and it reports the configuration's value |
| AppConfig.ErrorsUpToOrdered | app/core/config/app_config.py:100-126 | the errors of the first k checks come from those checks, in their order |
| AppConfig.ErrorListedIff | app/core/config/app_config.py:100-128 | an error is in the result exactly when its check fails, carrying the configuration's value |
| AppConfig.ErrorsInOrder | app/core/config/app_config.py:100-128 | at most eight errors, in the order the checks run, none repeated |
| AppConfig.RanksBound | app/core/config/app_config.py:100-128 | strictly increasing check positions below 8 allow at most eight errors |
| AppConfig.RankAtLeast | app/core/config/app_config.py:100-128 | in a strictly increasing list of positions the i-th is at least i |
| AppConfig.ErrorsPerCheck | app/core/config/app_config.py:103-126 | each of the eight errors is listed exactly when its own condition holds: missing model file, `sample_every < 1`, `smoothing_window < 1`, `min_duration_sec < 0`, threshold outside [0, 1], a thumbnail side below 1, a window below 800x600, a log level that is not a standard name |
| AppConfig.ErrorsEmptyIffValid | app/core/config/app_config.py:100-128 | the list is empty exactly when every check passes |
| AppConfig.DefaultIsValid | app/core/config/app_config.py:24-51 | the default configuration has no errors once its model file exists |
| AppConfig.LogLevelIgnoresCase | app/core/config/app_config.py:124-125 | "warning" is accepted and "INVALID" is not |
| AppConfig.Message | app/core/config/app_config.py:104-126 | each error's message starts with the field or subject it is about |
| VideoInference.Labels | processing/scripts/video_inference/video_inference.py:178 | a projection: the `tasks` list, one smoothed label per row, in order |
| VideoInference.Times | processing/scripts/video_inference/video_inference.py:179 | a projection: the `times` list, one frame time per row, in order |
| VideoInference.FormatTimestamp | processing/scripts/video_inference/video_inference.py:61-65 | the timestamp text; its fields are stated by FormatTimestampFields |
| VideoInference.SecondsTextParse | processing/scripts/video_inference/video_inference.py:64-65 | the seconds field reads back as the seconds rounded to the millisecond, within half a millisecond of the value |
| VideoInference.MillisSplit | processing/scripts/video_inference/video_inference.py:65 | whole seconds plus thousandths recompose the millisecond count |
| VideoInference.PaddedFixedValue | processing/scripts/video_inference/video_inference.py:65 | a zero-padded whole part with three fraction digits denotes w + f/1000 |
| VideoInference.FormatTimestampFields | processing/scripts/video_inference/video_inference.py:61-65 | the text splits at ':' into the two-digit hours (floor of t/3600), the two-digit minutes in [0, 60) and the seconds field of `t % 60`; the three recompose t |
| VideoInference.BestIndexIsArgMax | processing/scripts/video_inference/video_inference.py:166 | `np.argmax`: the returned index scores at least as much as every index and strictly more than every earlier one, so ties go to the lowest index |
| VideoInference.MemberNonEmpty | processing/scripts/video_inference/video_inference.py:151-156 | a vocabulary containing some frame's label is non-empty |
| VideoInference.PrefixDifference | processing/scripts/video_inference/video_inference.py:159-164 | a difference of prefix sums is the direct sum of the scores between the two rows |
| VideoInference.WindowScoreIsSum | processing/scripts/video_inference/video_inference.py:162-164 | for a non-negative half width, the window sum is the label's confidence summed over the frames in [max(0, i - half), min(n, i + half + 1)), a range containing i |
| VideoInference.WindowSumAbsent | processing/scripts/video_inference/video_inference.py:154-164 | frames with other labels add nothing to a label's window sum |
| VideoInference.WindowSumPositive | processing/scripts/video_inference/video_inference.py:154-164 | a non-empty window of confident frames of one label gives that label a positive sum |
| VideoInference.StrictWinner | processing/scripts/video_inference/video_inference.py:164-167 | a label whose window sum beats every other label's is the smoothed label |
| VideoInference.SmoothedLabelIsBest | processing/scripts/video_inference/video_inference.py:164-167 | the smoothed label is in the vocabulary and scores at least as much as every other label |
| VideoInference.UniformWindowKeepsLabel | processing/scripts/video_inference/video_inference.py:162-167 | a window whose frames all carry one label confidently is smoothed to that label |
| VideoInference.NoSmoothingKeepsLabel | processing/scripts/video_inference/video_inference.py:150-167 | with half width 0 (window 1 or 2) a confident frame keeps its own label |
| VideoInference.NegativeWindowFlipsLabel | processing/scripts/video_inference/video_inference.py:150-167 | with half width -1 (window -1 or -2) a confident frame is relabelled with another vocabulary entry |
| VideoInference.IndexOf | processing/scripts/video_inference/video_inference.py:151 | `task_to_idx`: the position of a label in the vocabulary |
| VideoInference.SmoothPredictions | processing/scripts/video_inference/video_inference.py:143-171 | empty input gives empty output; otherwise one row per input row, each row unchanged with its smoothed label added, that label being the argmax of the window sums of half width `window // 2` |
| VideoInference.SmoothRows | processing/scripts/video_inference/video_inference.py:162-170 | each frame's smoothed label is the argmax read from the prefix matrix |
| VideoInference.ScoreMatrix | processing/scripts/video_inference/video_inference.py:154-156 | the score matrix holds each frame's confidence in its own label's column and 0 elsewhere |
| VideoInference.PrefixSums | processing/scripts/video_inference/video_inference.py:159-160 | row r of the prefix matrix is each label's total score over the first r frames, with a zero first row |
| VideoInference.AccumulateRow | processing/scripts/video_inference/video_inference.py:159-160 | row i + 1 of the prefix matrix becomes row i plus frame i's scores, for every label, leaving rows 0..i correct and later rows untouched |
| VideoInference.WindowArgMax | processing/scripts/video_inference/video_inference.py:164-166 | the index picked for a frame is the argmax over the window sums |
| VideoInference.WithLabels | processing/scripts/video_inference/video_inference.py:221-222 | a projection: the copied rows keep every column except the smoothed label, which takes the new list |
| VideoInference.MergeLabel | processing/scripts/video_inference/video_inference.py:198-214 | the merge label exists exactly when a neighbour exists (absent ones count as -1); it is the left neighbour's when the left duration is at least the right one and non-negative, otherwise the right neighbour's |
| VideoInference.FirstMergeFrom | processing/scripts/video_inference/video_inference.py:194-219 | the run relabelled is the leftmost run below the minimum that has a neighbour, and it takes that run's merge label; none exists exactly when no run qualifies |
| VideoInference.StepLowers | processing/scripts/video_inference/video_inference.py:182-219 | each relabelling keeps the length and strictly lowers the number of label boundaries |
| VideoInference.EnforceLabels | processing/scripts/video_inference/video_inference.py:182-219 | the passes repeated until none applies keep the number of frames |
| VideoInference.EnforceUnfold | processing/scripts/video_inference/video_inference.py:182-219 | a labelling no pass applies to is final; otherwise the result is that of the next pass |
| VideoInference.EnforceFixpoint | processing/scripts/video_inference/video_inference.py:182-219 | the result has the input's length and no further pass applies to it |
| VideoInference.EnforceKeepsLabels | processing/scripts/video_inference/video_inference.py:216-217 | every label of the result is a label of some input frame |
| VideoInference.LongRunsUnchanged | processing/scripts/video_inference/video_inference.py:195-196 | a labelling whose runs all last at least the minimum comes back unchanged |
| VideoInference.EnforceResult | processing/scripts/video_inference/video_inference.py:182-219 | with non-decreasing frame times, the enforcer ends with a single run or with every run lasting at least the minimum |
| VideoInference.EnforceMinDuration | processing/scripts/video_inference/video_inference.py:174-223 | fewer than two frames come back unchanged; otherwise every column is kept and the labels become the fixpoint of the passes |
| VideoInference.MergeFirstShort | processing/scripts/video_inference/video_inference.py:194-219 | a pass relabels exactly when some run qualifies, and then `tasks` becomes that pass's labelling; otherwise it is unchanged |
| VideoInference.Segments | processing/scripts/video_inference/video_inference.py:186-192 | the segment list is the maximal runs of equal labels, in order |
| VideoInference.RelabelRun | processing/scripts/video_inference/video_inference.py:216-217 | frames s to e take the merge label and no other frame changes |
| VideoInference.Confidences | processing/scripts/video_inference/video_inference.py:235-253 | a projection: the raw confidence of every row, in order |
| VideoInference.RangesOf | processing/scripts/video_inference/video_inference.py:242-261 | a projection: one table row per run, in order; what the rows mean is stated by `AggregateTimeRanges` and `RangesContiguous` |
| VideoInference.ScanFromRuns | processing/scripts/video_inference/video_inference.py:237-261 | the scan produces exactly the rows of the maximal runs it passes |
| VideoInference.RangesOfCons | processing/scripts/video_inference/video_inference.py:242-261 | one more run in front adds its row in front |
| VideoInference.AggregateTimeRanges | processing/scripts/video_inference/video_inference.py:228-263 | the scan's table is one row per maximal run of equal smoothed labels, and nothing for no frames |
| VideoInference.RangesContiguous | processing/scripts/video_inference/video_inference.py:228-263 | one range per maximal run; the first starts at the first frame time, the last ends at the last frame time, each ends where the next begins (times and formatted strings alike), neighbours carry different tasks, and every range averages a non-empty list of confidences |
| VideoInference.Telescope | processing/scripts/video_inference/video_inference.py:246-259 | the durations of contiguous ranges add up to the last end minus the first start |
| VideoInference.TotalDuration | processing/scripts/video_inference/video_inference.py:228-263 | the range durations sum to the last frame time minus the first |
| VideoInference.SumBounds | processing/scripts/video_inference/video_inference.py:247 | a sum of values in [0, 1] lies between 0 and their number |
| VideoInference.MeanBounds | processing/scripts/video_inference/video_inference.py:247 | a mean of values in [0, 1] lies in [0, 1] |
| VideoInference.AvgConfBounds | processing/scripts/video_inference/video_inference.py:247-260 | with confidences in [0, 1], every range's average confidence lies in [0, 1] |
| CardText.Min3 | app/processing/participant_detector.py:38 | the minimum of three costs is one of them and no larger than any |
| CardText.LevSymmetric | app/processing/participant_detector.py:28-40 | the distance does not depend on the order of its arguments |
| CardText.DSymmetric | app/processing/participant_detector.py:28-40 | every table cell equals the cell of the swapped strings |
| CardText.DSelf | app/processing/participant_detector.py:28-40 | a prefix is at distance 0 from itself |
| CardText.LevIdentityAndEmpty | app/processing/participant_detector.py:28-40 | d(s, s) = 0 and d(s, "") = d("", s) = the length of s |
| CardText.DBounds | app/processing/participant_detector.py:28-40 | every table cell lies between the prefix lengths' difference and the longer prefix length |
| CardText.LevBounds | app/processing/participant_detector.py:28-40 | the distance is at least the length difference and at most the longer length |
| CardText.LevenshteinDistance | app/processing/participant_detector.py:27-40 | the row-by-row computation, after putting the longer string first, returns the edit distance |
| CardText.NextRow | app/processing/participant_detector.py:35-39 | each new row of the table is computed from the previous one |
| CardText.DCommonPrefix | app/processing/participant_detector.py:28-40 | a shared prefix costs nothing |
| CardText.DDiagonal | app/processing/participant_detector.py:38 | matching characters along a diagonal add no cost |
| CardText.SpanEnd | app/processing/participant_detector.py:44 | a token extends over a maximal run of letters, or of digits |
| CardText.TokensFromShape | app/processing/participant_detector.py:44 | each token found from a position on is a non-empty run of letters only or of digits only |
| CardText.TokensShape | app/processing/participant_detector.py:44 | every token of the text is a non-empty run of letters only or of digits only |
| CardText.FirstNumber | app/processing/participant_detector.py:51-52 | the first all-digit token at or after a position, or none exactly when there is none |
| CardText.FindCard | app/processing/participant_detector.py:45-54 | a result is a keyword of at least five characters followed later by an all-digit token |
| CardText.FindCardSpec | app/processing/participant_detector.py:44-55 | no card exactly when no keyword has a later number; otherwise the first such keyword and the first number after it |
| CardText.ParseCard | app/processing/participant_detector.py:42-55 | the nested loops return the card of the first keyword with a later number, the role being the nearer name (ties to participant), or None |
| CardExamples.CatBat | tests/unit/processing/test_participant_detector.py:23-24 | d("cat", "bat") = 1 |
| CardExamples.KittenSitting | tests/unit/processing/test_participant_detector.py:26-27 | d("kitten", "sitting") = 3 |
| CardExamples.HelloExpert | app/processing/participant_detector.py:46-50 | "hello" is at distance 6 from "expert" |
| CardExamples.WorldExpert | app/processing/participant_detector.py:46-50 | "world" is at distance 6 from "expert" |
| CardExamples.MisspeltParticipant | app/processing/participant_detector.py:48-50 | "paricipant" is within distance 1 of "participant" |
| CardExamples.DropOne | app/processing/participant_detector.py:48-50 | the one-letter drop costs at most 1 |
| CardExamples.ParseKeywordNumber | app/processing/participant_detector.py:44-54 | a keyword followed by an all-digit token gives that keyword's role and that number |
| CardExamples.KeywordParticipant | app/processing/participant_detector.py:46-53 | "Participant" is a keyword with role participant |
| CardExamples.KeywordExpert | app/processing/participant_detector.py:46-53 | "Expert" is a keyword with role expert |
| CardExamples.KeywordMisspelt | app/processing/participant_detector.py:46-53 | "Paricipant" is a keyword with role participant |
| CardExamples.NotKeywords | app/processing/participant_detector.py:46-50 | "Hello", "World" and "42" are not keywords |
| CardExamples.TokensParticipant | app/processing/participant_detector.py:44 | "Participant 5" splits into "Participant" and "5" |
| CardExamples.ParseParticipant | tests/unit/processing/test_participant_detector.py:32-34 | "Participant 5" parses as participant 5 |
| CardExamples.TokensExpert | app/processing/participant_detector.py:44 | "Expert 3" splits into "Expert" and "3" |
| CardExamples.ParseExpert | tests/unit/processing/test_participant_detector.py:36-38 | "Expert 3" parses as expert 3 |
| CardExamples.TokensMisspelt | app/processing/participant_detector.py:44 | "Paricipant 2" splits into "Paricipant" and "2" |
| CardExamples.ParseMisspelt | tests/unit/processing/test_participant_detector.py:40-45 | "Paricipant 2" parses as participant 2 |
| CardExamples.ParseWithoutNumber | tests/unit/processing/test_participant_detector.py:47-49 | "Participant" alone gives no card |
| CardExamples.TokensNoKeyword | app/processing/participant_detector.py:44 | "Hello World 42" splits into "Hello", "World" and "42" |
| CardExamples.TokensFromSuffix | app/processing/participant_detector.py:44 | the tokens of a + b read from a position inside b are the tokens of b from there |
| CardExamples.ParseWithoutKeyword | tests/unit/processing/test_participant_detector.py:51-53 | "Hello World 42" gives no card |
| CardSessions.Count | app/processing/participant_detector.py:165 | the number of votes for a card |
| CardSessions.BestVote | app/processing/participant_detector.py:165 | among the first k votes, the chosen one has the largest count and every earlier one a smaller count |
| CardSessions.MostCommon | app/processing/participant_detector.py:165 | `most_common(1)`: a card voted for, with at least as many votes as any other |
| CardSessions.MostCommonFirst | app/processing/participant_detector.py:165 | any other card with as many votes was first voted for after the winner |
| CardSessions.MarkerOf | app/processing/participant_detector.py:165-175 | the marker type is "P" exactly when the winner's role is participant, else "E"; number of the winner; timestamp start/fps; duration within 0.005 of (close - start)/fps; confidence 1.0 |
| CardSessions.Step | app/processing/participant_detector.py:155-178 | each loop step keeps an open session's vote list non-empty |
| CardSessions.Run | app/processing/participant_detector.py:154-178 | the loop over any samples keeps that invariant |
| CardSessions.SessionStep | app/processing/participant_detector.py:155-178 | a result opens a session when none is open, adds a vote and resets the misses; no result while a session is open adds a miss, and the miss that reaches the timeout closes the session with its marker |
| CardSessions.CollectSessions | app/processing/participant_detector.py:147-178 | the loop's markers are those of the session rules over the samples |
| CardSessions.RunAppend | app/processing/participant_detector.py:154 | running over two sample lists in turn is running over their concatenation |
| CardSessions.RunSnoc | app/processing/participant_detector.py:154 | one more sample is one more step |
| CardSessions.DetectionsGrow | app/processing/participant_detector.py:169 | markers are only ever appended |
| CardSessions.MissesBounded | app/processing/participant_detector.py:160-178 | misses grow only while a session is open and stay below the timeout while one is |
| CardSessions.RunKeepsMissesBounded | app/processing/participant_detector.py:154-178 | the loop keeps the misses bound |
| CardSessions.MissesAlwaysBounded | app/processing/participant_detector.py:148-178 | from the start the misses bound holds whatever the samples |
| CardSessions.Sentinel | app/processing/participant_detector.py:152 | the tail is max(count, 0) empty samples at one frame |
| CardSessions.EmptySamplesIdle | app/processing/participant_detector.py:162 | empty samples change nothing while no session is open |
| CardSessions.EmptySamplesClose | app/processing/participant_detector.py:162-178 | enough empty samples close an open session with exactly one more marker, dated at the tail frame |
| CardSessions.EmptySamplesStayOpen | app/processing/participant_detector.py:162-164 | fewer empty samples leave the session open with that many more misses |
| CardSessions.SentinelClosesSession | app/processing/participant_detector.py:152-154 | with a positive timeout the tail leaves no session open and keeps every marker emitted before it |
| CardSessions.LastCard | app/processing/participant_detector.py:155 | the position of the last sample carrying a card, or -1 when none does |
| CardSessions.StepOrdered | app/processing/participant_detector.py:155-178 | each step keeps the markers in increasing time and before the open session's start |
| CardSessions.DivMonotone | app/processing/participant_detector.py:166 | dividing by a positive fps keeps order |
| CardSessions.RunOrdered | app/processing/participant_detector.py:154-178 | when card frames increase, the loop keeps the markers ordered |
| CardSessions.MarkersIncrease | app/processing/participant_detector.py:154-178 | when card frames increase, markers come out in strictly increasing timestamp order |
| FrameSource.FirstFail | app/processing/participant_detector.py:77-84 | the frames read before the first grab or read failure: all of them readable, the next one not |
| FrameSource.SampledBelow | app/processing/participant_detector.py:76-92 | the sampled frames lie below the stopping frame |
| FrameSource.SampledBelowSpec | app/processing/participant_detector.py:72-93 | the sampled frames are multiples of the skip, strictly increasing, and include every such multiple below the stopping frame |
| FrameSource.SampleEveryFrame | app/processing/participant_detector.py:76 | with skip 1 every frame is sampled |
| ParticipantDetector.ReadFrames | app/processing/participant_detector.py:72-97 | the loop yields the multiples of the skip below the first failure, in order |
| ParticipantDetector.ReadFramesSpec | app/processing/participant_detector.py:72-93 | the frame numbers yielded are multiples of the skip, strictly increasing, and every readable multiple is among them |
| ParticipantDetector.OcrSamples | app/processing/participant_detector.py:99-116 | one sample per frame read, with that frame's number |
| ParticipantDetector.OcrFrames | app/processing/participant_detector.py:99-119 | the generator yields the OCR results with the skip rule, and reports progress for exactly the OCR'd frames |
| ParticipantDetector.OcrSamplesSpec | app/processing/participant_detector.py:104-116 | a frame is skipped only when no card was read before it and it is similar to its predecessor; a skipped frame always yields no card; every other frame yields the card read from its text |
| ParticipantDetector.NothingSimilarOcrsAll | app/processing/participant_detector.py:104-119 | when no frame is similar to its predecessor, every frame is OCR'd and reported |
| ParticipantDetector.ProcessVideo | app/processing/participant_detector.py:121-184 | a metadata error or a capture that does not open raises; otherwise the markers of the session rules over the OCR results followed by `card_timeout_frames` empty samples at the last frame, and progress ends with the total |
| ParticipantDetector.AppSessionsClosedAndOrdered | app/processing/participant_detector.py:146-178 | with a positive timeout no session is left open at the end, and the markers come out in strictly increasing time |
| LegacyDetector.SamplesBelowSpec | processing/scripts/participant_detector/participant_detector.py:78-93 | the script hands the session rules exactly the frames that are multiples of the skip, each with the card read from it |
| LegacyDetector.ProcessVideo | processing/scripts/participant_detector/participant_detector.py:56-123 | metadata and capture errors raise; otherwise the markers of the session rules over every sampled frame read before the first failure, with no tail, and progress for each sampled frame and then the total |
| LegacyDetector.ReadAndCollect | processing/scripts/participant_detector/participant_detector.py:72-117 | the single loop's markers are those of the session rules over the sampled frames, and progress lists those frames |
| LegacyDetector.LegacyIsPrefixOfApp | processing/scripts/participant_detector/participant_detector.py:78-123 | when nothing is similar, the script's markers are a prefix of the app's; a session open when the script stops makes the app report exactly one more |
| LabelRuns.RunsFromPartition | processing/scripts/video_inference/video_inference.py:186-192 | the scan from a position cuts the rest into consecutive maximal runs of equal labels |
| LabelRuns.RunsPartition | processing/scripts/video_inference/video_inference.py:186-192 | the segments tile the labelling, each run carries one label and neighbours differ |
| LabelRuns.ConsPartition | processing/scripts/video_inference/video_inference.py:188-191 | a run closed at a label change, in front of a partition of the rest, is a partition |
| LabelRuns.ConsTiles | processing/scripts/video_inference/video_inference.py:188-192 | a closed run in front of a tiling of the rest tiles from its start |
| LabelRuns.BoundariesBelowLe | processing/scripts/video_inference/video_inference.py:182-219 | a labelling with boundaries only where another has them has no more |
| LabelRuns.BoundariesBelowLt | processing/scripts/video_inference/video_inference.py:182-219 | and one boundary fewer makes its count smaller |
| LabelRuns.Relabel | processing/scripts/video_inference/video_inference.py:216-217 | the frames of the run get the new label and the others keep theirs |
| LabelRuns.RelabelLowersBoundaries | processing/scripts/video_inference/video_inference.py:209-217 | giving a run a neighbour's label strictly lowers the number of label boundaries |
| LabelRuns.RelabelKeepsLabels | processing/scripts/video_inference/video_inference.py:216-217 | relabelling with a label from the set keeps every label in it |
| VideoItems.VideoItem.StatusText | app/models/video_item.py:40-46 | "Unprocessed" when not processed; "Processed (vN)" when processed with a truthy version N; plain "Processed" otherwise |
| VideoItems.StatusTextDistinguishes | app/models/video_item.py:40-46 | the status is "Unprocessed" exactly when the item is not processed, starts with "Processed" exactly when it is, and is plain "Processed" exactly when the version is absent or zero |
| VideoItems.StatusTextExamples | app/models/video_item.py:40-46 | a new item is "Unprocessed"; processed with version 2 is "Processed (v2)"; processed with version 0 is "Processed" |
| VideoItems.FilenameExample | app/models/video_item.py:24-26 | the filename of "/videos/day1/session.mp4" is "session.mp4" |
| Text.FileNameOfJoin | app/models/video_item.py:24-26 | the last path component of dir + "/" + name is name when name has no '/' |
| Numeric.Trunc | app/infrastructure/video_utils.py:74-76 | `int()` of a float truncates toward zero |
| Numeric.Mod | app/infrastructure/video_utils.py:20-21 | Python's float `%` with a positive modulus lies in [0, m) and recomposes x with the floored quotient |
| Numeric.ClockSplit | app/infrastructure/video_utils.py:19-21 | hours·3600 + minutes·60 + (t mod 60) recomposes t, and the minutes lie in [0, 59] |
| VideoUtils.FormatDurationFields | app/infrastructure/video_utils.py:18-22 | the three ':'-separated fields are the hours, and the minutes and seconds in [0, 59] each padded to exactly two digits; for t ≥ 0 they recompose floor(t) |
| VideoUtils.FormatDurationZero | app/infrastructure/video_utils.py:18-22 | 0 s is "00:00:00" |
| VideoUtils.FormatDurationMinutes | app/infrastructure/video_utils.py:18-22 | 125 s is "00:02:05" |
| VideoUtils.FormatDurationHour | app/infrastructure/video_utils.py:18-22 | 3661 s is "01:01:01" |
| VideoUtils.FormatDurationDay | app/infrastructure/video_utils.py:18-22 | 86400 s is "24:00:00": hours do not wrap at a day |
| VideoUtils.GetVideoMetadata | app/infrastructure/video_utils.py:64-98 | an open failure is passed on; the metadata is rejected exactly when fps ≤ 0 or int(frame count) ≤ 0; otherwise duration·fps = frame count and every field is the capture's value |
| VideoUtils.MetadataExample | app/infrastructure/video_utils.py:33-35 | 3750 frames at 30 fps give 125 s, shown by `duration_str` as "00:02:05"; fps 0 is rejected |
| Constants.TaskNamesAreNine | app/core/config/constants.py:10-23 | the enumeration has nine pairwise distinct names |
| Constants.IsValidTaskNameExactly | app/core/config/constants.py:25-27 | a name is valid exactly when it is one of the nine, compared case-sensitively; "", "idle" and "SUTURE" are not valid |
| Constants.GetColorDefaultIffUnknown | app/core/config/constants.py:47-49 | the default grey is returned exactly for names that are not task names; a task name gets its own colour |
| Constants.ExtensionCaseInsensitive | app/core/config/constants.py:72-78 | upper- or lower-casing a file name does not change whether it has one of the extensions |
| Constants.VideoFileExamples | app/core/config/constants.py:72-74 | "clip.MP4" and "a/b/session.webm" are video files |
| Constants.NotVideoFileExamples | app/core/config/constants.py:72-74 | "notes.txt" and "mp4" are not video files |
| Constants.ImageFileExamples | app/core/config/constants.py:76-78 | "thumb.JPEG" is an image file and "clip.mp4" is not |
| Constants.Patterns | app/core/config/constants.py:80-83 | the filter lists the pattern "*" + extension for each video extension, in order |
| Numeric.RoundHalfUp | app/processing/participant_detector.py:173 | the rounded integer lies within half a unit of the value |
| Numeric.Round2 | app/processing/participant_detector.py:173 | `round(x, 2)`: a multiple of one hundredth, the rounding of 100·x |
| Numeric.FloorBounds | app/infrastructure/video_utils.py:19-21 | the floored quotient brackets x between m·q and m·q + m |
| Numeric.TruncMonotone | app/processing/batch_optimiser.py:66 | truncation toward zero never reverses order |
| Numeric.ClampMonotone | app/processing/batch_optimiser.py:66 | clamping never reverses order |
| Sorting.Insert | app/infrastructure/repositories/annotation_repository.py:149 | inserting into a sorted list keeps it sorted and adds exactly that element |
| Sorting.StrLeTotalAt | app/core/services/export_service.py:29 | any two names are ordered one way or the other by the string order |
| Sorting.StrLeTransitiveAt | app/core/services/export_service.py:29 | the string order is transitive |
| VideoUtils.FormatDurationOf | app/infrastructure/video_utils.py:18-22 | h·3600 + m·60 + s seconds, with m and s below 60, is shown as the padded h, m and s |
| VideoRepository.FilteredFind | app/infrastructure/repositories/video_repository.py:122-136 | dropping one path's entries leaves the lookup of every other path unchanged |
| VideoRepository.FindInCons | app/infrastructure/repositories/video_repository.py:131-136 | the lookup returns the first entry with the path |
| ExportService.ClipsDurationSnoc | app/core/services/export_service.py:55-59 | one more clip adds its length to the total duration |
| VideoExporter.ExportOne | app/utils/video_exporter.py:36-71 | one pass of the loop body takes the state to the next state of the export run |
| VideoExporter.ExportTagged | app/utils/video_exporter.py:42-78 | the loop body with the label known takes the state to the next state of the export run: a free name is recorded and reported, and the clip is listed only when ffmpeg succeeds |

## Left out

- Model inference: `video_inference.process_video` and `predict_batch` (frame decoding, resizing, the network) are not modelled. The classifier's output enters `VideoProcessor.ProcessVideo` as its list of time ranges, and each range must carry at least one confidence.
- The torch/fastai model load and `CLASS_NAMES`: the vocabulary is a parameter of `VideoInference.SmoothPredictions`, and must be distinct and contain every frame's label.
- VideoInference.SmoothPredictions: a window below -2 makes NumPy index past the prefix matrix. The model excludes that case by its precondition.
- Floating point, because the model computes in exact `real`:
  - float32 prefix sums;
  - `round(x, 2)` is round-half-up of the exact value (`Numeric.Round2`), not IEEE round-half-even;
  - `%06.3f` rounds the exact value half-up to the millisecond;
  - NaN and infinities are not modelled.
  - `participant_progress` truncates the exact quotient. In Python `(29/50)*50` is 28.999…, so the report is 78, where `VideoProcessor.ParticipantProgress` gives 79.
- VideoInference.EnforceResult: holds only when the frame times never decrease. With decreasing times a neighbour's duration can be negative, and the code then leaves a short run unmerged.
- OCR, image resizing, grey conversion and `cv2.absdiff`: these are oracles, namely the OCR text of each frame and a "similar to the previous frame" flag per frame.
- `_prefetch`'s thread and queue: modelled as the identity on the frame sequence, so concurrency is not modelled.
- Progress callbacks: each is the list of reports it would receive.
- A failed `grab` and a failed `read` are one "cannot be read" flag per frame. How images are downscaled is not modelled.
- ParticipantDetector.ReadFrames: requires `frame_skip != 0`, because Python raises `ZeroDivisionError` for 0.
- VideoProcessor.DetectorPercentages: requires a non-zero frame count, because Python divides by it. Progress values above 100 are possible and are not clamped.
- Annotation dictionaries: `from_dict` of the model reports a field of the wrong JSON type as an error. Python does not check types; this check exists only in the model.
- The `created_at`/`modified_at` clock readings are parameters.
- VideoExporter: ffmpeg is one success flag per clip. The existing files are a set of paths. Directory creation is not modelled.
- VideoRepository: the lock is not modelled.
- VideoRepository: returned items are values, so aliasing between the cache and a caller's `VideoItem` is not modelled.
- VideoRepository: the registry file is the field `onDisk`, its JSON encoding is not modelled, and a write's success is a parameter.
- AnnotationRepository.VersionOf: reads a version only when the text after the last `_v` is an optional sign and ASCII digits. Python's `int()` also reads surrounding whitespace (`_v 3`), `_` between digits (`_v1_0` is 10) and non-ASCII digits; the model treats such files as having no version.
- AnnotationRepository.CollectVersions: for the same reason, skips a matching file whose version is spelled with whitespace, `_` or non-ASCII digits, where Python collects it.
- AnnotationRepository.FindLatestVersion: for the same reason, ignores versions spelled as only Python's `int()` reads them, so a file such as `clip_annotations_v1_0.json` does not make 10 the latest version.
- AnnotationRepository.ListVersions: for the same reason, leaves out versions spelled with whitespace, `_` or non-ASCII digits.
- VideoProcessor.ParseTimestamp: raises `ValueError` for fields that Python's `int()` and `float()` read but `Text.ParseInt` and `Text.ParseFloat` refuse: surrounding whitespace (`" 1:02:03"` is 3723.0 in Python), `_` between digits, non-ASCII digits, and an exponent, `inf` or `nan` in the seconds (`"00:00:1e1"` is 10.0). Every string `format_timestamp` produces is read back (`VideoProcessor.ParseFormatted`).
- Text.JoinPath, Text.Parent, Text.FileName and Text.Stem: model `pathlib` on normalised paths only. `Path` collapses `a//b` and drops `.` components; these functions do not.
- AnnotationRepository: the directory is a listing of file names. Glob special characters in a video's stem are not treated specially.
- AnnotationRepository: `load` is not modelled. ExportService uses a map from video path to the annotation `load` returns.
- AnnotationRepository: the JSON file contents and the temporary-file rename are not modelled.
- AnnotationRepository.Save: returns the annotation with its new version instead of mutating the caller's object.
- `sum()` and `sorted()` are modelled by a fold and by insertion sort.
- AppConfig file handling:
  - `save`'s file I/O is not modelled; `AsDict` models `asdict`;
  - the config file is one of: absent, not JSON, or a parsed document;
  - `PathConfig`'s project paths are parameters, and so is whether the model file exists.
- AppConfig field types:
  - a field given a JSON value of the wrong type keeps its default, whereas Python stores the value unchecked;
  - a document that is not an object raises (`NotAnObject`), as `data.items()` does;
  - the `TypeError` for unknown keywords cannot occur after filtering.
- AppConfig.Message: Python's rendering of a float in the threshold message is the parameter `showReal`.
- Case mapping in `lower()`/`upper()` is ASCII only, not Unicode.
- BatchOptimiser: `get_available_memory` and `log_hardware_info` are not modelled, because they query torch and psutil. Memory sizes are inputs.
- `paths.py`, `inference_loader.py`, logging, the Qt user interface, the workers and the service wiring are not part of this model.
