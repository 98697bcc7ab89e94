/**
 * Cutting a video into one clip per non-idle task segment
 * (`app/utils/video_exporter.py`). Each clip is named after its task, the
 * participant label that applies to it and the first free index for that
 * (task, label) pair; the file system is a set of existing paths and ffmpeg
 * is an oracle saying, per clip, whether it produced its file.
 */
module VideoExporter {

  import opened Optional
  import opened Text
  import opened Annotation

  /** How many candidate names are tried for one segment before it is skipped. */
  const MaxRetries := 10000

  // ---------------------------------------------------------------------
  // Which segments are exported, and under which names

  predicate IsIdle(seg: TaskSegment) {
    Lower(seg.taskName) == "idle"
  }

  /** The segments whose lowercased name is not "idle", in order. */
  function ToExport(segs: seq<TaskSegment>): (r: seq<TaskSegment>)
    ensures |r| <= |segs|
    ensures forall k :: 0 <= k < |r| ==> !IsIdle(r[k]) && r[k] in segs
    ensures forall s :: s in segs && !IsIdle(s) ==> s in r
  {
    if segs == [] then []
    else
      var last := segs[|segs| - 1];
      ToExport(segs[..|segs| - 1]) + (if IsIdle(last) then [] else [last])
  }

  /** The participant label of a clip: the closest marker's label, or "None". */
  function ClipLabel(a: VideoAnnotation, seg: TaskSegment): (l: string)
    ensures a.participantMarkers == [] ==> l == "None"
    ensures a.GetParticipantForTask(seg).Some? && a.GetParticipantForTask(seg).value != "" ==>
      l == a.GetParticipantForTask(seg).value
  {
    match a.GetParticipantForTask(seg)
    case Some(found) => if found == "" then "None" else found
    case None => "None"
  }

  function ClipName(task: string, tag: string, index: int): string {
    task + "_" + tag + "_" + IntToString(index) + ".mp4"
  }

  /** `output_dir / task / "{task}_{label}_{index}.mp4"`. */
  function ClipPath(outputDir: string, task: string, tag: string, index: int): string {
    JoinPath(JoinPath(outputDir, task), ClipName(task, tag, index))
  }

  /**
   * The first index from `index` on, among the next `budget` ones, whose
   * clip path does not exist yet; `None` when all of them exist.
   */
  function FirstFree(outputDir: string, task: string, tag: string, index: int, budget: nat, existing: set<string>)
    : (r: Option<int>)
    ensures r.Some? ==> index <= r.value < index + budget
    ensures r.Some? ==> ClipPath(outputDir, task, tag, r.value) !in existing
    ensures r.Some? ==> forall j :: index <= j < r.value ==> ClipPath(outputDir, task, tag, j) in existing
    ensures r.None? ==> forall j :: index <= j < index + budget ==> ClipPath(outputDir, task, tag, j) in existing
    decreases budget
  {
    if budget == 0 then None
    else if ClipPath(outputDir, task, tag, index) !in existing then Some(index)
    else FirstFree(outputDir, task, tag, index + 1, budget - 1, existing)
  }

  // ---------------------------------------------------------------------
  // The export loop as a function of the segments seen so far

  /** A call of the progress callback: clip number, clip count, message. */
  datatype Report = Report(current: int, total: int, message: string)

  /**
   * What the loop has built: the next index per (task, label), the paths
   * that exist, the clips exported and the progress reported.
   */
  datatype Exporting = Exporting(used: map<(string, string), int>, existing: set<string>,
                                 exported: seq<string>, progress: seq<Report>)

  /** `_export_segment`: a segment that does not last refuses without calling ffmpeg. */
  function ExportSegment(seg: TaskSegment, ffmpegSucceeds: bool): (ok: bool)
    ensures ok <==> seg.startTime < seg.endTime && ffmpegSucceeds
  {
    if seg.Duration() <= 0.0 then false else ffmpegSucceeds
  }

  /** Where the index search for a (task, label) pair starts. */
  function StartIndex(used: map<(string, string), int>, key: (string, string)): int {
    if key in used then used[key] else 1
  }

  /** One pass of the loop body for segment number `i` of `total`. */
  function Step(a: VideoAnnotation, outputDir: string, st: Exporting, i: int, seg: TaskSegment,
                ffmpegSucceeds: bool, total: int): (st': Exporting)
    ensures st.exported <= st'.exported && |st'.exported| <= |st.exported| + 1
    ensures st.existing <= st'.existing
  {
    StepTagged(outputDir, st, i, seg, ClipLabel(a, seg), ffmpegSucceeds, total)
  }

  /** The loop body once the segment's participant label `tag` is known. */
  function StepTagged(outputDir: string, st: Exporting, i: int, seg: TaskSegment, tag: string,
                      ffmpegSucceeds: bool, total: int): (st': Exporting)
    ensures st.exported <= st'.exported && |st'.exported| <= |st.exported| + 1
    ensures st.existing <= st'.existing
  {
    var key := (seg.taskName, tag);
    match FirstFree(outputDir, seg.taskName, tag, StartIndex(st.used, key), MaxRetries, st.existing)
    case None => st
    case Some(index) =>
      var path := ClipPath(outputDir, seg.taskName, tag, index);
      var used := st.used[key := index + 1];
      var progress := st.progress + [Report(i + 1, total, "Exporting " + ClipName(seg.taskName, tag, index))];
      if ExportSegment(seg, ffmpegSucceeds) then
        Exporting(used, st.existing + {path}, st.exported + [path], progress)
      else
        Exporting(used, st.existing, st.exported, progress)
  }

  function Run(a: VideoAnnotation, outputDir: string, st: Exporting, segs: seq<TaskSegment>,
               ffmpeg: seq<bool>, total: int): Exporting
    requires |ffmpeg| >= |segs|
  {
    if segs == [] then st
    else
      var k := |segs| - 1;
      Step(a, outputDir, Run(a, outputDir, st, segs[..k], ffmpeg, total), k, segs[k], ffmpeg[k], total)
  }

  /** Running over one more segment is one more step. */
  lemma RunSnoc(a: VideoAnnotation, outputDir: string, st: Exporting, segs: seq<TaskSegment>,
                ffmpeg: seq<bool>, total: int, i: nat)
    requires i < |segs| <= |ffmpeg|
    ensures Run(a, outputDir, st, segs[..i + 1], ffmpeg, total) ==
      Step(a, outputDir, Run(a, outputDir, st, segs[..i], ffmpeg, total), i, segs[i], ffmpeg[i], total)
  {
    assert segs[..i + 1][..i] == segs[..i];
  }

  /**
   * `export_all_segments`: the exported paths and the progress reports;
   * `ffmpeg[k]` says whether ffmpeg produces the k-th exported clip.
   */
  function ExportAll(a: VideoAnnotation, outputDir: string, existing: set<string>, ffmpeg: seq<bool>)
    : (r: (seq<string>, seq<Report>))
    requires |ffmpeg| >= |ToExport(a.taskSegments)|
  {
    var segs := ToExport(a.taskSegments);
    if segs == [] then ([], [])
    else
      var st := Run(a, outputDir, Exporting(map[], existing, [], []), segs, ffmpeg, |segs|);
      (st.exported, st.progress + [Report(|segs|, |segs|, "Export complete")])
  }

  // ---------------------------------------------------------------------
  // The loop itself

  method ExportAllSegments(a: VideoAnnotation, outputDir: string, existing: set<string>, ffmpeg: seq<bool>)
    returns (exported: seq<string>, progress: seq<Report>)
    requires |ffmpeg| >= |ToExport(a.taskSegments)|
    ensures (exported, progress) == ExportAll(a, outputDir, existing, ffmpeg)
  {
    var segments := ToExport(a.taskSegments);
    if segments == [] {
      return [], [];
    }
    var total := |segments|;
    var used: map<(string, string), int> := map[];
    var files := existing;
    exported, progress := [], [];
    for i := 0 to total
      invariant Exporting(used, files, exported, progress) ==
        Run(a, outputDir, Exporting(map[], existing, [], []), segments[..i], ffmpeg, total)
    {
      RunSnoc(a, outputDir, Exporting(map[], existing, [], []), segments, ffmpeg, total, i);
      used, files, exported, progress := ExportOne(a, outputDir, used, files, exported, progress,
                                                   i, segments[i], ffmpeg[i], total);
    }
    assert segments[..total] == segments;
    progress := progress + [Report(total, total, "Export complete")];
  }

  /** The loop body: label, index search with its retry bound, export. */
  method ExportOne(a: VideoAnnotation, outputDir: string, used: map<(string, string), int>, files: set<string>,
                   exported: seq<string>, progress: seq<Report>, i: int, segment: TaskSegment,
                   ffmpegSucceeds: bool, total: int)
    returns (used': map<(string, string), int>, files': set<string>, exported': seq<string>, progress': seq<Report>)
    ensures Exporting(used', files', exported', progress') ==
      Step(a, outputDir, Exporting(used, files, exported, progress), i, segment, ffmpegSucceeds, total)
  {
    var participantLabel := ClipLabel(a, segment);
    used', files', exported', progress' := ExportTagged(outputDir, used, files, exported, progress, i, segment,
                                                       participantLabel, ffmpegSucceeds, total);
  }

  /** The loop body with the participant label already chosen. */
  method ExportTagged(outputDir: string, used: map<(string, string), int>, files: set<string>,
                      exported: seq<string>, progress: seq<Report>, i: int, segment: TaskSegment,
                      participantLabel: string, ffmpegSucceeds: bool, total: int)
    returns (used': map<(string, string), int>, files': set<string>, exported': seq<string>, progress': seq<Report>)
    ensures Exporting(used', files', exported', progress') ==
      StepTagged(outputDir, Exporting(used, files, exported, progress), i, segment, participantLabel, ffmpegSucceeds, total)
  {
    used', files', exported', progress' := used, files, exported, progress;
    var key := (segment.taskName, participantLabel);
    var index := if key !in used then 1 else used[key];
    ghost var free := FirstFree(outputDir, segment.taskName, participantLabel, StartIndex(used, key), MaxRetries, files);
    var retryCount;
    index, retryCount := FindFreeIndex(outputDir, segment.taskName, participantLabel, index, files);
    if retryCount >= MaxRetries {
      assert free.None?;
      return;
    }
    assert free == Some(index);
    used' := used[key := index + 1];
    var outputPath := ClipPath(outputDir, segment.taskName, participantLabel, index);
    progress' := progress + [Report(i + 1, total, "Exporting " + ClipName(segment.taskName, participantLabel, index))];
    var success := ExportSegment(segment, ffmpegSucceeds);
    if success {
      files' := files + {outputPath};
      exported' := exported + [outputPath];
    }
  }

  /**
   * The retry loop: tries `start`, `start + 1`, ... until a name is free or
   * ten thousand have been tried; `retryCount` reaching the bound means
   * none was free.
   */
  method FindFreeIndex(outputDir: string, task: string, tag: string, start: int, files: set<string>)
    returns (index: int, retryCount: int)
    ensures 0 <= retryCount <= MaxRetries
    ensures retryCount < MaxRetries ==> FirstFree(outputDir, task, tag, start, MaxRetries, files) == Some(index)
    ensures retryCount == MaxRetries ==> FirstFree(outputDir, task, tag, start, MaxRetries, files) == None
  {
    index := start;
    retryCount := 0;
    while retryCount < MaxRetries
      invariant 0 <= retryCount <= MaxRetries && index == start + retryCount
      invariant FirstFree(outputDir, task, tag, start, MaxRetries, files) ==
                FirstFree(outputDir, task, tag, index, MaxRetries - retryCount, files)
    {
      var outputPath := ClipPath(outputDir, task, tag, index);
      if outputPath !in files {
        break;
      }
      index := index + 1;
      retryCount := retryCount + 1;
    }
  }

  // ---------------------------------------------------------------------
  // What the export promises

  /** When every segment is idle (or there are none) nothing is exported and nothing reported. */
  lemma AllIdleExportsNothing(a: VideoAnnotation, outputDir: string, existing: set<string>, ffmpeg: seq<bool>)
    requires forall k :: 0 <= k < |a.taskSegments| ==> IsIdle(a.taskSegments[k])
    ensures |ffmpeg| >= |ToExport(a.taskSegments)|
    ensures ExportAll(a, outputDir, existing, ffmpeg) == ([], [])
  {
    NothingToExport(a.taskSegments);
  }

  lemma {:induction false} NothingToExport(segs: seq<TaskSegment>)
    requires forall k :: 0 <= k < |segs| ==> IsIdle(segs[k])
    ensures ToExport(segs) == []
  {
    if segs != [] {
      NothingToExport(segs[..|segs| - 1]);
    }
  }

  /** When anything is exported, the last report is (total, total). */
  lemma LastReportIsComplete(a: VideoAnnotation, outputDir: string, existing: set<string>, ffmpeg: seq<bool>)
    requires |ffmpeg| >= |ToExport(a.taskSegments)| && ToExport(a.taskSegments) != []
    ensures var progress := ExportAll(a, outputDir, existing, ffmpeg).1;
      |progress| >= 1 && progress[|progress| - 1] ==
        Report(|ToExport(a.taskSegments)|, |ToExport(a.taskSegments)|, "Export complete")
  {
  }

  /** The loop's invariant: exported clips exist now, did not exist before, and are pairwise distinct. */
  ghost predicate Fresh(initial: set<string>, st: Exporting) {
    && (forall k :: 0 <= k < |st.exported| ==> st.exported[k] in st.existing && st.exported[k] !in initial)
    && (forall j, k :: 0 <= j < k < |st.exported| ==> st.exported[j] != st.exported[k])
    && initial <= st.existing
  }

  lemma StepKeepsFresh(a: VideoAnnotation, outputDir: string, initial: set<string>, st: Exporting, i: int,
                       seg: TaskSegment, ffmpegSucceeds: bool, total: int)
    requires Fresh(initial, st)
    ensures Fresh(initial, Step(a, outputDir, st, i, seg, ffmpegSucceeds, total))
  {
  }

  lemma {:induction false} RunKeepsFresh(a: VideoAnnotation, outputDir: string, initial: set<string>, st: Exporting,
                                         segs: seq<TaskSegment>, ffmpeg: seq<bool>, total: int)
    requires |ffmpeg| >= |segs| && Fresh(initial, st)
    ensures Fresh(initial, Run(a, outputDir, st, segs, ffmpeg, total))
  {
    if segs != [] {
      var k := |segs| - 1;
      RunKeepsFresh(a, outputDir, initial, st, segs[..k], ffmpeg, total);
      StepKeepsFresh(a, outputDir, initial, Run(a, outputDir, st, segs[..k], ffmpeg, total), k, segs[k], ffmpeg[k], total);
    }
  }

  /** No exported clip overwrites a file that was there before, and no two clips share a path. */
  lemma ExportedPathsFresh(a: VideoAnnotation, outputDir: string, existing: set<string>, ffmpeg: seq<bool>)
    requires |ffmpeg| >= |ToExport(a.taskSegments)|
    ensures var exported := ExportAll(a, outputDir, existing, ffmpeg).0;
      && (forall k :: 0 <= k < |exported| ==> exported[k] !in existing)
      && (forall j, k :: 0 <= j < k < |exported| ==> exported[j] != exported[k])
  {
    var segs := ToExport(a.taskSegments);
    if segs != [] {
      RunKeepsFresh(a, outputDir, existing, Exporting(map[], existing, [], []), segs, ffmpeg, |segs|);
    }
  }

  /** An unseen (task, label) pair whose first name is free gets index 1 and moves on to 2. */
  lemma NewKeyStartsAtOne(a: VideoAnnotation, outputDir: string, st: Exporting, i: int, seg: TaskSegment,
                          ffmpegSucceeds: bool, total: int)
    requires (seg.taskName, ClipLabel(a, seg)) !in st.used
    requires ClipPath(outputDir, seg.taskName, ClipLabel(a, seg), 1) !in st.existing
    ensures Step(a, outputDir, st, i, seg, ffmpegSucceeds, total).used[(seg.taskName, ClipLabel(a, seg))] == 2
    ensures ExportSegment(seg, ffmpegSucceeds) ==>
      Step(a, outputDir, st, i, seg, ffmpegSucceeds, total).exported ==
        st.exported + [ClipPath(outputDir, seg.taskName, ClipLabel(a, seg), 1)]
  {
  }

  /**
   * A pair already seen continues from its stored index, so two segments
   * with the same task and label get consecutive indices when nothing is
   * in the way.
   */
  lemma SeenKeyContinues(a: VideoAnnotation, outputDir: string, st: Exporting, i: int, seg: TaskSegment,
                         ffmpegSucceeds: bool, total: int, n: int)
    requires (seg.taskName, ClipLabel(a, seg)) in st.used && st.used[(seg.taskName, ClipLabel(a, seg))] == n
    requires ClipPath(outputDir, seg.taskName, ClipLabel(a, seg), n) !in st.existing
    ensures Step(a, outputDir, st, i, seg, ffmpegSucceeds, total).used[(seg.taskName, ClipLabel(a, seg))] == n + 1
    ensures ExportSegment(seg, ffmpegSucceeds) ==>
      Step(a, outputDir, st, i, seg, ffmpegSucceeds, total).exported ==
        st.exported + [ClipPath(outputDir, seg.taskName, ClipLabel(a, seg), n)]
  {
  }

  /** An occupied first name is skipped: with index 1 taken and 2 free, the clip gets 2. */
  lemma CollisionTakesNext(a: VideoAnnotation, outputDir: string, st: Exporting, i: int, seg: TaskSegment,
                           ffmpegSucceeds: bool, total: int)
    requires (seg.taskName, ClipLabel(a, seg)) !in st.used
    requires ClipPath(outputDir, seg.taskName, ClipLabel(a, seg), 1) in st.existing
    requires ClipPath(outputDir, seg.taskName, ClipLabel(a, seg), 2) !in st.existing
    ensures Step(a, outputDir, st, i, seg, ffmpegSucceeds, total).used[(seg.taskName, ClipLabel(a, seg))] == 3
    ensures ExportSegment(seg, ffmpegSucceeds) ==>
      Step(a, outputDir, st, i, seg, ffmpegSucceeds, total).exported ==
        st.exported + [ClipPath(outputDir, seg.taskName, ClipLabel(a, seg), 2)]
  {
    var tag := ClipLabel(a, seg);
    var r := FirstFree(outputDir, seg.taskName, tag, 1, MaxRetries, st.existing);
    assert r == Some(2) by {
      assert FirstFree(outputDir, seg.taskName, tag, 1, MaxRetries, st.existing) ==
             FirstFree(outputDir, seg.taskName, tag, 2, MaxRetries - 1, st.existing);
    }
  }

  /** When all ten thousand candidates exist the segment is skipped: nothing changes, nothing is reported. */
  lemma ExhaustedSkips(a: VideoAnnotation, outputDir: string, st: Exporting, i: int, seg: TaskSegment,
                       ffmpegSucceeds: bool, total: int)
    requires forall j :: StartIndex(st.used, (seg.taskName, ClipLabel(a, seg))) <= j <
                         StartIndex(st.used, (seg.taskName, ClipLabel(a, seg))) + MaxRetries ==>
                         ClipPath(outputDir, seg.taskName, ClipLabel(a, seg), j) in st.existing
    ensures Step(a, outputDir, st, i, seg, ffmpegSucceeds, total) == st
  {
  }

  /** A segment that does not last is never exported. */
  lemma NonPositiveDurationNotExported(a: VideoAnnotation, outputDir: string, st: Exporting, i: int,
                                       seg: TaskSegment, ffmpegSucceeds: bool, total: int)
    requires seg.endTime <= seg.startTime
    ensures Step(a, outputDir, st, i, seg, ffmpegSucceeds, total).exported == st.exported
  {
  }
}
