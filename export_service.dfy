/**
 * The export summaries shown before clips are cut: per task, how many
 * non-idle segments a video (or a batch of videos) has and how long they
 * last, and the sorted bullet list of those counts.
 *
 * The annotation repository is given as a map from video path to the
 * annotation `load` would return; a path not in the map loads as `None`.
 */
module ExportService {

  import opened Optional
  import opened Text
  import opened DomainResult
  import opened Sorting
  import opened Tally
  import opened Annotation
  import opened VideoItems
  import VideoExporter

  datatype ExportSummary = ExportSummary(totalSegments: int, taskCounts: Counts, totalDuration: real)

  datatype ExportError = NoAnnotation(videoPath: string)

  type Store = map<string, VideoAnnotation>

  // ---------------------------------------------------------------------
  // One video

  /** How many non-idle segments are called `name`. */
  function CountNamed(segs: seq<TaskSegment>, name: string): nat {
    if segs == [] then 0
    else
      var last := segs[|segs| - 1];
      CountNamed(segs[..|segs| - 1], name) +
        (if !VideoExporter.IsIdle(last) && last.taskName == name then 1 else 0)
  }

  /** The tally the summary loop builds, one non-idle segment at a time. */
  function TaskCounts(segs: seq<TaskSegment>): Counts {
    if segs == [] then map[]
    else
      var m := TaskCounts(segs[..|segs| - 1]);
      var last := segs[|segs| - 1];
      if VideoExporter.IsIdle(last) then m else m[last.taskName := Get(m, last.taskName) + 1]
  }

  /** The summed length of the non-idle segments, in the loop's order. */
  function ExportedDuration(segs: seq<TaskSegment>): real {
    if segs == [] then 0.0
    else
      var last := segs[|segs| - 1];
      ExportedDuration(segs[..|segs| - 1]) +
        (if VideoExporter.IsIdle(last) then 0.0 else last.endTime - last.startTime)
  }

  /** The summed length of a list of clips. */
  function ClipsDuration(clips: seq<TaskSegment>): real {
    if clips == [] then 0.0
    else ClipsDuration(clips[..|clips| - 1]) + clips[|clips| - 1].Duration()
  }

  /** What `get_export_summary` reports for a loaded annotation. */
  ghost function Summary(segs: seq<TaskSegment>): ExportSummary {
    ExportSummary(Total(TaskCounts(segs)), TaskCounts(segs), ExportedDuration(segs))
  }

  /**
   * The tally holds exactly the task names of non-idle segments, each with
   * the number of its segments.
   */
  lemma {:induction false} TaskCountsCount(segs: seq<TaskSegment>)
    ensures forall name :: name in TaskCounts(segs) <==> CountNamed(segs, name) > 0
    ensures forall name :: Get(TaskCounts(segs), name) == CountNamed(segs, name)
  {
    if segs != [] {
      TaskCountsCount(segs[..|segs| - 1]);
    }
  }

  /** The counts add up to the number of clips the exporter cuts. */
  lemma {:induction false} TaskCountsTotal(segs: seq<TaskSegment>)
    ensures Total(TaskCounts(segs)) == |VideoExporter.ToExport(segs)|
  {
    if segs == [] {
      assert TaskCounts(segs) == map[];
    } else {
      var init := segs[..|segs| - 1];
      var last := segs[|segs| - 1];
      TaskCountsTotal(init);
      if !VideoExporter.IsIdle(last) {
        TotalIncrement(TaskCounts(init), last.taskName);
      }
    }
  }

  /** The total duration is the summed length of the clips the exporter cuts. */
  lemma {:induction false} ExportedDurationOfClips(segs: seq<TaskSegment>)
    ensures ExportedDuration(segs) == ClipsDuration(VideoExporter.ToExport(segs))
  {
    if segs != [] {
      var init := segs[..|segs| - 1];
      var last := segs[|segs| - 1];
      ExportedDurationOfClips(init);
      if !VideoExporter.IsIdle(last) {
        var before := VideoExporter.ToExport(init);
        assert VideoExporter.ToExport(segs) == before + [last];
        ClipsDurationSnoc(before, last);
      } else {
        assert VideoExporter.ToExport(segs) == VideoExporter.ToExport(init);
      }
    }
  }

  lemma ClipsDurationSnoc(clips: seq<TaskSegment>, last: TaskSegment)
    ensures ClipsDuration(clips + [last]) == ClipsDuration(clips) + (last.endTime - last.startTime)
  {
    assert (clips + [last])[..|clips|] == clips;
  }

  /** An annotation with only idle segments has nothing to export. */
  lemma {:induction false} AllIdleSummary(segs: seq<TaskSegment>)
    requires forall k :: 0 <= k < |segs| ==> VideoExporter.IsIdle(segs[k])
    ensures Summary(segs) == ExportSummary(0, map[], 0.0)
  {
    if segs == [] {
      assert Total(map[]) == 0;
    } else {
      AllIdleSummary(segs[..|segs| - 1]);
    }
  }

  /** `sum(counts.values())`. */
  method SumValues(m: Counts) returns (s: int)
    ensures s == Total(m)
  {
    s := 0;
    var remaining := m.Keys;
    while remaining != {}
      invariant remaining <= m.Keys
      invariant s + SumAt(m, remaining) == Total(m)
      decreases |remaining|
    {
      var k :| k in remaining;
      SumAtRemove(m, remaining, k);
      s := s + m[k];
      remaining := remaining - {k};
    }
  }

  /**
   * `get_export_summary`: an error when no annotation loads; otherwise the
   * tally and duration of the non-idle segments and the sum of the tally.
   */
  method GetExportSummary(videoPath: string, store: Store) returns (r: Result<ExportSummary, ExportError>)
    ensures videoPath !in store ==> r == Err(NoAnnotation(videoPath))
    ensures videoPath in store ==> r == Ok(Summary(store[videoPath].taskSegments))
  {
    if videoPath !in store {
      return Err(NoAnnotation(videoPath));
    }
    var segments := store[videoPath].taskSegments;
    var taskCounts: Counts := map[];
    var totalDuration := 0.0;
    for i := 0 to |segments|
      invariant taskCounts == TaskCounts(segments[..i])
      invariant totalDuration == ExportedDuration(segments[..i])
    {
      assert segments[..i + 1][..i] == segments[..i];
      var segment := segments[i];
      if Lower(segment.taskName) != "idle" {
        taskCounts := taskCounts[segment.taskName := Get(taskCounts, segment.taskName) + 1];
        var duration := segment.endTime - segment.startTime;
        totalDuration := totalDuration + duration;
      }
    }
    assert segments[..|segments|] == segments;
    var totalSegments := SumValues(taskCounts);
    r := Ok(ExportSummary(totalSegments, taskCounts, totalDuration));
  }

  // ---------------------------------------------------------------------
  // A batch

  /** What `get_batch_export_summary` reports: the loaded summaries added up. */
  ghost function BatchSummary(items: seq<VideoItem>, store: Store): ExportSummary {
    if items == [] then ExportSummary(0, map[], 0.0)
    else
      var acc := BatchSummary(items[..|items| - 1], store);
      var path := items[|items| - 1].videoPath;
      if path in store then
        var s := Summary(store[path].taskSegments);
        ExportSummary(acc.totalSegments + s.totalSegments, Merge(acc.taskCounts, s.taskCounts),
                      acc.totalDuration + s.totalDuration)
      else acc
  }

  /** How many clips of task `name` the videos of the batch that have an annotation hold. */
  function BatchCount(items: seq<VideoItem>, store: Store, name: string): nat {
    if items == [] then 0
    else
      var path := items[|items| - 1].videoPath;
      BatchCount(items[..|items| - 1], store, name) +
        (if path in store then CountNamed(store[path].taskSegments, name) else 0)
  }

  /** How many clips the videos of the batch that have an annotation hold. */
  function BatchClips(items: seq<VideoItem>, store: Store): nat {
    if items == [] then 0
    else
      var path := items[|items| - 1].videoPath;
      BatchClips(items[..|items| - 1], store) +
        (if path in store then |VideoExporter.ToExport(store[path].taskSegments)| else 0)
  }

  /** `combined[task] = combined.get(task, 0) + count` for every entry of `counts`. */
  method MergeInto(combined: Counts, counts: Counts) returns (merged: Counts)
    ensures merged == Merge(combined, counts)
  {
    merged := combined;
    var remaining := counts.Keys;
    MergeNone(combined, counts);
    while remaining != {}
      invariant remaining <= counts.Keys
      invariant merged == Merge(combined, counts - remaining)
      decreases |remaining|
    {
      var task :| task in remaining;
      MergeStep(combined, counts, remaining, task);
      merged := merged[task := Get(merged, task) + counts[task]];
      remaining := remaining - {task};
    }
    RemoveNothing(counts, remaining);
  }

  lemma RemoveNothing(counts: Counts, remaining: set<string>)
    requires remaining == {}
    ensures counts - remaining == counts
  {
  }

  lemma MergeNone(combined: Counts, counts: Counts)
    ensures Merge(combined, counts - counts.Keys) == combined
  {
    var none := counts - counts.Keys;
    assert none.Keys == {};
    var l := Merge(combined, none);
    forall k | k in l.Keys
      ensures l[k] == combined[k]
    {
      assert Get(l, k) == Get(combined, k) + Get(none, k);
    }
  }

  lemma MergeStep(combined: Counts, counts: Counts, remaining: set<string>, task: string)
    requires task in remaining && remaining <= counts.Keys
    ensures Merge(combined, counts - (remaining - {task})) ==
      Merge(combined, counts - remaining)[task := Get(Merge(combined, counts - remaining), task) + counts[task]]
  {
    var l := Merge(combined, counts - (remaining - {task}));
    var before := Merge(combined, counts - remaining);
    var r := before[task := Get(before, task) + counts[task]];
    assert l.Keys == r.Keys;
    forall k | k in l.Keys
      ensures l[k] == r[k]
    {
      assert Get(l, k) == Get(combined, k) + Get(counts - (remaining - {task}), k);
      assert Get(before, k) == Get(combined, k) + Get(counts - remaining, k);
    }
  }

  /**
   * `get_batch_export_summary`: always succeeds; videos without an
   * annotation contribute nothing.
   */
  method GetBatchExportSummary(items: seq<VideoItem>, store: Store) returns (r: Result<ExportSummary, ExportError>)
    ensures r == Ok(BatchSummary(items, store))
  {
    var totalSegments := 0;
    var combined: Counts := map[];
    var totalDuration := 0.0;
    for i := 0 to |items|
      invariant BatchSummary(items[..i], store) == ExportSummary(totalSegments, combined, totalDuration)
    {
      assert items[..i + 1][..i] == items[..i];
      var result := GetExportSummary(items[i].videoPath, store);
      if result.Ok? {
        var summary := result.value;
        totalSegments := totalSegments + summary.totalSegments;
        totalDuration := totalDuration + summary.totalDuration;
        combined := MergeInto(combined, summary.taskCounts);
      }
    }
    assert items[..|items|] == items;
    r := Ok(ExportSummary(totalSegments, combined, totalDuration));
  }

  /** The batch total is the number of clips the exporter would cut from the batch's videos. */
  lemma {:induction false} BatchTotalIsClips(items: seq<VideoItem>, store: Store)
    ensures BatchSummary(items, store).totalSegments == BatchClips(items, store)
  {
    if items != [] {
      BatchTotalIsClips(items[..|items| - 1], store);
      var path := items[|items| - 1].videoPath;
      if path in store {
        TaskCountsTotal(store[path].taskSegments);
      }
    }
  }

  /** The batch total is still the sum of the merged tally. */
  lemma {:induction false} BatchTotalIsSumOfCounts(items: seq<VideoItem>, store: Store)
    ensures BatchSummary(items, store).totalSegments == Total(BatchSummary(items, store).taskCounts)
  {
    if items == [] {
      assert BatchSummary(items, store).taskCounts == map[];
    } else {
      var init := items[..|items| - 1];
      BatchTotalIsSumOfCounts(init, store);
      var path := items[|items| - 1].videoPath;
      if path in store {
        TotalMerge(BatchSummary(init, store).taskCounts, TaskCounts(store[path].taskSegments));
      }
    }
  }

  /** Each task's merged count is the number of its clips across the batch. */
  lemma {:induction false} BatchCountsPerTask(items: seq<VideoItem>, store: Store, name: string)
    ensures Get(BatchSummary(items, store).taskCounts, name) == BatchCount(items, store, name)
  {
    if items != [] {
      BatchCountsPerTask(items[..|items| - 1], store, name);
      var path := items[|items| - 1].videoPath;
      if path in store {
        TaskCountsCount(store[path].taskSegments);
      }
    }
  }

  /** A batch in which no video has an annotation sums to nothing. */
  lemma {:induction false} NoAnnotationsNoClips(items: seq<VideoItem>, store: Store)
    requires forall k :: 0 <= k < |items| ==> items[k].videoPath !in store
    ensures BatchSummary(items, store) == ExportSummary(0, map[], 0.0)
  {
    if items != [] {
      NoAnnotationsNoClips(items[..|items| - 1], store);
    }
  }

  // ---------------------------------------------------------------------
  // The breakdown text

  /** One bullet line of the breakdown. */
  function Line(task: string, count: int): string {
    "  \U{2022} " + task + ": " + IntToString(count) + " clip(s)"
  }

  /** The lines for `tasks`, in that order. */
  function Lines(m: Counts, tasks: seq<string>): (ls: seq<string>)
    ensures |ls| == |tasks|
  {
    if tasks == [] then []
    else Lines(m, tasks[..|tasks| - 1]) + [Line(tasks[|tasks| - 1], Get(m, tasks[|tasks| - 1]))]
  }

  lemma {:induction false} LinesAt(m: Counts, tasks: seq<string>)
    ensures forall k :: 0 <= k < |tasks| ==> Lines(m, tasks)[k] == Line(tasks[k], Get(m, tasks[k]))
  {
    if tasks != [] {
      LinesAt(m, tasks[..|tasks| - 1]);
    }
  }

  /** `task` comes first among `tasks` in Python's string order. */
  predicate IsLeast(task: string, tasks: set<string>) {
    task in tasks && forall other :: other in tasks ==> StrLe(task, other)
  }

  lemma {:induction false} LeastExists(tasks: set<string>)
    requires tasks != {}
    ensures exists task :: IsLeast(task, tasks)
    decreases |tasks|
  {
    var x :| x in tasks;
    StrLeTotalAt(x, x);
    if tasks == {x} {
      assert IsLeast(x, tasks);
    } else {
      LeastExists(tasks - {x});
      var y :| IsLeast(y, tasks - {x});
      StrLeTotalAt(x, y);
      if StrLe(y, x) {
        assert IsLeast(y, tasks);
      } else {
        forall other | other in tasks
          ensures StrLe(x, other)
        {
          if other != x {
            StrLeTransitiveAt(x, y, other);
          }
        }
        assert IsLeast(x, tasks);
      }
    }
  }

  /** The keys in ascending order, as `sorted` lists them. */
  ghost function SortedKeys(tasks: set<string>): seq<string>
    decreases |tasks|
  {
    if tasks == {} then []
    else
      LeastExists(tasks);
      var first :| IsLeast(first, tasks);
      [first] + SortedKeys(tasks - {first})
  }

  /** The least key always comes first. */
  lemma SortedKeysHead(tasks: set<string>, first: string)
    requires IsLeast(first, tasks)
    ensures SortedKeys(tasks) == [first] + SortedKeys(tasks - {first})
  {
    var s := SortedKeys(tasks);
    assert IsLeast(s[0], tasks);
    StrLeAntisymmetric(first, s[0]);
  }

  /** `sorted` lists every key once, in strictly ascending order. */
  lemma {:induction false} SortedKeysSpec(tasks: set<string>)
    ensures |SortedKeys(tasks)| == |tasks|
    ensures forall task :: task in SortedKeys(tasks) <==> task in tasks
    ensures forall i, j :: 0 <= i < j < |SortedKeys(tasks)| ==>
      StrLe(SortedKeys(tasks)[i], SortedKeys(tasks)[j]) && SortedKeys(tasks)[i] != SortedKeys(tasks)[j]
    decreases |tasks|
  {
    if tasks != {} {
      var s := SortedKeys(tasks);
      var first := s[0];
      assert IsLeast(first, tasks);
      var rest := tasks - {first};
      SortedKeysSpec(rest);
      assert s == [first] + SortedKeys(rest);
      SortedCons(first, rest, SortedKeys(rest));
    }
  }

  /** Putting the least key in front of the sorted rest keeps the list sorted, once per key. */
  lemma SortedCons(first: string, rest: set<string>, sr: seq<string>)
    requires first !in rest
    requires forall other :: other in rest ==> StrLe(first, other)
    requires |sr| == |rest|
    requires forall task :: task in sr <==> task in rest
    requires forall i, j :: 0 <= i < j < |sr| ==> StrLe(sr[i], sr[j]) && sr[i] != sr[j]
    ensures |[first] + sr| == |rest + {first}|
    ensures forall task :: task in [first] + sr <==> task in rest + {first}
    ensures forall i, j :: 0 <= i < j < |[first] + sr| ==>
      StrLe(([first] + sr)[i], ([first] + sr)[j]) && ([first] + sr)[i] != ([first] + sr)[j]
  {
    var s := [first] + sr;
    assert forall k :: 1 <= k < |s| ==> s[k] == sr[k - 1];
    forall j | 1 <= j < |s|
      ensures StrLe(s[0], s[j]) && s[0] != s[j]
    {
      assert sr[j - 1] in rest;
    }
  }

  /** `get_breakdown_text`: one bullet line per task, in sorted order, joined by newlines. */
  method GetBreakdownText(summary: ExportSummary) returns (text: string)
    ensures text == Join(Lines(summary.taskCounts, SortedKeys(summary.taskCounts.Keys)), "\n")
  {
    var m := summary.taskCounts;
    var lines: seq<string> := [];
    var remaining := m.Keys;
    ghost var done: seq<string> := [];
    while remaining != {}
      invariant remaining <= m.Keys
      invariant done + SortedKeys(remaining) == SortedKeys(m.Keys)
      invariant lines == Lines(m, done)
      decreases |remaining|
    {
      LeastExists(remaining);
      var task :| task in remaining && IsLeast(task, remaining);
      BreakdownStep(m, done, remaining, task);
      LinesSnoc(m, done, task);
      lines := lines + [Line(task, m[task])];
      done := done + [task];
      remaining := remaining - {task};
    }
    assert SortedKeys(remaining) == [];
    assert done + [] == done;
    text := Join(lines, "\n");
  }

  lemma BreakdownStep(m: Counts, done: seq<string>, remaining: set<string>, task: string)
    requires IsLeast(task, remaining) && remaining <= m.Keys
    requires done + SortedKeys(remaining) == SortedKeys(m.Keys)
    ensures (done + [task]) + SortedKeys(remaining - {task}) == SortedKeys(m.Keys)
  {
    SortedKeysHead(remaining, task);
    var rest := SortedKeys(remaining - {task});
    assert (done + [task]) + rest == done + ([task] + rest);
  }

  lemma LinesSnoc(m: Counts, done: seq<string>, task: string)
    requires task in m
    ensures Lines(m, done + [task]) == Lines(m, done) + [Line(task, m[task])]
  {
    assert (done + [task])[..|done|] == done;
  }

  /** No tasks, no text. */
  lemma EmptyBreakdown(summary: ExportSummary)
    requires summary.taskCounts == map[]
    ensures Join(Lines(summary.taskCounts, SortedKeys(summary.taskCounts.Keys)), "\n") == ""
  {
    assert summary.taskCounts.Keys == {};
  }

  lemma IntToStringNoNewline(i: int)
    ensures forall c :: 0 <= c < |IntToString(i)| ==> IntToString(i)[c] != '\n'
  {
    var digits := NatToString(if i < 0 then -i else i);
    assert forall c :: 0 <= c < |digits| ==> IsDigit(digits[c]);
  }

  lemma LineNoNewline(task: string, count: int)
    requires forall c :: 0 <= c < |task| ==> task[c] != '\n'
    ensures forall c :: 0 <= c < |Line(task, count)| ==> Line(task, count)[c] != '\n'
  {
    IntToStringNoNewline(count);
    var head := "  \U{2022} " + task;
    assert forall c :: 0 <= c < |head| ==> head[c] != '\n';
    var middle := head + ": " + IntToString(count);
    assert forall c :: 0 <= c < |middle| ==> middle[c] != '\n';
    assert Line(task, count) == middle + " clip(s)";
  }

  /**
   * When no task name holds a newline, the text splits back into exactly
   * the lines, one per task (`SortedKeysSpec` and `LinesAt` say which).
   */
  lemma BreakdownSplits(m: Counts)
    requires m != map[]
    requires forall task, c :: task in m && 0 <= c < |task| ==> task[c] != '\n'
    ensures Split(Join(Lines(m, SortedKeys(m.Keys)), "\n"), '\n') == Lines(m, SortedKeys(m.Keys))
  {
    var tasks := SortedKeys(m.Keys);
    SortedKeysSpec(m.Keys);
    LinesAt(m, tasks);
    var ls := Lines(m, tasks);
    var t :| t in m.Keys;
    assert |ls| >= 1;
    forall k | 0 <= k < |ls|
      ensures forall c :: 0 <= c < |ls[k]| ==> ls[k][c] != '\n'
    {
      assert tasks[k] in m;
      LineNoNewline(tasks[k], Get(m, tasks[k]));
    }
    SplitJoin(ls, '\n');
  }

  /** The two-task example: sorted by name, one line each. */
  lemma BreakdownExample(m: Counts)
    requires m == map["Walk" := 2, "Sit" := 1]
    ensures SortedKeys(m.Keys) == ["Sit", "Walk"]
    ensures Lines(m, SortedKeys(m.Keys)) == ["  \U{2022} Sit: 1 clip(s)", "  \U{2022} Walk: 2 clip(s)"]
  {
    assert m.Keys == {"Sit", "Walk"};
    ExampleOrder(m.Keys);
    ExampleLines(m, ["Sit", "Walk"]);
  }

  lemma ExampleOrder(keys: set<string>)
    requires keys == {"Sit", "Walk"}
    ensures SortedKeys(keys) == ["Sit", "Walk"]
  {
    assert StrLe("Sit", "Walk");
    assert IsLeast("Sit", keys);
    SortedKeysHead(keys, "Sit");
    assert keys - {"Sit"} == {"Walk"};
    assert IsLeast("Walk", {"Walk"});
    SortedKeysHead({"Walk"}, "Walk");
    assert {"Walk"} - {"Walk"} == {};
    assert SortedKeys({}) == [];
  }

  lemma ExampleLines(m: Counts, order: seq<string>)
    requires m == map["Walk" := 2, "Sit" := 1] && order == ["Sit", "Walk"]
    ensures Lines(m, order) == ["  \U{2022} Sit: 1 clip(s)", "  \U{2022} Walk: 2 clip(s)"]
  {
    assert Get(m, "Sit") == 1 && Get(m, "Walk") == 2;
    assert order[..1] == ["Sit"];
    assert Lines(m, ["Sit"]) == [Line("Sit", 1)];
    assert Lines(m, order) == [Line("Sit", 1), Line("Walk", 2)];
    ExampleLine("Sit", 1, "1");
    ExampleLine("Walk", 2, "2");
    assert "  \U{2022} " + "Sit" + ": " + "1" + " clip(s)" == "  \U{2022} Sit: 1 clip(s)";
    assert "  \U{2022} " + "Walk" + ": " + "2" + " clip(s)" == "  \U{2022} Walk: 2 clip(s)";
  }

  lemma ExampleLine(task: string, n: int, digits: string)
    requires 0 <= n <= 9 && digits == [DigitChar(n)]
    ensures Line(task, n) == "  \U{2022} " + task + ": " + digits + " clip(s)"
  {
  }
}
