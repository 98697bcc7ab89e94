/**
 * The annotation entities of `app/models/annotation.py`: task segments,
 * participant markers and the per-video annotation, their conversion to and
 * from the JSON-shaped dictionaries the repository stores, and the query
 * that picks the participant for a task.
 */
module Annotation {

  import opened Optional
  import opened Text
  import opened DomainResult

  // ---------------------------------------------------------------------
  // The dictionaries `to_dict` builds and `from_dict` reads

  /** A JSON value, as `json.load` hands it to `from_dict`. */
  datatype Value =
    | VNull
    | VBool(b: bool)
    | VInt(i: int)
    | VReal(r: real)
    | VStr(s: string)
    | VList(items: seq<Value>)
    | VDict(fields: map<string, Value>)

  type Dict = map<string, Value>

  /**
   * Why a dictionary does not describe an entity: a required key is absent
   * (`KeyError`), or a value is not of the kind the field holds.
   */
  datatype DecodeError = MissingKey(key: string) | WrongType(key: string)

  /** A number as a `float` field holds it: JSON integers read as their value. */
  predicate Denotes(v: Value, x: real) {
    v == VReal(x) || (v.VInt? && v.i as real == x)
  }

  function AsReal(v: Value, key: string): (r: Result<real, DecodeError>)
    ensures r.Ok? <==> v.VReal? || v.VInt?
    ensures r.Ok? ==> Denotes(v, r.value)
  {
    match v
    case VReal(x) => Ok(x)
    case VInt(i) => Ok(i as real)
    case _ => Err(WrongType(key))
  }

  function AsInt(v: Value, key: string): Result<int, DecodeError> {
    if v.VInt? then Ok(v.i) else Err(WrongType(key))
  }

  function AsStr(v: Value, key: string): Result<string, DecodeError> {
    if v.VStr? then Ok(v.s) else Err(WrongType(key))
  }

  function AsBool(v: Value, key: string): Result<bool, DecodeError> {
    if v.VBool? then Ok(v.b) else Err(WrongType(key))
  }

  // `data[key]`: a missing key raises.

  function StrField(d: Dict, key: string): Result<string, DecodeError> {
    if key in d then AsStr(d[key], key) else Err(MissingKey(key))
  }

  function IntField(d: Dict, key: string): Result<int, DecodeError> {
    if key in d then AsInt(d[key], key) else Err(MissingKey(key))
  }

  function RealField(d: Dict, key: string): Result<real, DecodeError> {
    if key in d then AsReal(d[key], key) else Err(MissingKey(key))
  }

  // `data.get(key, default)`: a missing key gives the default.

  function StrFieldOr(d: Dict, key: string, default: string): Result<string, DecodeError> {
    if key in d then AsStr(d[key], key) else Ok(default)
  }

  function IntFieldOr(d: Dict, key: string, default: int): Result<int, DecodeError> {
    if key in d then AsInt(d[key], key) else Ok(default)
  }

  function RealFieldOr(d: Dict, key: string, default: real): Result<real, DecodeError> {
    if key in d then AsReal(d[key], key) else Ok(default)
  }

  function BoolFieldOr(d: Dict, key: string, default: bool): Result<bool, DecodeError> {
    if key in d then AsBool(d[key], key) else Ok(default)
  }

  function DictFieldOr(d: Dict, key: string): Result<Dict, DecodeError> {
    if key !in d then Ok(map[])
    else if d[key].VDict? then Ok(d[key].fields)
    else Err(WrongType(key))
  }

  function ListFieldOr(d: Dict, key: string): Result<seq<Value>, DecodeError> {
    if key !in d then Ok([])
    else if d[key].VList? then Ok(d[key].items)
    else Err(WrongType(key))
  }

  // ---------------------------------------------------------------------
  // Task segments

  const DefaultConfidence := 1.0

  datatype TaskSegment = TaskSegment(taskName: string, startTime: real, endTime: real, confidence: real) {

    /** The length of the segment in seconds. */
    function Duration(): (d: real)
      ensures startTime + d == endTime
      ensures d > 0.0 <==> startTime < endTime
    {
      endTime - startTime
    }

    function ToDict(): (d: Dict)
      ensures d.Keys == {"task_name", "start_time", "end_time", "confidence"}
    {
      map["task_name" := VStr(taskName), "start_time" := VReal(startTime),
          "end_time" := VReal(endTime), "confidence" := VReal(confidence)]
    }
  }

  /** `TaskSegment.from_dict`. */
  function SegmentFromDict(d: Dict): (r: Result<TaskSegment, DecodeError>)
    ensures "task_name" !in d ==> r == Err(MissingKey("task_name"))
    ensures "start_time" !in d || "end_time" !in d ==> r.Err?
    ensures r.Ok? ==> d["task_name"] == VStr(r.value.taskName)
    ensures r.Ok? ==> Denotes(d["start_time"], r.value.startTime) && Denotes(d["end_time"], r.value.endTime)
    ensures r.Ok? && "confidence" in d ==> Denotes(d["confidence"], r.value.confidence)
    ensures r.Ok? && "confidence" !in d ==> r.value.confidence == DefaultConfidence
  {
    var name :- StrField(d, "task_name");
    var start :- RealField(d, "start_time");
    var end :- RealField(d, "end_time");
    var confidence :- RealFieldOr(d, "confidence", DefaultConfidence);
    Ok(TaskSegment(name, start, end, confidence))
  }

  lemma SegmentRoundTrip(s: TaskSegment)
    ensures SegmentFromDict(s.ToDict()) == Ok(s)
  {
  }

  // ---------------------------------------------------------------------
  // Participant markers

  const DefaultMarkerDuration := 0.0

  datatype ParticipantMarker = ParticipantMarker(participantType: string, participantNumber: int,
                                                 timestamp: real, duration: real, confidence: real) {

    /**
     * The type followed by the number in decimal, as in "P1": the type is a
     * prefix and the rest reads back as the number.
     */
    function Label(): (l: string)
      ensures |participantType| <= |l| && l[..|participantType|] == participantType
      ensures ParseInt(l[|participantType|..]) == Some(participantNumber)
    {
      ParseIntOfIntToString(participantNumber);
      var l := participantType + IntToString(participantNumber);
      assert l[|participantType|..] == IntToString(participantNumber);
      l
    }

    function ToDict(): (d: Dict)
      ensures d.Keys == {"participant_type", "participant_number", "timestamp", "duration", "confidence"}
    {
      map["participant_type" := VStr(participantType), "participant_number" := VInt(participantNumber),
          "timestamp" := VReal(timestamp), "duration" := VReal(duration), "confidence" := VReal(confidence)]
    }
  }

  /** `ParticipantMarker.from_dict`. */
  function MarkerFromDict(d: Dict): (r: Result<ParticipantMarker, DecodeError>)
    ensures "participant_type" !in d ==> r == Err(MissingKey("participant_type"))
    ensures "participant_number" !in d || "timestamp" !in d ==> r.Err?
    ensures r.Ok? ==> d["participant_type"] == VStr(r.value.participantType)
    ensures r.Ok? ==> d["participant_number"] == VInt(r.value.participantNumber)
    ensures r.Ok? ==> Denotes(d["timestamp"], r.value.timestamp)
    ensures r.Ok? && "duration" !in d ==> r.value.duration == DefaultMarkerDuration
    ensures r.Ok? && "duration" in d ==> Denotes(d["duration"], r.value.duration)
    ensures r.Ok? && "confidence" !in d ==> r.value.confidence == DefaultConfidence
    ensures r.Ok? && "confidence" in d ==> Denotes(d["confidence"], r.value.confidence)
  {
    var kind :- StrField(d, "participant_type");
    var number :- IntField(d, "participant_number");
    var timestamp :- RealField(d, "timestamp");
    var duration :- RealFieldOr(d, "duration", DefaultMarkerDuration);
    var confidence :- RealFieldOr(d, "confidence", DefaultConfidence);
    Ok(ParticipantMarker(kind, number, timestamp, duration, confidence))
  }

  lemma MarkerRoundTrip(m: ParticipantMarker)
    ensures MarkerFromDict(m.ToDict()) == Ok(m)
  {
  }

  // ---------------------------------------------------------------------
  // Lists of entities

  function SegmentsToValues(segs: seq<TaskSegment>): (vs: seq<Value>)
    ensures |vs| == |segs|
    ensures forall k :: 0 <= k < |segs| ==> vs[k] == VDict(segs[k].ToDict())
  {
    if segs == [] then [] else [VDict(segs[0].ToDict())] + SegmentsToValues(segs[1..])
  }

  /** `[TaskSegment.from_dict(seg) for seg in items]`, failing at the first bad item. */
  function SegmentsFromValues(items: seq<Value>): (r: Result<seq<TaskSegment>, DecodeError>)
    ensures r.Ok? ==> |r.value| == |items|
  {
    if items == [] then Ok([])
    else
      var seg :- if items[0].VDict? then SegmentFromDict(items[0].fields) else Err(WrongType("task_segments"));
      var rest :- SegmentsFromValues(items[1..]);
      Ok([seg] + rest)
  }

  lemma {:induction false} SegmentsRoundTrip(segs: seq<TaskSegment>)
    ensures SegmentsFromValues(SegmentsToValues(segs)) == Ok(segs)
  {
    if segs != [] {
      SegmentRoundTrip(segs[0]);
      SegmentsRoundTrip(segs[1..]);
      assert SegmentsToValues(segs)[1..] == SegmentsToValues(segs[1..]);
      assert [segs[0]] + segs[1..] == segs;
    }
  }

  function MarkersToValues(ms: seq<ParticipantMarker>): (vs: seq<Value>)
    ensures |vs| == |ms|
    ensures forall k :: 0 <= k < |ms| ==> vs[k] == VDict(ms[k].ToDict())
  {
    if ms == [] then [] else [VDict(ms[0].ToDict())] + MarkersToValues(ms[1..])
  }

  /** `[ParticipantMarker.from_dict(m) for m in items]`, failing at the first bad item. */
  function MarkersFromValues(items: seq<Value>): (r: Result<seq<ParticipantMarker>, DecodeError>)
    ensures r.Ok? ==> |r.value| == |items|
  {
    if items == [] then Ok([])
    else
      var m :- if items[0].VDict? then MarkerFromDict(items[0].fields) else Err(WrongType("participant_markers"));
      var rest :- MarkersFromValues(items[1..]);
      Ok([m] + rest)
  }

  lemma {:induction false} MarkersRoundTrip(ms: seq<ParticipantMarker>)
    ensures MarkersFromValues(MarkersToValues(ms)) == Ok(ms)
  {
    if ms != [] {
      MarkerRoundTrip(ms[0]);
      MarkersRoundTrip(ms[1..]);
      assert MarkersToValues(ms)[1..] == MarkersToValues(ms[1..]);
      assert [ms[0]] + ms[1..] == ms;
    }
  }

  // ---------------------------------------------------------------------
  // The annotation of one video

  const DefaultVersion := 1
  const DefaultFps := 30.0
  const DefaultModelVersion := "1.0"

  /**
   * `created_at` and `modified_at` are ISO timestamps read from the clock;
   * the model takes the readings as strings.
   */
  datatype VideoAnnotation = VideoAnnotation(
    videoPath: string,
    version: int,
    createdAt: string,
    modifiedAt: string,
    duration: real,
    fps: real,
    frameCount: int,
    taskSegments: seq<TaskSegment>,
    participantMarkers: seq<ParticipantMarker>,
    processed: bool,
    modelVersion: string)
  {
    /**
     * `to_dict`: the nested layout the repository writes, with
     * `modified_at` replaced by the clock reading `now`.
     */
    function ToDict(now: string): (d: Dict)
      ensures d.Keys == {"version", "video_path", "created_at", "modified_at", "metadata",
                         "task_segments", "participant_markers", "processing"}
      ensures d["modified_at"] == VStr(now)
    {
      map[
        "version" := VInt(version),
        "video_path" := VStr(videoPath),
        "created_at" := VStr(createdAt),
        "modified_at" := VStr(now),
        "metadata" := VDict(map["duration" := VReal(duration), "fps" := VReal(fps), "frame_count" := VInt(frameCount)]),
        "task_segments" := VList(SegmentsToValues(taskSegments)),
        "participant_markers" := VList(MarkersToValues(participantMarkers)),
        "processing" := VDict(map["processed" := VBool(processed), "model_version" := VStr(modelVersion)])
      ]
    }

    /** `get_participant_for_task`: the label of the marker that applies to `segment`. */
    function GetParticipantForTask(segment: TaskSegment): (r: Option<string>)
      ensures r.None? <==> participantMarkers == []
    {
      ParticipantFor(participantMarkers, segment.startTime)
    }
  }

  /** `VideoAnnotation(video_path=...)` with every other field at its default. */
  function Fresh(videoPath: string, created: string, modified: string): (a: VideoAnnotation)
    ensures a.videoPath == videoPath && a.createdAt == created && a.modifiedAt == modified
    ensures a.version == 1 && a.duration == 0.0 && a.fps == 30.0 && a.frameCount == 0
    ensures a.taskSegments == [] && a.participantMarkers == [] && !a.processed && a.modelVersion == "1.0"
  {
    VideoAnnotation(videoPath, DefaultVersion, created, modified, 0.0, DefaultFps, 0, [], [], false, DefaultModelVersion)
  }

  /** The `metadata` part: duration, fps and frame count, each with its default. */
  function MetadataFromDict(data: Dict): (r: Result<(real, real, int), DecodeError>)
    ensures r.Ok? && "metadata" !in data ==> r.value == (0.0, DefaultFps, 0)
  {
    var metadata :- DictFieldOr(data, "metadata");
    var duration :- RealFieldOr(metadata, "duration", 0.0);
    var fps :- RealFieldOr(metadata, "fps", DefaultFps);
    var frameCount :- IntFieldOr(metadata, "frame_count", 0);
    Ok((duration, fps, frameCount))
  }

  /** The `processing` part: the processed flag and the model version, each with its default. */
  function ProcessingFromDict(data: Dict): (r: Result<(bool, string), DecodeError>)
    ensures r.Ok? && "processing" !in data ==> r.value == (false, DefaultModelVersion)
  {
    var processing :- DictFieldOr(data, "processing");
    var processed :- BoolFieldOr(processing, "processed", false);
    var modelVersion :- StrFieldOr(processing, "model_version", DefaultModelVersion);
    Ok((processed, modelVersion))
  }

  function SegmentsFromDict(data: Dict): (r: Result<seq<TaskSegment>, DecodeError>)
    ensures r.Ok? && "task_segments" !in data ==> r.value == []
  {
    var items :- ListFieldOr(data, "task_segments");
    SegmentsFromValues(items)
  }

  function MarkersFromDict(data: Dict): (r: Result<seq<ParticipantMarker>, DecodeError>)
    ensures r.Ok? && "participant_markers" !in data ==> r.value == []
  {
    var items :- ListFieldOr(data, "participant_markers");
    MarkersFromValues(items)
  }

  /**
   * `VideoAnnotation.from_dict`; `created` and `modified` are the clock
   * readings used for absent timestamps.
   */
  function AnnotationFromDict(data: Dict, created: string, modified: string): (r: Result<VideoAnnotation, DecodeError>)
    ensures "video_path" !in data ==> r == Err(MissingKey("video_path"))
    ensures r.Ok? ==> data["video_path"] == VStr(r.value.videoPath)
    ensures r.Ok? && "version" !in data ==> r.value.version == DefaultVersion
    ensures r.Ok? && "created_at" !in data ==> r.value.createdAt == created
    ensures r.Ok? && "modified_at" !in data ==> r.value.modifiedAt == modified
    ensures r.Ok? && "metadata" !in data ==>
      r.value.duration == 0.0 && r.value.fps == DefaultFps && r.value.frameCount == 0
    ensures r.Ok? && "processing" !in data ==> !r.value.processed && r.value.modelVersion == DefaultModelVersion
    ensures r.Ok? && "task_segments" !in data ==> r.value.taskSegments == []
    ensures r.Ok? && "participant_markers" !in data ==> r.value.participantMarkers == []
  {
    var videoPath :- StrField(data, "video_path");
    var version :- IntFieldOr(data, "version", DefaultVersion);
    var createdAt :- StrFieldOr(data, "created_at", created);
    var modifiedAt :- StrFieldOr(data, "modified_at", modified);
    var metadata :- MetadataFromDict(data);
    var processing :- ProcessingFromDict(data);
    var segments :- SegmentsFromDict(data);
    var markers :- MarkersFromDict(data);
    Ok(VideoAnnotation(videoPath, version, createdAt, modifiedAt, metadata.0, metadata.1, metadata.2,
                       segments, markers, processing.0, processing.1))
  }

  /**
   * Reading back what `to_dict` wrote gives the annotation again, except
   * that `modified_at` is the time of writing.
   */
  lemma AnnotationRoundTrip(a: VideoAnnotation, now: string, created: string, modified: string)
    ensures AnnotationFromDict(a.ToDict(now), created, modified) == Ok(a.(modifiedAt := now))
  {
    var d := a.ToDict(now);
    HeaderRoundTrip(a, now, created, modified);
    PartsRoundTrip(a, now);
  }

  lemma HeaderRoundTrip(a: VideoAnnotation, now: string, created: string, modified: string)
    ensures StrField(a.ToDict(now), "video_path") == Ok(a.videoPath)
    ensures IntFieldOr(a.ToDict(now), "version", DefaultVersion) == Ok(a.version)
    ensures StrFieldOr(a.ToDict(now), "created_at", created) == Ok(a.createdAt)
    ensures StrFieldOr(a.ToDict(now), "modified_at", modified) == Ok(now)
  {
  }

  lemma PartsRoundTrip(a: VideoAnnotation, now: string)
    ensures MetadataFromDict(a.ToDict(now)) == Ok((a.duration, a.fps, a.frameCount))
    ensures ProcessingFromDict(a.ToDict(now)) == Ok((a.processed, a.modelVersion))
    ensures SegmentsFromDict(a.ToDict(now)) == Ok(a.taskSegments)
    ensures MarkersFromDict(a.ToDict(now)) == Ok(a.participantMarkers)
  {
    var d := a.ToDict(now);
    var metadata := map["duration" := VReal(a.duration), "fps" := VReal(a.fps), "frame_count" := VInt(a.frameCount)];
    assert DictFieldOr(d, "metadata") == Ok(metadata);
    var processing := map["processed" := VBool(a.processed), "model_version" := VStr(a.modelVersion)];
    assert DictFieldOr(d, "processing") == Ok(processing);
    SegmentsRoundTrip(a.taskSegments);
    assert ListFieldOr(d, "task_segments") == Ok(SegmentsToValues(a.taskSegments));
    MarkersRoundTrip(a.participantMarkers);
    assert ListFieldOr(d, "participant_markers") == Ok(MarkersToValues(a.participantMarkers));
  }

  /** A dictionary holding only the path reads as a fresh annotation. */
  lemma MinimalDictIsFresh(path: string, created: string, modified: string)
    ensures AnnotationFromDict(map["video_path" := VStr(path)], created, modified) == Ok(Fresh(path, created, modified))
  {
  }

  // ---------------------------------------------------------------------
  // The participant for a task

  /**
   * `max(before, key=timestamp)` over the first `n` markers with a
   * timestamp at or before `t`: the index of the first one with the largest
   * timestamp, or -1 when there is none.
   */
  function LatestAtOrBefore(ms: seq<ParticipantMarker>, t: real, n: nat): (k: int)
    requires n <= |ms|
    ensures -1 <= k < n
    ensures k == -1 <==> forall j :: 0 <= j < n ==> ms[j].timestamp > t
    ensures k >= 0 ==> ms[k].timestamp <= t
    ensures k >= 0 ==> forall j :: 0 <= j < n && ms[j].timestamp <= t ==> ms[j].timestamp <= ms[k].timestamp
    ensures k >= 0 ==> forall j :: 0 <= j < k && ms[j].timestamp <= t ==> ms[j].timestamp < ms[k].timestamp
  {
    if n == 0 then -1
    else
      var k := LatestAtOrBefore(ms, t, n - 1);
      if ms[n - 1].timestamp <= t && (k < 0 || ms[n - 1].timestamp > ms[k].timestamp) then n - 1 else k
  }

  /**
   * `min(after, key=timestamp)` over the first `n` markers with a timestamp
   * after `t`: the index of the first one with the smallest timestamp, or
   * -1 when there is none.
   */
  function EarliestAfter(ms: seq<ParticipantMarker>, t: real, n: nat): (k: int)
    requires n <= |ms|
    ensures -1 <= k < n
    ensures k == -1 <==> forall j :: 0 <= j < n ==> ms[j].timestamp <= t
    ensures k >= 0 ==> ms[k].timestamp > t
    ensures k >= 0 ==> forall j :: 0 <= j < n && ms[j].timestamp > t ==> ms[k].timestamp <= ms[j].timestamp
    ensures k >= 0 ==> forall j :: 0 <= j < k && ms[j].timestamp > t ==> ms[k].timestamp < ms[j].timestamp
  {
    if n == 0 then -1
    else
      var k := EarliestAfter(ms, t, n - 1);
      if ms[n - 1].timestamp > t && (k < 0 || ms[n - 1].timestamp < ms[k].timestamp) then n - 1 else k
  }

  /** The closest marker at or before `start`, else the closest after it, else none. */
  function ParticipantFor(ms: seq<ParticipantMarker>, start: real): (r: Option<string>)
    ensures r.None? <==> ms == []
  {
    var before := LatestAtOrBefore(ms, start, |ms|);
    if before >= 0 then Some(ms[before].Label())
    else
      var after := EarliestAfter(ms, start, |ms|);
      if after >= 0 then Some(ms[after].Label())
      else None
  }

  /**
   * When some marker is at or before the start, the answer is the label of
   * the first marker with the largest such timestamp, whatever comes after.
   */
  lemma ParticipantBefore(ms: seq<ParticipantMarker>, start: real, k: nat)
    requires k < |ms| && ms[k].timestamp <= start
    requires forall j :: 0 <= j < |ms| && ms[j].timestamp <= start ==> ms[j].timestamp <= ms[k].timestamp
    requires forall j :: 0 <= j < k && ms[j].timestamp <= start ==> ms[j].timestamp < ms[k].timestamp
    ensures ParticipantFor(ms, start) == Some(ms[k].Label())
  {
    FirstLatest(ms, start, k);
  }

  lemma FirstLatest(ms: seq<ParticipantMarker>, t: real, k: nat)
    requires k < |ms| && ms[k].timestamp <= t
    requires forall j :: 0 <= j < |ms| && ms[j].timestamp <= t ==> ms[j].timestamp <= ms[k].timestamp
    requires forall j :: 0 <= j < k && ms[j].timestamp <= t ==> ms[j].timestamp < ms[k].timestamp
    ensures LatestAtOrBefore(ms, t, |ms|) == k
  {
    var b := LatestAtOrBefore(ms, t, |ms|);
    assert b >= 0;
    assert ms[k].timestamp <= ms[b].timestamp;
  }

  /**
   * When every marker is after the start, the answer is the label of the
   * first marker with the smallest timestamp.
   */
  lemma ParticipantAfter(ms: seq<ParticipantMarker>, start: real, k: nat)
    requires forall j :: 0 <= j < |ms| ==> ms[j].timestamp > start
    requires k < |ms|
    requires forall j :: 0 <= j < |ms| ==> ms[k].timestamp <= ms[j].timestamp
    requires forall j :: 0 <= j < k ==> ms[k].timestamp < ms[j].timestamp
    ensures ParticipantFor(ms, start) == Some(ms[k].Label())
  {
    NoneAtOrBefore(ms, start);
    FirstEarliest(ms, start, k);
  }

  lemma NoneAtOrBefore(ms: seq<ParticipantMarker>, t: real)
    requires forall j :: 0 <= j < |ms| ==> ms[j].timestamp > t
    ensures LatestAtOrBefore(ms, t, |ms|) == -1
  {
  }

  lemma FirstEarliest(ms: seq<ParticipantMarker>, t: real, k: nat)
    requires k < |ms| && ms[k].timestamp > t
    requires forall j :: 0 <= j < |ms| ==> ms[k].timestamp <= ms[j].timestamp
    requires forall j :: 0 <= j < k ==> ms[k].timestamp < ms[j].timestamp
    ensures EarliestAfter(ms, t, |ms|) == k
  {
    var a := EarliestAfter(ms, t, |ms|);
    assert a >= 0;
    assert ms[a].timestamp <= ms[k].timestamp;
  }

  lemma LabelExamples()
    ensures ParticipantMarker("P", 1, 5.0, 3.0, 0.9).Label() == "P1"
    ensures ParticipantMarker("E", 3, 0.0, 0.0, 1.0).Label() == "E3"
  {
  }
}
