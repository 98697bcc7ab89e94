/**
 * The processing pipeline of `app/processing/video_processor.py`: it reads
 * the metadata, turns the classifier's time ranges into task segments,
 * runs the participant detector, and assembles the annotation, reporting
 * its progress in percent along the way.
 */
module VideoProcessor {

  import opened Optional
  import opened Text
  import opened Numeric
  import opened DomainResult
  import opened VideoUtils
  import opened VideoInference
  import CardSessions
  import ParticipantDetector
  import opened Annotation

  // ---------------------------------------------------------------------
  // _parse_timestamp

  /**
   * "H:M:S" to seconds: exactly three ':'-separated parts, integer hours
   * and minutes, decimal seconds, none of them negative; anything else
   * raises `ValueError`.
   */
  function ParseTimestamp(s: string): (r: Outcome<real>)
    ensures |Split(s, ':')| != 3 ==> r == RaisesValueError
    ensures r.Returns? ==> r.value >= 0.0
  {
    var parts := Split(s, ':');
    if |parts| != 3 then RaisesValueError
    else
      match (ParseInt(parts[0]), ParseInt(parts[1]), ParseFloat(parts[2]))
      case (Some(h), Some(m), Some(sec)) =>
        if h < 0 || m < 0 || sec < 0.0 then RaisesValueError
        else Returns(h as real * 3600.0 + m as real * 60.0 + sec)
      case _ => RaisesValueError
  }

  /**
   * The three fields of a timestamp determine the result: it returns
   * exactly when all three read as non-negative numbers, and the value is
   * hours·3600 + minutes·60 + seconds.
   */
  lemma ParseTimestampFields(h: string, m: string, sec: string)
    requires forall i :: 0 <= i < |h| ==> h[i] != ':'
    requires forall i :: 0 <= i < |m| ==> m[i] != ':'
    requires forall i :: 0 <= i < |sec| ==> sec[i] != ':'
    ensures ParseTimestamp(h + ":" + m + ":" + sec).Returns? <==>
      && ParseInt(h).Some? && ParseInt(h).value >= 0
      && ParseInt(m).Some? && ParseInt(m).value >= 0
      && ParseFloat(sec).Some? && ParseFloat(sec).value >= 0.0
    ensures ParseTimestamp(h + ":" + m + ":" + sec).Returns? ==>
      ParseTimestamp(h + ":" + m + ":" + sec).value ==
        ParseInt(h).value as real * 3600.0 + ParseInt(m).value as real * 60.0 + ParseFloat(sec).value
  {
    assert h + ":" + m + ":" + sec == h + [':'] + m + [':'] + sec;
    SplitJoin3(h, m, sec, ':');
  }

  /**
   * What `format_timestamp` renders for a non-negative time reads back as
   * that time to within half a millisecond.
   */
  lemma ParseFormatted(t: real)
    requires t >= 0.0
    ensures ParseTimestamp(FormatTimestamp(t)).Returns?
    ensures t - 0.0005 < ParseTimestamp(FormatTimestamp(t)).value <= t + 0.0005
  {
    FormatTimestampFields(t);
    HoursNonNegative(t);
    ParseClockFields(FormatTimestamp(t), t, Hours(t), Minutes(t), Mod(t, 60.0));
  }

  lemma ParseClockFields(s: string, t: real, h: int, m: int, rest: real)
    requires h >= 0 && m >= 0 && rest >= 0.0
    requires Split(s, ':') == [PadInt(h, 2), PadInt(m, 2), SecondsText(rest)]
    requires t == 3600.0 * h as real + 60.0 * m as real + rest
    ensures ParseTimestamp(s).Returns?
    ensures t - 0.0005 < ParseTimestamp(s).value <= t + 0.0005
  {
    var sec := SecondsTextParse(rest);
    ParseIntPadInt(h, 2);
    ParseIntPadInt(m, 2);
    ParseThreeFields(s, PadInt(h, 2), PadInt(m, 2), SecondsText(rest), h, m, sec);
    WithinHalfMilli(t, h, m, rest, sec);
  }

  lemma HoursNonNegative(t: real)
    requires t >= 0.0
    ensures Hours(t) >= 0
  {
  }

  lemma WithinHalfMilli(t: real, h: int, m: int, rest: real, sec: real)
    requires t == 3600.0 * h as real + 60.0 * m as real + rest
    requires rest - 0.0005 < sec <= rest + 0.0005
    ensures t - 0.0005 < h as real * 3600.0 + m as real * 60.0 + sec <= t + 0.0005
  {
  }

  /** Three fields that read as non-negative numbers give their combined value. */
  lemma ParseThreeFields(s: string, a: string, b: string, c: string, h: int, m: int, sec: real)
    requires Split(s, ':') == [a, b, c]
    requires ParseInt(a) == Some(h) && ParseInt(b) == Some(m) && ParseFloat(c) == Some(sec)
    requires h >= 0 && m >= 0 && sec >= 0.0
    ensures ParseTimestamp(s) == Returns(h as real * 3600.0 + m as real * 60.0 + sec)
  {
  }

  /** A negative time renders with negative hours, which the parser refuses. */
  lemma ParseFormattedNegative(t: real)
    requires t < 0.0
    ensures ParseTimestamp(FormatTimestamp(t)) == RaisesValueError
  {
    FormatTimestampFields(t);
    ParseIntPadInt(Hours(t), 2);
    assert Hours(t) < 0;
  }

  /** "02:30:45" is 9045 seconds. */
  lemma ParseCombined(s: string)
    requires s == "02:30:45"
    ensures ParseTimestamp(s) == Returns(9045.0)
  {
    var h, m, sec := s[..2], s[3..5], s[6..];
    assert s == h + ":" + m + ":" + sec;
    TwoDigits(h);
    TwoDigits(m);
    TwoDigits(sec);
    ParseIntDigits(h);
    ParseIntDigits(m);
    UnsignedDecimalDigits(sec);
    ParseTimestampFields(h, m, sec);
  }

  lemma TwoDigits(s: string)
    requires |s| == 2 && AllDigits(s)
    ensures DigitsValue(s) == DigitValue(s[0]) * 10 + DigitValue(s[1])
  {
    var first := s[..1];
    assert first[..0] == [] && first[0] == s[0];
    assert DigitsValue(first) == DigitValue(s[0]);
  }

  /** Two fields, as in "01:30", are refused. */
  lemma ParseTwoFields(a: string, b: string)
    requires forall i :: 0 <= i < |a| ==> a[i] != ':'
    requires forall i :: 0 <= i < |b| ==> b[i] != ':'
    ensures ParseTimestamp(a + ":" + b) == RaisesValueError
  {
    assert a + ":" + b == a + [':'] + b;
    SplitPrefix(a, ':', b);
    SplitNoSep(b, ':');
  }

  /** Four fields, as in "01:02:03:04", are refused. */
  lemma ParseFourFields(a: string, b: string, c: string, d: string)
    requires forall i :: 0 <= i < |a| ==> a[i] != ':'
    requires forall i :: 0 <= i < |b| ==> b[i] != ':'
    requires forall i :: 0 <= i < |c| ==> c[i] != ':'
    requires forall i :: 0 <= i < |d| ==> d[i] != ':'
    ensures ParseTimestamp(a + ":" + b + ":" + c + ":" + d) == RaisesValueError
  {
    assert a + ":" + b + ":" + c + ":" + d == a + [':'] + (b + [':'] + c + [':'] + d);
    SplitPrefix(a, ':', b + [':'] + c + [':'] + d);
    SplitJoin3(b, c, d, ':');
  }

  // ---------------------------------------------------------------------
  // participant_progress

  /** The detector's progress mapped onto the second half of the bar. */
  function ParticipantProgress(current: int, total: int): (p: int)
    requires total != 0
    ensures 0 <= current <= total ==> 50 <= p <= 100
    ensures current == total ==> p == 100
    ensures total > 0 && current == 0 ==> p == 50
  {
    ProgressFraction(current, total);
    var fraction := current as real / total as real;
    50 + Trunc(fraction * 50.0)
  }

  /** The fraction of frames done lies in [0, 1], and is exactly 0 or 1 at the ends. */
  lemma ProgressFraction(current: int, total: int)
    requires total != 0
    ensures 0 <= current <= total ==> 0.0 <= current as real / total as real <= 1.0
    ensures current == total ==> current as real / total as real == 1.0
    ensures current == 0 ==> current as real / total as real == 0.0
  {
    if 0 <= current <= total {
      QuotientBounds(current as real, total as real);
    }
  }

  /** More frames done never shows less progress. */
  lemma ProgressMonotone(a: int, b: int, total: int)
    requires 0 <= a <= b && total > 0
    ensures ParticipantProgress(a, total) <= ParticipantProgress(b, total)
  {
    var fa, fb := a as real / total as real, b as real / total as real;
    assert fa <= fb;
    TruncMonotone(fa * 50.0, fb * 50.0);
  }

  lemma ProgressExample()
    ensures ParticipantProgress(25, 50) == 75
  {
    assert 25 as real / 50 as real * 50.0 == 25.0;
  }

  // ---------------------------------------------------------------------
  // Building the annotation

  datatype ProcessError =
    | MetadataError(cause: VideoError)
    | InvalidTimestamp
    | DetectionFailed(detectError: ParticipantDetector.DetectError)

  /** One segment per time range, from its rendered start and end. */
  function SegmentOf(range: TimeRange): (r: Outcome<TaskSegment>)
    requires |range.confidences| >= 1
    ensures r.Returns? ==> r.value.taskName == range.task && r.value.confidence == range.AvgConf()
  {
    match (ParseTimestamp(range.Start()), ParseTimestamp(range.End()))
    case (Returns(s), Returns(e)) => Returns(TaskSegment(range.task, s, e, range.AvgConf()))
    case _ => RaisesValueError
  }

  /** `[TaskSegment(...) for seg in time_ranges]`, raising at the first bad timestamp. */
  function SegmentsOf(ranges: seq<TimeRange>): (r: Outcome<seq<TaskSegment>>)
    requires forall k :: 0 <= k < |ranges| ==> |ranges[k].confidences| >= 1
    ensures r.Returns? ==> |r.value| == |ranges|
    ensures r.Returns? ==> forall k :: 0 <= k < |ranges| ==> SegmentOf(ranges[k]) == Returns(r.value[k])
    ensures r.RaisesValueError? ==> exists k :: 0 <= k < |ranges| && SegmentOf(ranges[k]).RaisesValueError?
  {
    Collect(seq(|ranges|, k requires 0 <= k < |ranges| => SegmentOf(ranges[k])))
  }

  /** The values of a list of outcomes, or the error when any of them raised. */
  function Collect<T>(outs: seq<Outcome<T>>): (r: Outcome<seq<T>>)
    ensures r.Returns? ==> |r.value| == |outs| && forall k :: 0 <= k < |outs| ==> outs[k] == Returns(r.value[k])
    ensures r.RaisesValueError? ==> exists k :: 0 <= k < |outs| && outs[k].RaisesValueError?
  {
    if outs == [] then Returns([])
    else
      match (outs[0], Collect(outs[1..]))
      case (Returns(s), Returns(rest)) =>
        assert forall k :: 1 <= k < |outs| ==> outs[k] == outs[1..][k - 1];
        Returns([s] + rest)
      case (RaisesValueError, _) => RaisesValueError
      case (_, RaisesValueError) =>
        assert forall k :: 0 <= k < |outs| - 1 ==> outs[1..][k] == outs[k + 1];
        RaisesValueError
  }

  /**
   * Time ranges that start and end at non-negative times always convert,
   * one segment per range in order, each within half a millisecond of the
   * range's times.
   */
  lemma SegmentsOfNonNegative(ranges: seq<TimeRange>)
    requires forall k :: 0 <= k < |ranges| ==> |ranges[k].confidences| >= 1
    requires forall k :: 0 <= k < |ranges| ==> ranges[k].startSec >= 0.0 && ranges[k].endSec >= 0.0
    ensures SegmentsOf(ranges).Returns?
    ensures forall k :: 0 <= k < |ranges| ==>
      && SegmentsOf(ranges).value[k].taskName == ranges[k].task
      && ranges[k].startSec - 0.0005 < SegmentsOf(ranges).value[k].startTime <= ranges[k].startSec + 0.0005
      && ranges[k].endSec - 0.0005 < SegmentsOf(ranges).value[k].endTime <= ranges[k].endSec + 0.0005
  {
    forall k | 0 <= k < |ranges|
      ensures SegmentOf(ranges[k]).Returns?
      ensures && ranges[k].startSec - 0.0005 < SegmentOf(ranges[k]).value.startTime <= ranges[k].startSec + 0.0005
              && ranges[k].endSec - 0.0005 < SegmentOf(ranges[k]).value.endTime <= ranges[k].endSec + 0.0005
    {
      ParseFormatted(ranges[k].startSec);
      ParseFormatted(ranges[k].endSec);
    }
  }

  /** The detector's dictionaries as annotation markers, field for field. */
  function MarkersOf(detections: seq<CardSessions.Marker>): (ms: seq<ParticipantMarker>)
    ensures |ms| == |detections|
  {
    seq(|detections|, k requires 0 <= k < |detections| =>
      var d := detections[k];
      ParticipantMarker(d.participantType, d.participantNumber, d.timestamp, d.duration, d.confidence))
  }

  /** The percentages the detector's progress reports become. */
  function DetectorPercentages(frames: seq<nat>, total: int): (ps: seq<(string, int)>)
    requires total != 0
    ensures |ps| == |frames|
    ensures forall k :: 0 <= k < |frames| ==> ps[k] == ("Detecting participants", ParticipantProgress(frames[k], total))
  {
    seq(|frames|, k requires 0 <= k < |frames| => ("Detecting participants", ParticipantProgress(frames[k], total)))
  }

  /**
   * `process_video`: a metadata error stops everything before any stage;
   * a bad timestamp or a detector error stops the run where it occurs;
   * otherwise the annotation holds the metadata, one segment per range and
   * one marker per detection, and is marked processed. `progress` lists the
   * (stage, percent) reports in order.
   */
  method ProcessVideo(videoPath: string, capture: Result<CaptureProperties, VideoError>, captureOpens: bool,
                      ranges: seq<TimeRange>, ok: seq<bool>, texts: seq<string>, similar: seq<bool>,
                      created: string, modified: string)
    returns (r: Result<VideoAnnotation, ProcessError>, progress: seq<(string, int)>)
    requires forall k :: 0 <= k < |ranges| ==> |ranges[k].confidences| >= 1
    requires |texts| == |ok| && |similar| == |ok|
    ensures GetVideoMetadata(videoPath, capture).IsErr() ==>
      r == Err(MetadataError(GetVideoMetadata(videoPath, capture).error)) && progress == []
    ensures GetVideoMetadata(videoPath, capture).IsOk() && SegmentsOf(ranges).RaisesValueError? ==>
      r == Err(InvalidTimestamp) && progress == [("Analysing tasks", 0)]
    ensures GetVideoMetadata(videoPath, capture).IsOk() && SegmentsOf(ranges).Returns? && !captureOpens ==>
      r == Err(DetectionFailed(ParticipantDetector.CannotOpen(videoPath)))
      && progress == [("Analysing tasks", 0), ("Detecting participants", 50)]
    ensures GetVideoMetadata(videoPath, capture).IsOk() && SegmentsOf(ranges).Returns? && captureOpens ==>
      var meta := GetVideoMetadata(videoPath, capture).value;
      var frames := ParticipantDetector.SampledFrames(ok, ParticipantDetector.FrameSkip);
      var samples := ParticipantDetector.AppSamples(ok, texts, similar, ParticipantDetector.FrameSkip,
                                                    meta.frameCount, ParticipantDetector.CardTimeoutFrames);
      var detections := CardSessions.Detections(samples, ParticipantDetector.CardTimeoutFrames, meta.fps);
      && r == Ok(Fresh(videoPath, created, modified).(
                   duration := meta.duration, fps := meta.fps, frameCount := meta.frameCount,
                   taskSegments := SegmentsOf(ranges).value,
                   participantMarkers := MarkersOf(detections),
                   processed := true))
      && progress == [("Analysing tasks", 0), ("Detecting participants", 50)] +
                     DetectorPercentages(ParticipantDetector.OcrProgress(frames, texts, similar, |frames|) + [meta.frameCount],
                                         meta.frameCount) +
                     [("Complete", 100)]
  {
    var metadataResult := GetVideoMetadata(videoPath, capture);
    if metadataResult.IsErr() {
      return Err(MetadataError(metadataResult.error)), [];
    }
    var metadata := metadataResult.value;
    var annotation := Fresh(videoPath, created, modified).(
      duration := metadata.duration, fps := metadata.fps, frameCount := metadata.frameCount, processed := false);
    progress := [("Analysing tasks", 0)];

    var segments := SegmentsOf(ranges);
    if segments.RaisesValueError? {
      return Err(InvalidTimestamp), progress;
    }
    annotation := annotation.(taskSegments := segments.value);
    progress := progress + [("Detecting participants", 50)];

    var stageProgress;
    r, stageProgress := DetectStage(videoPath, capture, captureOpens, ok, texts, similar, metadata, annotation);
    progress := progress + stageProgress;
  }

  /**
   * The participant stage of `process_video` on an annotation that already
   * holds the metadata and the segments: a detector error stops the run,
   * otherwise the markers are stored and the annotation is marked processed.
   */
  method DetectStage(videoPath: string, capture: Result<CaptureProperties, VideoError>, captureOpens: bool,
                     ok: seq<bool>, texts: seq<string>, similar: seq<bool>,
                     meta: VideoMetadata, annotation: VideoAnnotation)
    returns (r: Result<VideoAnnotation, ProcessError>, progress: seq<(string, int)>)
    requires |texts| == |ok| && |similar| == |ok|
    requires GetVideoMetadata(videoPath, capture) == Ok(meta)
    ensures !captureOpens ==>
      r == Err(DetectionFailed(ParticipantDetector.CannotOpen(videoPath))) && progress == []
    ensures captureOpens ==>
      var frames := ParticipantDetector.SampledFrames(ok, ParticipantDetector.FrameSkip);
      var samples := ParticipantDetector.AppSamples(ok, texts, similar, ParticipantDetector.FrameSkip,
                                                    meta.frameCount, ParticipantDetector.CardTimeoutFrames);
      var detections := CardSessions.Detections(samples, ParticipantDetector.CardTimeoutFrames, meta.fps);
      && r == Ok(annotation.(participantMarkers := MarkersOf(detections), processed := true))
      && progress == DetectorPercentages(ParticipantDetector.OcrProgress(frames, texts, similar, |frames|) + [meta.frameCount],
                                         meta.frameCount) +
                     [("Complete", 100)]
  {
    var detected, frameProgress := ParticipantDetector.ProcessVideo(
      videoPath, capture, captureOpens, ok, texts, similar,
      ParticipantDetector.FrameSkip, ParticipantDetector.CardTimeoutFrames);
    if detected.IsErr() {
      return Err(DetectionFailed(detected.error)), [];
    }
    progress := DetectorPercentages(frameProgress, meta.frameCount);
    var marked := annotation.(participantMarkers := MarkersOf(detected.value));

    marked := marked.(processed := true);
    progress := progress + [("Complete", 100)];
    r := Ok(marked);
  }
}
