/**
 * The older participant-detection script: one loop reads every frame, runs
 * OCR on every sampled one and drives the same session rules, with no
 * scene-change skip and no empty tail, so a session still open when the
 * video ends is dropped.
 */
module LegacyDetector {

  import opened Optional
  import opened DomainResult
  import opened VideoUtils
  import opened CardText
  import opened CardSessions
  import opened FrameSource
  import ParticipantDetector

  const FrameSkip := 10
  const CardTimeoutFrames := 5
  const SceneChangeThreshold := 8.0

  /** The samples the loop has handed to the session rules after reading frames below `n`. */
  function SamplesBelow(texts: seq<string>, frameSkip: int, n: nat): seq<Sample>
    requires frameSkip != 0 && n <= |texts|
  {
    if n == 0 then []
    else
      SamplesBelow(texts, frameSkip, n - 1) +
        (if (n - 1) % frameSkip == 0 then [Sample(n - 1, CardFromText(texts[n - 1]))] else [])
  }

  /** The script hands the session rules each sampled frame with the card read from it. */
  lemma {:induction false} SamplesBelowSpec(texts: seq<string>, frameSkip: int, n: nat)
    requires frameSkip != 0 && n <= |texts|
    ensures |SamplesBelow(texts, frameSkip, n)| == |SampledBelow(n, frameSkip)|
    ensures forall k :: 0 <= k < |SampledBelow(n, frameSkip)| ==>
      SamplesBelow(texts, frameSkip, n)[k] ==
        Sample(SampledBelow(n, frameSkip)[k], CardFromText(texts[SampledBelow(n, frameSkip)[k]]))
  {
    if n > 0 {
      SamplesBelowSpec(texts, frameSkip, n - 1);
    }
  }

  function LegacySamples(ok: seq<bool>, texts: seq<string>, frameSkip: int): seq<Sample>
    requires frameSkip != 0 && |texts| == |ok|
  {
    SamplesBelow(texts, frameSkip, FirstFail(ok))
  }

  /**
   * `process_video` of the script: metadata and capture errors raise; then
   * every sampled frame is OCR'd, goes through the session rules and is
   * reported to the progress callback, until a frame cannot be read.
   */
  method ProcessVideo(videoPath: string, capture: Result<CaptureProperties, VideoError>, captureOpens: bool,
                      ok: seq<bool>, texts: seq<string>, frameSkip: int, timeout: int)
    returns (r: Result<seq<Marker>, ParticipantDetector.DetectError>, progress: seq<nat>)
    requires frameSkip != 0 && |texts| == |ok|
    ensures GetVideoMetadata(videoPath, capture).IsErr() ==>
      r == Err(ParticipantDetector.MetadataFailed(GetVideoMetadata(videoPath, capture).error)) && progress == []
    ensures GetVideoMetadata(videoPath, capture).IsOk() && !captureOpens ==>
      r == Err(ParticipantDetector.CannotOpen(videoPath)) && progress == []
    ensures GetVideoMetadata(videoPath, capture).IsOk() && captureOpens ==>
      var meta := GetVideoMetadata(videoPath, capture).value;
      && r == Ok(Detections(LegacySamples(ok, texts, frameSkip), timeout, meta.fps))
      && progress == SampledBelow(FirstFail(ok), frameSkip) + [meta.frameCount]
  {
    var metadataResult := GetVideoMetadata(videoPath, capture);
    if metadataResult.IsErr() {
      return Err(ParticipantDetector.MetadataFailed(metadataResult.error)), [];
    }
    var metadata := metadataResult.value;
    var fps := metadata.fps;
    var totalFrames: nat := metadata.frameCount;
    if !captureOpens {
      return Err(ParticipantDetector.CannotOpen(videoPath)), [];
    }
    var detections;
    detections, progress := ReadAndCollect(ok, texts, frameSkip, timeout, fps);
    r := Ok(detections);
    progress := progress + [totalFrames];
  }

  /** The script's frame loop: read, sample, OCR, session rules, progress. */
  method ReadAndCollect(ok: seq<bool>, texts: seq<string>, frameSkip: int, timeout: int, fps: real)
    returns (detections: seq<Marker>, progress: seq<nat>)
    requires frameSkip != 0 && |texts| == |ok| && fps > 0.0
    ensures detections == Detections(LegacySamples(ok, texts, frameSkip), timeout, fps)
    ensures progress == SampledBelow(FirstFail(ok), frameSkip)
  {
    detections := [];
    var sessionStart: Option<nat> := None;
    var sessionDetections: seq<Card> := [];
    var misses := 0;
    var n := 0;
    progress := [];
    ghost var samples: seq<Sample> := [];
    while true
      invariant n <= FirstFail(ok)
      invariant samples == SamplesBelow(texts, frameSkip, n)
      invariant Session(sessionStart, sessionDetections, misses, detections) == Run(Idle, samples, timeout, fps)
      invariant progress == SampledBelow(n, frameSkip)
      decreases |ok| - n
    {
      if n >= |ok| || !ok[n] {
        break;
      }
      NextFrame(ok, texts, frameSkip, n);
      if n % frameSkip != 0 {
        n := n + 1;
        continue;
      }
      var result := ParseCard(texts[n]);
      var sample := Sample(n, result);
      RunSnoc(Idle, samples, sample, timeout, fps);
      sessionStart, sessionDetections, misses, detections :=
        SessionStep(sessionStart, sessionDetections, misses, detections, sample, timeout, fps);
      samples := samples + [sample];
      progress := progress + [n];
      n := n + 1;
    }
  }

  /** Reading frame `n` extends the samples and the progress when `n` is sampled, and nothing else. */
  lemma NextFrame(ok: seq<bool>, texts: seq<string>, frameSkip: int, n: nat)
    requires frameSkip != 0 && |texts| == |ok| && n < |ok| && ok[n] && n <= FirstFail(ok)
    ensures n + 1 <= FirstFail(ok)
    ensures SamplesBelow(texts, frameSkip, n + 1) == SamplesBelow(texts, frameSkip, n) +
      (if n % frameSkip == 0 then [Sample(n, CardFromText(texts[n]))] else [])
    ensures SampledBelow(n + 1, frameSkip) == SampledBelow(n, frameSkip) + (if n % frameSkip == 0 then [n] else [])
  {
  }

  /**
   * With no frame similar to its predecessor the app OCRs what the script
   * does, so the script's markers are a prefix of the app's (for the same
   * timeout): the app only adds what its empty tail closes.
   */
  lemma LegacyIsPrefixOfApp(ok: seq<bool>, texts: seq<string>, similar: seq<bool>, frameSkip: int, total: nat, timeout: int, fps: real)
    requires frameSkip != 0 && |texts| == |ok| && |similar| == |ok| && fps > 0.0 && timeout >= 1
    requires forall n :: 0 <= n < |similar| ==> !similar[n]
    ensures Detections(LegacySamples(ok, texts, frameSkip), timeout, fps) <=
            Detections(ParticipantDetector.AppSamples(ok, texts, similar, frameSkip, total, timeout), timeout, fps)
    ensures Run(Idle, LegacySamples(ok, texts, frameSkip), timeout, fps).start.Some? ==>
      |Detections(LegacySamples(ok, texts, frameSkip), timeout, fps)| + 1 ==
      |Detections(ParticipantDetector.AppSamples(ok, texts, similar, frameSkip, total, timeout), timeout, fps)|
  {
    var frames := ParticipantDetector.SampledFrames(ok, frameSkip);
    var legacy := LegacySamples(ok, texts, frameSkip);
    SamplesBelowSpec(texts, frameSkip, FirstFail(ok));
    ParticipantDetector.NothingSimilarOcrsAll(frames, texts, similar, |frames|);
    assert ParticipantDetector.OcrSamples(frames, texts, similar, |frames|) == legacy;
    assert ParticipantDetector.AppSamples(ok, texts, similar, frameSkip, total, timeout) == legacy + Sentinel(total, timeout);
    SentinelClosesSession(legacy, total, timeout, fps);
    var st := Run(Idle, legacy, timeout, fps);
    if st.start.Some? {
      RunAppend(Idle, legacy, Sentinel(total, timeout), timeout, fps);
      MissesAlwaysBounded(legacy, timeout, fps);
      EmptySamplesClose(st, total, timeout, timeout, fps);
    }
  }
}
