/**
 * The app's participant detector: sampled frames are read, OCR is skipped
 * on frames too similar to the previous one while no card is showing, and
 * the parse results, followed by a tail of empty samples, feed the session
 * loop. Images, OCR and the frame difference are inputs: `texts[n]` is the
 * text read from frame `n`, and `similar[n]` says whether frame `n` differs
 * from the frame before it by less than the threshold.
 */
module ParticipantDetector {

  import opened Optional
  import opened DomainResult
  import opened VideoUtils
  import opened CardText
  import opened CardSessions
  import opened FrameSource

  const FrameSkip := 10
  const CardTimeoutFrames := 10
  /** The mean absolute grey-level difference below which a frame counts as unchanged. */
  const SceneChangeThreshold := 5.0

  /** Why `process_video` raises `ProcessingError`. */
  datatype DetectError = MetadataFailed(cause: VideoError) | CannotOpen(path: string)

  // ---------------------------------------------------------------------
  // Reading frames

  /** The frame numbers `_read_frames` yields. */
  function SampledFrames(ok: seq<bool>, frameSkip: int): seq<nat>
    requires frameSkip != 0
  {
    SampledBelow(FirstFail(ok), frameSkip)
  }

  /**
   * `_read_frames`: frames off the sampling grid are only grabbed, frames on
   * it are read and yielded; the first failure ends the stream.
   */
  method ReadFrames(ok: seq<bool>, frameSkip: int) returns (frames: seq<nat>)
    requires frameSkip != 0
    ensures frames == SampledFrames(ok, frameSkip)
  {
    frames := [];
    var n := 0;
    while true
      invariant n <= FirstFail(ok)
      invariant frames == SampledBelow(n, frameSkip)
      decreases |ok| - n
    {
      if n % frameSkip != 0 {
        if n >= |ok| || !ok[n] {
          break;
        }
        n := n + 1;
        continue;
      }
      if n >= |ok| || !ok[n] {
        break;
      }
      frames := frames + [n];
      n := n + 1;
    }
  }

  /** The frames yielded are multiples of the skip, increasing, and all of those readable. */
  lemma ReadFramesSpec(ok: seq<bool>, frameSkip: int)
    requires frameSkip != 0
    ensures forall k :: 0 <= k < |SampledFrames(ok, frameSkip)| ==>
      SampledFrames(ok, frameSkip)[k] < FirstFail(ok) && SampledFrames(ok, frameSkip)[k] % frameSkip == 0
    ensures forall i, j :: 0 <= i < j < |SampledFrames(ok, frameSkip)| ==>
      SampledFrames(ok, frameSkip)[i] < SampledFrames(ok, frameSkip)[j]
    ensures forall f :: 0 <= f < FirstFail(ok) && f % frameSkip == 0 ==> f in SampledFrames(ok, frameSkip)
  {
    SampledBelowSpec(FirstFail(ok), frameSkip);
  }

  // ---------------------------------------------------------------------
  // OCR with the scene-change skip

  /** Every frame number has an OCR text and a similarity flag. */
  ghost predicate Covered(frames: seq<nat>, texts: seq<string>, similar: seq<bool>) {
    forall k :: 0 <= k < |frames| ==> frames[k] < |texts| && frames[k] < |similar|
  }

  /**
   * Frame `k` is not OCR'd: no card is showing after the previous frame,
   * and this one is too similar to it.
   */
  predicate Skipped(frames: seq<nat>, similar: seq<bool>, prev: seq<Sample>, k: nat)
    requires k < |frames| && frames[k] < |similar| && k <= |prev|
  {
    k > 0 && prev[k - 1].result.None? && similar[frames[k]]
  }

  /** What `_ocr_frames` yields for the first `n` frames. */
  function OcrSamples(frames: seq<nat>, texts: seq<string>, similar: seq<bool>, n: nat): (s: seq<Sample>)
    requires n <= |frames| && Covered(frames, texts, similar)
    ensures |s| == n
    ensures forall k :: 0 <= k < n ==> s[k].frame == frames[k]
  {
    if n == 0 then []
    else
      var prev := OcrSamples(frames, texts, similar, n - 1);
      var k := n - 1;
      if Skipped(frames, similar, prev, k) then prev + [Sample(frames[k], prev[k - 1].result)]
      else prev + [Sample(frames[k], CardFromText(texts[frames[k]]))]
  }

  /** The frames `_ocr_frames` reports progress for: those it OCR'd, in order. */
  function OcrProgress(frames: seq<nat>, texts: seq<string>, similar: seq<bool>, n: nat): seq<nat>
    requires n <= |frames| && Covered(frames, texts, similar)
  {
    if n == 0 then []
    else
      var prev := OcrSamples(frames, texts, similar, n - 1);
      OcrProgress(frames, texts, similar, n - 1) + (if Skipped(frames, similar, prev, n - 1) then [] else [frames[n - 1]])
  }

  /**
   * `_ocr_frames`: while no card is showing, a frame similar to the previous
   * one repeats the previous result instead of running OCR.
   */
  method OcrFrames(frames: seq<nat>, texts: seq<string>, similar: seq<bool>) returns (samples: seq<Sample>, progress: seq<nat>)
    requires Covered(frames, texts, similar)
    ensures samples == OcrSamples(frames, texts, similar, |frames|)
    ensures progress == OcrProgress(frames, texts, similar, |frames|)
  {
    samples := [];
    progress := [];
    var hasPrevFrame := false;
    var prevResult: Option<Card> := None;
    var inSession := false;
    for k := 0 to |frames|
      invariant samples == OcrSamples(frames, texts, similar, k)
      invariant progress == OcrProgress(frames, texts, similar, k)
      invariant hasPrevFrame <==> k > 0
      invariant inSession <==> prevResult.Some?
      invariant k > 0 ==> prevResult == samples[k - 1].result
    {
      var frameNum := frames[k];
      if !inSession && hasPrevFrame {
        if similar[frameNum] {
          samples := samples + [Sample(frameNum, prevResult)];
          continue;
        }
      }
      var result := ParseCard(texts[frameNum]);
      prevResult := result;
      hasPrevFrame := true;
      inSession := result.Some?;
      samples := samples + [Sample(frameNum, result)];
      progress := progress + [frameNum];
    }
  }

  /**
   * Frame `k` yields no card if it was skipped, and otherwise the card read
   * from its text.
   */
  predicate OcrOutcome(frames: seq<nat>, texts: seq<string>, similar: seq<bool>, s: seq<Sample>, k: nat)
    requires k < |frames| && k < |s| && Covered(frames, texts, similar)
  {
    if k > 0 && s[k - 1].result.None? && similar[frames[k]] then s[k].result.None?
    else s[k].result == CardFromText(texts[frames[k]])
  }

  /**
   * OCR runs on the first frame, on every frame while a card is showing, and
   * on every frame that changed; a skipped frame always yields no card.
   */
  lemma {:induction false} OcrSamplesSpec(frames: seq<nat>, texts: seq<string>, similar: seq<bool>, n: nat)
    requires n <= |frames| && Covered(frames, texts, similar)
    ensures forall k :: 0 <= k < n ==> OcrOutcome(frames, texts, similar, OcrSamples(frames, texts, similar, n), k)
  {
    if n > 0 {
      OcrSamplesSpec(frames, texts, similar, n - 1);
      var prev := OcrSamples(frames, texts, similar, n - 1);
      var s := OcrSamples(frames, texts, similar, n);
      forall k | 0 <= k < n
        ensures OcrOutcome(frames, texts, similar, s, k)
      {
        if k > 0 {
          assert s[k - 1] == prev[k - 1];
        }
        if k < n - 1 {
          assert s[k] == prev[k];
          assert OcrOutcome(frames, texts, similar, prev, k);
        }
      }
    }
  }

  /** When no frame is similar to its predecessor, every frame is OCR'd. */
  lemma {:induction false} NothingSimilarOcrsAll(frames: seq<nat>, texts: seq<string>, similar: seq<bool>, n: nat)
    requires n <= |frames| && Covered(frames, texts, similar)
    requires forall k :: 0 <= k < |frames| ==> !similar[frames[k]]
    ensures OcrSamples(frames, texts, similar, n) == seq(n, k requires 0 <= k < n => Sample(frames[k], CardFromText(texts[frames[k]])))
    ensures OcrProgress(frames, texts, similar, n) == frames[..n]
  {
    if n > 0 {
      NothingSimilarOcrsAll(frames, texts, similar, n - 1);
      assert frames[..n] == frames[..n - 1] + [frames[n - 1]];
    }
  }

  // ---------------------------------------------------------------------
  // The whole detector

  /** The samples the session loop consumes: the OCR'd frames, then the tail. */
  function AppSamples(ok: seq<bool>, texts: seq<string>, similar: seq<bool>, frameSkip: int, total: nat, timeout: int): seq<Sample>
    requires frameSkip != 0 && |texts| == |ok| && |similar| == |ok|
  {
    var frames := SampledFrames(ok, frameSkip);
    ReadFramesSpec(ok, frameSkip);
    OcrSamples(frames, texts, similar, |frames|) + Sentinel(total, timeout)
  }

  /**
   * `process_video`: a metadata error or a capture that will not open
   * raises; otherwise the markers of the session loop over the OCR results
   * and `timeout` empty samples at frame `total_frames`. `progress` lists the
   * frames reported to the progress callback.
   */
  method ProcessVideo(videoPath: string, capture: Result<CaptureProperties, VideoError>, captureOpens: bool,
                      ok: seq<bool>, texts: seq<string>, similar: seq<bool>, frameSkip: int, timeout: int)
    returns (r: Result<seq<Marker>, DetectError>, progress: seq<nat>)
    requires frameSkip != 0 && |texts| == |ok| && |similar| == |ok|
    ensures GetVideoMetadata(videoPath, capture).IsErr() ==>
      r == Err(MetadataFailed(GetVideoMetadata(videoPath, capture).error)) && progress == []
    ensures GetVideoMetadata(videoPath, capture).IsOk() && !captureOpens ==>
      r == Err(CannotOpen(videoPath)) && progress == []
    ensures GetVideoMetadata(videoPath, capture).IsOk() && captureOpens ==>
      var meta := GetVideoMetadata(videoPath, capture).value;
      var frames := SampledFrames(ok, frameSkip);
      && r == Ok(Detections(AppSamples(ok, texts, similar, frameSkip, meta.frameCount, timeout), timeout, meta.fps))
      && progress == OcrProgress(frames, texts, similar, |frames|) + [meta.frameCount]
  {
    var metadataResult := GetVideoMetadata(videoPath, capture);
    if metadataResult.IsErr() {
      return Err(MetadataFailed(metadataResult.error)), [];
    }
    var metadata := metadataResult.value;
    var fps := metadata.fps;
    var totalFrames: nat := metadata.frameCount;
    if !captureOpens {
      return Err(CannotOpen(videoPath)), [];
    }
    var frames := ReadFrames(ok, frameSkip);
    ReadFramesSpec(ok, frameSkip);
    var samples, ocrProgress := OcrFrames(frames, texts, similar);
    var detections := CollectSessions(samples + Sentinel(totalFrames, timeout), timeout, fps);
    r := Ok(detections);
    progress := ocrProgress + [totalFrames];
  }

  /**
   * With a positive timeout no session is left open at the end, and the
   * markers come out in strictly increasing time.
   */
  lemma AppSessionsClosedAndOrdered(ok: seq<bool>, texts: seq<string>, similar: seq<bool>, frameSkip: int, total: nat, timeout: int, fps: real)
    requires frameSkip != 0 && |texts| == |ok| && |similar| == |ok| && fps > 0.0 && timeout >= 1
    ensures Run(Idle, AppSamples(ok, texts, similar, frameSkip, total, timeout), timeout, fps).start.None?
    ensures var d := Detections(AppSamples(ok, texts, similar, frameSkip, total, timeout), timeout, fps);
      forall i, j :: 0 <= i < j < |d| ==> d[i].timestamp < d[j].timestamp
  {
    var frames := SampledFrames(ok, frameSkip);
    ReadFramesSpec(ok, frameSkip);
    var ocr := OcrSamples(frames, texts, similar, |frames|);
    SentinelClosesSession(ocr, total, timeout, fps);
    var all := ocr + Sentinel(total, timeout);
    assert all == AppSamples(ok, texts, similar, frameSkip, total, timeout);
    forall i, j | 0 <= i < j < |all| && all[i].result.Some? && all[j].result.Some?
      ensures all[i].frame < all[j].frame
    {
      assert j < |ocr|;
      assert all[i] == ocr[i] && all[j] == ocr[j];
    }
    MarkersIncrease(all, timeout, fps);
  }
}
