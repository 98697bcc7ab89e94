/** Duration formatting and the validity rule for video metadata. */
module VideoUtils {

  import opened Optional
  import opened Text
  import opened Numeric
  import opened DomainResult

  /** Whole seconds past the minute, as `int(seconds % 60)`. */
  function Secs(seconds: real): int {
    Trunc(Mod(seconds, 60.0))
  }

  /** `format_duration`: "HH:MM:SS", hours unbounded. */
  function FormatDuration(seconds: real): string {
    PadInt(Hours(seconds), 2) + ":" + PadInt(Minutes(seconds), 2) + ":" + PadInt(Secs(seconds), 2)
  }

  /**
   * The three fields of a formatted duration: minutes and seconds in [0, 59]
   * with exactly two digits, and for a non-negative duration they recompose
   * its whole number of seconds.
   */
  lemma FormatDurationFields(seconds: real)
    ensures 0 <= Minutes(seconds) < 60 && 0 <= Secs(seconds) < 60
    ensures Split(FormatDuration(seconds), ':')
         == [PadInt(Hours(seconds), 2), ZeroPad(Minutes(seconds), 2), ZeroPad(Secs(seconds), 2)]
    ensures |ZeroPad(Minutes(seconds), 2)| == 2 && |ZeroPad(Secs(seconds), 2)| == 2
    ensures seconds >= 0.0 ==>
      (Hours(seconds) >= 0 &&
       3600 * Hours(seconds) + 60 * Minutes(seconds) + Secs(seconds) == seconds.Floor)
  {
    ClockSplit(seconds);
    var h, m, s := PadInt(Hours(seconds), 2), ZeroPad(Minutes(seconds), 2), ZeroPad(Secs(seconds), 2);
    PadIntChars(Hours(seconds), 2);
    ZeroPadWidth(Minutes(seconds), 2);
    ZeroPadWidth(Secs(seconds), 2);
    assert FormatDuration(seconds) == h + [':'] + m + [':'] + s;
    SplitJoin3(h, m, s, ':');
  }

  lemma FormatDurationZero()
    ensures FormatDuration(0.0) == "00:00:00"
  {
    FormatDurationOf(0.0, 0, 0, 0);
    TwoDigitsExamples();
  }

  lemma FormatDurationMinutes()
    ensures FormatDuration(125.0) == "00:02:05"
  {
    FormatDurationOf(125.0, 0, 2, 5);
    TwoDigitsExamples();
  }

  lemma FormatDurationHour()
    ensures FormatDuration(3661.0) == "01:01:01"
  {
    FormatDurationOf(3661.0, 1, 1, 1);
    TwoDigitsExamples();
  }

  /** Hours are not wrapped at a day. */
  lemma FormatDurationDay()
    ensures FormatDuration(86400.0) == "24:00:00"
  {
    FormatDurationOf(86400.0, 24, 0, 0);
    TwoDigitsExamples();
  }

  lemma TwoDigitsExamples()
    ensures TwoDigits(0) == "00" && TwoDigits(1) == "01" && TwoDigits(2) == "02"
    ensures TwoDigits(5) == "05" && TwoDigits(24) == "24"
  {
  }

  lemma FormatDurationOf(seconds: real, h: nat, m: nat, s: nat)
    requires h < 100 && m < 60 && s < 60
    requires seconds == (3600 * h + 60 * m + s) as real
    ensures FormatDuration(seconds) == TwoDigits(h) + ":" + TwoDigits(m) + ":" + TwoDigits(s)
  {
    ClockOf(seconds, h, m, s);
    TwoDigitsPad(h);
    TwoDigitsPad(m);
    TwoDigitsPad(s);
  }

  lemma ClockOf(seconds: real, h: nat, m: nat, s: nat)
    requires m < 60 && s < 60
    requires seconds == (3600 * h + 60 * m + s) as real
    ensures Hours(seconds) == h && Minutes(seconds) == m && Secs(seconds) == s
  {
    assert (seconds / 3600.0).Floor == h;
    assert Mod(seconds, 3600.0) == (60 * m + s) as real;
    assert (seconds / 60.0).Floor == 60 * h + m;
    assert Mod(seconds, 60.0) == s as real;
  }

  function TwoDigits(n: nat): string
    requires n < 100
  {
    [DigitChar(n / 10), DigitChar(n % 10)]
  }

  lemma TwoDigitsPad(n: nat)
    requires n < 100
    ensures PadInt(n, 2) == TwoDigits(n)
  {
    if n >= 10 {
      assert NatToString(n) == NatToString(n / 10) + [DigitChar(n % 10)];
    }
  }

  datatype VideoError =
    | VideoNotFound(path: string)
    | VideoReadFailed(path: string)
    | VideoCorrupted(path: string)

  /** What an opened capture reports, before conversion with `int()`. */
  datatype CaptureProperties = CaptureProperties(fps: real, frameCount: real, width: real, height: real)

  datatype VideoMetadata = VideoMetadata(fps: real, frameCount: int, width: int, height: int, duration: real) {

    /** `duration_str`. */
    function DurationStr(): string {
      FormatDuration(duration)
    }
  }

  /**
   * `get_video_metadata`, given the outcome of opening the capture: rejected
   * when the frame rate or the frame count is not positive, otherwise the
   * duration is frames divided by frame rate.
   */
  function GetVideoMetadata(videoPath: string, capture: Result<CaptureProperties, VideoError>): (r: Result<VideoMetadata, VideoError>)
    ensures capture.IsErr() ==> r == Err(capture.error)
    ensures capture.IsOk() ==>
      (r.IsErr() <==> capture.value.fps <= 0.0 || Trunc(capture.value.frameCount) <= 0)
    ensures capture.IsOk() && r.IsErr() ==> r.error == VideoCorrupted(videoPath)
    ensures r.IsOk() ==>
      r.value.fps == capture.value.fps > 0.0 &&
      r.value.frameCount == Trunc(capture.value.frameCount) > 0 &&
      r.value.width == Trunc(capture.value.width) && r.value.height == Trunc(capture.value.height) &&
      r.value.duration > 0.0 && r.value.duration * r.value.fps == r.value.frameCount as real
  {
    match capture
    case Err(e) => Err(e)
    case Ok(props) =>
      var frameCount := Trunc(props.frameCount);
      if props.fps <= 0.0 || frameCount <= 0 then Err(VideoCorrupted(videoPath))
      else Ok(VideoMetadata(props.fps, frameCount, Trunc(props.width), Trunc(props.height),
                            frameCount as real / props.fps))
  }

  /** 3750 frames at 30 fps last 125 s, shown as "00:02:05". */
  lemma MetadataExample()
    ensures GetVideoMetadata("v.mp4", Ok(CaptureProperties(30.0, 3750.0, 1280.0, 720.0)))
         == Ok(VideoMetadata(30.0, 3750, 1280, 720, 125.0))
    ensures GetVideoMetadata("v.mp4", Ok(CaptureProperties(30.0, 3750.0, 1280.0, 720.0))).value.DurationStr() == "00:02:05"
    ensures GetVideoMetadata("v.mp4", Ok(CaptureProperties(0.0, 3750.0, 1280.0, 720.0))) == Err(VideoCorrupted("v.mp4"))
  {
    FormatDurationMinutes();
  }
}
