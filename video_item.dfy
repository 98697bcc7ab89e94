/** A video in the library grid. */
module VideoItems {

  import opened Optional
  import opened Text
  import VideoUtils

  datatype VideoItem = VideoItem(
    videoPath: string,
    thumbnailPath: Option<string>,
    processed: bool,
    duration: real,
    fps: real,
    annotationVersion: Option<int>)
  {
    /** `filename`: the last component of the video path. */
    function Filename(): string {
      FileName(videoPath)
    }

    /** `duration_str`. */
    function DurationStr(): string {
      VideoUtils.FormatDuration(duration)
    }

    /** Whether the annotation version is truthy: present and non-zero. */
    predicate HasVersion() {
      annotationVersion.Some? && annotationVersion.value != 0
    }

    /** `status_text`. */
    function StatusText(): (s: string)
      ensures !processed ==> s == "Unprocessed"
      ensures processed && HasVersion() ==> s == "Processed (v" + IntToString(annotationVersion.value) + ")"
      ensures processed && !HasVersion() ==> s == "Processed"
    {
      if !processed then "Unprocessed"
      else if HasVersion() then "Processed (v" + IntToString(annotationVersion.value) + ")"
      else "Processed"
    }
  }

  /** A new item, with the constructor's defaults. */
  function NewVideoItem(videoPath: string): VideoItem {
    VideoItem(videoPath, None, false, 0.0, 30.0, None)
  }

  /** The status names the processed flag, and shows a version exactly when one is truthy. */
  lemma StatusTextDistinguishes(item: VideoItem)
    ensures item.StatusText() == "Unprocessed" <==> !item.processed
    ensures StartsWith(item.StatusText(), "Processed") <==> item.processed
    ensures (item.StatusText() == "Processed") <==> item.processed && !item.HasVersion()
  {
    var s := item.StatusText();
    if item.processed && item.HasVersion() {
      assert s[..9] == "Processed";
      assert |s| > 9;
    } else if item.processed {
      assert s[..9] == s;
    } else {
      assert s[0] != "Processed"[0];
    }
  }

  lemma StatusTextExamples()
    ensures NewVideoItem("a.mp4").StatusText() == "Unprocessed"
    ensures NewVideoItem("a.mp4").(processed := true, annotationVersion := Some(2)).StatusText() == "Processed (v2)"
    ensures NewVideoItem("a.mp4").(processed := true, annotationVersion := Some(0)).StatusText() == "Processed"
  {
  }

  lemma FilenameExample()
    ensures NewVideoItem("/videos/day1/session.mp4").Filename() == "session.mp4"
  {
    assert "/videos/day1/session.mp4" == "/videos/day1" + "/" + "session.mp4";
    FileNameOfJoin("/videos/day1", "session.mp4");
  }
}
