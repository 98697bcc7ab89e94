/** Task names, task colours and the supported file extensions. */
module Constants {

  import opened Text

  /** The values of the `TaskName` enumeration, in declaration order. */
  const TaskNames: seq<string> := [
    "CameraTarget", "ChickenThigh", "CystModel", "GloveCut", "Idle",
    "MovingIndividualAxes", "RingRollercoaster", "SeaSpikes", "Suture"
  ]

  /** `TaskName.is_valid`: exact, case-sensitive membership. */
  predicate IsValidTaskName(name: string) {
    name in TaskNames
  }

  lemma TaskNamesAreNine()
    ensures |TaskNames| == 9
    ensures forall i, j :: 0 <= i < j < |TaskNames| ==> TaskNames[i] != TaskNames[j]
  {
  }

  /** The nine names are the only valid ones; "" and a lower-cased name are not. */
  lemma IsValidTaskNameExactly(name: string)
    ensures IsValidTaskName(name) <==>
      name == "CameraTarget" || name == "ChickenThigh" || name == "CystModel" ||
      name == "GloveCut" || name == "Idle" || name == "MovingIndividualAxes" ||
      name == "RingRollercoaster" || name == "SeaSpikes" || name == "Suture"
    ensures !IsValidTaskName("") && !IsValidTaskName("idle") && !IsValidTaskName("SUTURE")
  {
  }

  /** `TaskColors.COLORS`, as hex strings. */
  const Colors: map<string, string> := map[
    "CameraTarget" := "#2f81f7",
    "ChickenThigh" := "#d29922",
    "CystModel" := "#e85aad",
    "GloveCut" := "#f85149",
    "Idle" := "#6e7681",
    "MovingIndividualAxes" := "#a371f7",
    "RingRollercoaster" := "#1f6feb",
    "SeaSpikes" := "#26a641",
    "Suture" := "#3fb950"
  ]

  const DefaultColor: string := "#999999"

  /** `TaskColors.get_color`: the task's colour, or the default grey. */
  function GetColor(name: string): string {
    if name in Colors then Colors[name] else DefaultColor
  }

  /** Exactly the nine task names have a colour of their own; every other name gets the default. */
  lemma GetColorDefaultIffUnknown(name: string)
    ensures (GetColor(name) == DefaultColor) <==> !IsValidTaskName(name)
    ensures IsValidTaskName(name) ==> GetColor(name) == Colors[name]
  {
    assert Colors.Keys == set k | k in TaskNames;
  }

  const VideoExtensions: seq<string> := [".mp4", ".avi", ".mov", ".mkv", ".flv", ".wmv", ".webm", ".m4v"]

  const ImageExtensions: seq<string> := [".jpg", ".jpeg", ".png", ".bmp", ".gif"]

  /** True iff the lower-cased name ends with one of the extensions. */
  predicate HasExtension(filename: string, extensions: seq<string>) {
    exists k :: 0 <= k < |extensions| && EndsWith(Lower(filename), extensions[k])
  }

  /** `FileExtensions.is_video_file`. */
  predicate IsVideoFile(filename: string) {
    HasExtension(filename, VideoExtensions)
  }

  /** `FileExtensions.is_image_file`. */
  predicate IsImageFile(filename: string) {
    HasExtension(filename, ImageExtensions)
  }

  /** The extension test ignores the case of the name. */
  lemma ExtensionCaseInsensitive(filename: string, extensions: seq<string>)
    ensures HasExtension(Upper(filename), extensions) == HasExtension(filename, extensions)
    ensures HasExtension(Lower(filename), extensions) == HasExtension(filename, extensions)
  {
    LowerOfUpper(filename);
    LowerIdempotent(filename);
  }

  lemma VideoFileExamples()
    ensures IsVideoFile("clip.MP4") && IsVideoFile("a/b/session.webm")
  {
    assert Lower("clip.MP4") == "clip.mp4";
    assert EndsWith(Lower("clip.MP4"), VideoExtensions[0]);
    assert Lower("a/b/session.webm") == "a/b/session.webm";
    assert EndsWith(Lower("a/b/session.webm"), VideoExtensions[6]);
  }

  lemma NotVideoFileExamples()
    ensures !IsVideoFile("notes.txt") && !IsVideoFile("mp4")
  {
    assert Lower("notes.txt") == "notes.txt";
    assert Lower("mp4") == "mp4";
    forall k | 0 <= k < |VideoExtensions|
      ensures !EndsWith("notes.txt", VideoExtensions[k]) && !EndsWith("mp4", VideoExtensions[k])
    {
      LastCharDiffers("notes.txt", VideoExtensions[k]);
      if k != 0 {
        LastCharDiffers("mp4", VideoExtensions[k]);
      }
    }
  }

  lemma LastCharDiffers(s: string, suffix: string)
    requires |s| >= 1 && |suffix| >= 1 && s[|s| - 1] != suffix[|suffix| - 1]
    ensures !EndsWith(s, suffix)
  {
  }

  lemma ImageFileExamples()
    ensures IsImageFile("thumb.JPEG") && !IsImageFile("clip.mp4")
  {
    assert Lower("thumb.JPEG") == "thumb.jpeg";
    assert EndsWith(Lower("thumb.JPEG"), ImageExtensions[1]);
    assert Lower("clip.mp4") == "clip.mp4";
  }

  /** The glob pattern of each extension. */
  function Patterns(extensions: seq<string>): (r: seq<string>)
    ensures |r| == |extensions|
    ensures forall k :: 0 <= k < |r| ==> r[k] == "*" + extensions[k]
  {
    if extensions == [] then [] else ["*" + extensions[0]] + Patterns(extensions[1..])
  }

  /** `FileExtensions.get_video_filter`. */
  function VideoFilter(): string {
    "Video Files (" + Join(Patterns(VideoExtensions), " ") + ")"
  }
}
