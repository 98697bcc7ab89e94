/**
 * The application configuration: its fields and their defaults, reading it
 * from a parsed JSON object (unknown keys are dropped before the fields are
 * set), and the validation that lists what is wrong with it, in a fixed
 * order, one message per failed check.
 */
module AppConfig {

  import opened Optional
  import opened Text
  import opened DomainResult
  import opened Annotation

  // `ProcessingDefaults` and `UIConstants`.
  const DefaultSampleEvery: int := 30
  const DefaultSmoothingWindow: int := 15
  const DefaultMinDurationSec: int := 5
  const DefaultConfidenceThreshold: real := 0.5
  const DefaultThumbnailWidth: int := 400
  const DefaultThumbnailHeight: int := 300
  const DefaultThumbnailQuality: int := 85
  const DefaultWindowWidth: int := 1400
  const DefaultWindowHeight: int := 900
  const DefaultGridColumns: int := 3

  /** The smallest window the validation accepts. */
  const MinWindowWidth: int := 800
  const MinWindowHeight: int := 600

  const LogLevels: seq<string> := ["DEBUG", "INFO", "WARNING", "ERROR", "CRITICAL"]

  datatype Config = Config(
    modelPath: string,
    sampleEvery: int,
    smoothingWindow: int,
    minDurationSec: int,
    confidenceThreshold: real,
    thumbnailWidth: int,
    thumbnailHeight: int,
    thumbnailQuality: int,
    windowWidth: int,
    windowHeight: int,
    gridColumns: int,
    logLevel: string,
    logToFile: bool,
    logFilePath: string,
    device: Option<string>,
    enableGpuAcceleration: bool,
    enableAutoProcessing: bool)

  /** The two paths the project layout supplies when a path field is left empty. */
  datatype ProjectPaths = ProjectPaths(modelPath: string, logFilePath: string)

  /** The declared field names, as `fields(AppConfig)` lists them. */
  const FieldNames: set<string> := {
    "model_path", "sample_every", "smoothing_window", "min_duration_sec",
    "confidence_threshold", "thumbnail_width", "thumbnail_height",
    "thumbnail_quality", "window_width", "window_height", "grid_columns",
    "log_level", "log_to_file", "log_file_path", "device",
    "enable_gpu_acceleration", "enable_auto_processing"
  }

  // ---------------------------------------------------------------------
  // Construction
  // ---------------------------------------------------------------------

  function IntOr(kwargs: Dict, name: string, default: int): int {
    if name in kwargs && kwargs[name].VInt? then kwargs[name].i else default
  }

  /** A JSON number, integral or not, for a `float` field. */
  function RealOr(kwargs: Dict, name: string, default: real): real {
    if name in kwargs && kwargs[name].VReal? then kwargs[name].r
    else if name in kwargs && kwargs[name].VInt? then kwargs[name].i as real
    else default
  }

  function StrOr(kwargs: Dict, name: string, default: string): string {
    if name in kwargs && kwargs[name].VStr? then kwargs[name].s else default
  }

  function BoolOr(kwargs: Dict, name: string, default: bool): bool {
    if name in kwargs && kwargs[name].VBool? then kwargs[name].b else default
  }

  /** `Optional[str]`: `null` is `None`. */
  function DeviceOr(kwargs: Dict): Option<string> {
    if "device" in kwargs && kwargs["device"].VStr? then Some(kwargs["device"].s) else None
  }

  /** The dataclass's field assignments, each keyword argument over its default. */
  function Fields(kwargs: Dict): Config {
    Config(
      StrOr(kwargs, "model_path", ""),
      IntOr(kwargs, "sample_every", DefaultSampleEvery),
      IntOr(kwargs, "smoothing_window", DefaultSmoothingWindow),
      IntOr(kwargs, "min_duration_sec", DefaultMinDurationSec),
      RealOr(kwargs, "confidence_threshold", DefaultConfidenceThreshold),
      IntOr(kwargs, "thumbnail_width", DefaultThumbnailWidth),
      IntOr(kwargs, "thumbnail_height", DefaultThumbnailHeight),
      IntOr(kwargs, "thumbnail_quality", DefaultThumbnailQuality),
      IntOr(kwargs, "window_width", DefaultWindowWidth),
      IntOr(kwargs, "window_height", DefaultWindowHeight),
      IntOr(kwargs, "grid_columns", DefaultGridColumns),
      StrOr(kwargs, "log_level", "INFO"),
      BoolOr(kwargs, "log_to_file", true),
      StrOr(kwargs, "log_file_path", ""),
      DeviceOr(kwargs),
      BoolOr(kwargs, "enable_gpu_acceleration", true),
      BoolOr(kwargs, "enable_auto_processing", false))
  }

  /** `__post_init__`: an empty path field takes the project's path. */
  function PostInit(c: Config, paths: ProjectPaths): (r: Config)
    ensures r.modelPath == (if c.modelPath == "" then paths.modelPath else c.modelPath)
    ensures r.logFilePath == (if c.logFilePath == "" then paths.logFilePath else c.logFilePath)
    ensures r.(modelPath := c.modelPath, logFilePath := c.logFilePath) == c
  {
    c.(modelPath := if c.modelPath == "" then paths.modelPath else c.modelPath,
       logFilePath := if c.logFilePath == "" then paths.logFilePath else c.logFilePath)
  }

  datatype ConstructError = UnexpectedKeyword

  /**
   * `AppConfig(**kwargs)`: a keyword that is not a field is a `TypeError`;
   * otherwise the fields are set and the paths defaulted.
   */
  function New(kwargs: Dict, paths: ProjectPaths): (r: Result<Config, ConstructError>)
    ensures r.Err? <==> !(kwargs.Keys <= FieldNames)
    ensures r.Ok? ==> r.value.modelPath != "" || paths.modelPath == ""
  {
    if kwargs.Keys <= FieldNames then Ok(PostInit(Fields(kwargs), paths))
    else Err(UnexpectedKeyword)
  }

  /** `AppConfig()`. */
  function Default(paths: ProjectPaths): (r: Config)
    ensures New(map[], paths) == Ok(r)
    ensures r.sampleEvery == DefaultSampleEvery && r.smoothingWindow == DefaultSmoothingWindow
    ensures r.logLevel == "INFO" && r.device == None
    ensures r.modelPath == paths.modelPath && r.logFilePath == paths.logFilePath
  {
    PostInit(Fields(map[]), paths)
  }

  // ---------------------------------------------------------------------
  // Loading
  // ---------------------------------------------------------------------

  /** What the configuration file holds: no file, text that is not JSON, or a parsed document. */
  datatype ConfigFile = Absent | Unparsable | Parsed(document: Value)

  /** A document that is not an object has no `items()`: that error is not caught. */
  datatype LoadError = NotAnObject

  /** The dictionary comprehension over `known_fields`. */
  function Filtered(data: Dict): (r: Dict)
    ensures r.Keys == data.Keys * FieldNames
    ensures forall k :: k in r ==> r[k] == data[k]
  {
    map k | k in data.Keys && k in FieldNames :: data[k]
  }

  /** `AppConfig.load`: defaults when there is no file or it does not parse. */
  function Load(file: ConfigFile, paths: ProjectPaths): (r: Result<Config, LoadError>)
    ensures (file.Absent? || file.Unparsable?) ==> r == Ok(Default(paths))
    ensures r.Err? <==> file.Parsed? && !file.document.VDict?
    ensures file.Parsed? && file.document.VDict? ==>
      r == Ok(PostInit(Fields(file.document.fields), paths))
  {
    match file
    case Absent => Ok(Default(paths))
    case Unparsable => Ok(Default(paths))
    case Parsed(VDict(data)) =>
      var made := New(Filtered(data), paths);
      FieldsOfFiltered(data);
      if made.Ok? then Ok(made.value) else Ok(Default(paths))
    case Parsed(_) => Err(NotAnObject)
  }

  /** The fields read from a dictionary are the same once unknown keys are dropped. */
  lemma FieldsOfFiltered(data: Dict)
    ensures Fields(Filtered(data)) == Fields(data)
  {
    var f := Filtered(data);
    forall name | name in FieldNames
      ensures (name in f) == (name in data) && (name in f ==> f[name] == data[name])
    {
    }
  }

  /** A key that is not a field changes nothing about the loaded configuration. */
  lemma LoadIgnoresUnknown(data: Dict, key: string, v: Value, paths: ProjectPaths)
    requires key !in FieldNames
    ensures Load(Parsed(VDict(data[key := v])), paths) == Load(Parsed(VDict(data)), paths)
  {
    assert Filtered(data[key := v]) == Filtered(data);
    FieldsOfFiltered(data[key := v]);
    FieldsOfFiltered(data);
  }

  /** `asdict`: one JSON value per field. */
  function AsDict(c: Config): Dict
  {
    map[
      "model_path" := VStr(c.modelPath),
      "sample_every" := VInt(c.sampleEvery),
      "smoothing_window" := VInt(c.smoothingWindow),
      "min_duration_sec" := VInt(c.minDurationSec),
      "confidence_threshold" := VReal(c.confidenceThreshold),
      "thumbnail_width" := VInt(c.thumbnailWidth),
      "thumbnail_height" := VInt(c.thumbnailHeight),
      "thumbnail_quality" := VInt(c.thumbnailQuality),
      "window_width" := VInt(c.windowWidth),
      "window_height" := VInt(c.windowHeight),
      "grid_columns" := VInt(c.gridColumns),
      "log_level" := VStr(c.logLevel),
      "log_to_file" := VBool(c.logToFile),
      "log_file_path" := VStr(c.logFilePath),
      "device" := if c.device.Some? then VStr(c.device.value) else VNull,
      "enable_gpu_acceleration" := VBool(c.enableGpuAcceleration),
      "enable_auto_processing" := VBool(c.enableAutoProcessing)
    ]
  }

  /** The saved document has one key per field and no other. */
  lemma AsDictKeys(c: Config)
    ensures AsDict(c).Keys == FieldNames
  {
  }

  /** Saving a configuration and loading the document back gives the same configuration. */
  lemma SaveLoadRoundTrip(c: Config, paths: ProjectPaths)
    requires c.modelPath != "" && c.logFilePath != ""
    ensures Load(Parsed(VDict(AsDict(c))), paths) == Ok(c)
  {
    FieldsOfAsDict(c);
    assert Load(Parsed(VDict(AsDict(c))), paths) == Ok(PostInit(c, paths));
  }

  /** Reading the fields back from `asdict` gives the configuration itself. */
  lemma FieldsOfAsDict(c: Config)
    ensures Fields(AsDict(c)) == c
  {
    AsDictFirst(c);
    AsDictSecond(c);
    AsDictMiddle(c);
    AsDictLast(c);
  }

  lemma AsDictFirst(c: Config)
    ensures var d := AsDict(c);
      && StrOr(d, "model_path", "") == c.modelPath
      && IntOr(d, "sample_every", DefaultSampleEvery) == c.sampleEvery
      && IntOr(d, "smoothing_window", DefaultSmoothingWindow) == c.smoothingWindow
  {
  }

  lemma AsDictSecond(c: Config)
    ensures var d := AsDict(c);
      && IntOr(d, "min_duration_sec", DefaultMinDurationSec) == c.minDurationSec
      && RealOr(d, "confidence_threshold", DefaultConfidenceThreshold) == c.confidenceThreshold
      && IntOr(d, "thumbnail_width", DefaultThumbnailWidth) == c.thumbnailWidth
  {
  }

  lemma AsDictMiddle(c: Config)
    ensures var d := AsDict(c);
      && IntOr(d, "thumbnail_height", DefaultThumbnailHeight) == c.thumbnailHeight
      && IntOr(d, "thumbnail_quality", DefaultThumbnailQuality) == c.thumbnailQuality
      && IntOr(d, "window_width", DefaultWindowWidth) == c.windowWidth
      && IntOr(d, "window_height", DefaultWindowHeight) == c.windowHeight
      && IntOr(d, "grid_columns", DefaultGridColumns) == c.gridColumns
      && StrOr(d, "log_level", "INFO") == c.logLevel
  {
  }

  lemma AsDictLast(c: Config)
    ensures var d := AsDict(c);
      && BoolOr(d, "log_to_file", true) == c.logToFile
      && StrOr(d, "log_file_path", "") == c.logFilePath
      && DeviceOr(d) == c.device
      && BoolOr(d, "enable_gpu_acceleration", true) == c.enableGpuAcceleration
      && BoolOr(d, "enable_auto_processing", false) == c.enableAutoProcessing
  {
  }

  /** Unknown keys are ignored and the known one is read. */
  lemma LoadFiltersUnknownExample(data: Dict, paths: ProjectPaths)
    requires data == map["sample_every" := VInt(10), "unknown_field" := VStr("ignored"), "another_bad" := VInt(42)]
    ensures Load(Parsed(VDict(data)), paths).Ok?
    ensures Load(Parsed(VDict(data)), paths).value.sampleEvery == 10
    ensures Load(Parsed(VDict(data)), paths).value.smoothingWindow == DefaultSmoothingWindow
  {
    assert "sample_every" in data && data["sample_every"] == VInt(10);
    assert "smoothing_window" !in data;
  }

  // ---------------------------------------------------------------------
  // Validation
  // ---------------------------------------------------------------------

  /** One failed check, with the value it reports. */
  datatype ConfigError =
    | ModelNotFound(path: string)
    | SampleEveryTooSmall(sampleEvery: int)
    | SmoothingWindowTooSmall(smoothingWindow: int)
    | MinDurationNegative(minDurationSec: int)
    | ConfidenceOutOfRange(threshold: real)
    | ThumbnailNotPositive
    | WindowTooSmall
    | InvalidLogLevel(level: string)

  /** The position of each check in the validation. */
  function Rank(e: ConfigError): nat {
    match e
    case ModelNotFound(_) => 0
    case SampleEveryTooSmall(_) => 1
    case SmoothingWindowTooSmall(_) => 2
    case MinDurationNegative(_) => 3
    case ConfidenceOutOfRange(_) => 4
    case ThumbnailNotPositive => 5
    case WindowTooSmall => 6
    case InvalidLogLevel(_) => 7
  }

  /** `log_level.upper()` is one of the five standard names. */
  predicate IsLogLevel(level: string) {
    Upper(level) in LogLevels
  }

  /** The error check number `k` reports for `c`, in the order the checks run. */
  function ErrorAt(c: Config, k: nat): (e: ConfigError)
    requires k < 8
    ensures Rank(e) == k
  {
    if k == 0 then ModelNotFound(c.modelPath)
    else if k == 1 then SampleEveryTooSmall(c.sampleEvery)
    else if k == 2 then SmoothingWindowTooSmall(c.smoothingWindow)
    else if k == 3 then MinDurationNegative(c.minDurationSec)
    else if k == 4 then ConfidenceOutOfRange(c.confidenceThreshold)
    else if k == 5 then ThumbnailNotPositive
    else if k == 6 then WindowTooSmall
    else InvalidLogLevel(c.logLevel)
  }

  /** Whether check number `k` fails for `c`. */
  predicate CheckFails(c: Config, modelExists: bool, k: nat)
    requires k < 8
  {
    if k == 0 then !modelExists
    else if k == 1 then c.sampleEvery < 1
    else if k == 2 then c.smoothingWindow < 1
    else if k == 3 then c.minDurationSec < 0
    else if k == 4 then !(0.0 <= c.confidenceThreshold <= 1.0)
    else if k == 5 then c.thumbnailWidth < 1 || c.thumbnailHeight < 1
    else if k == 6 then c.windowWidth < MinWindowWidth || c.windowHeight < MinWindowHeight
    else !IsLogLevel(c.logLevel)
  }

  /** Every check passes. */
  predicate IsValid(c: Config, modelExists: bool) {
    modelExists && c.sampleEvery >= 1 && c.smoothingWindow >= 1 && c.minDurationSec >= 0 &&
    0.0 <= c.confidenceThreshold <= 1.0 && c.thumbnailWidth >= 1 && c.thumbnailHeight >= 1 &&
    c.windowWidth >= MinWindowWidth && c.windowHeight >= MinWindowHeight && IsLogLevel(c.logLevel)
  }

  /** The errors of the first `k` checks. */
  function ErrorsUpTo(c: Config, modelExists: bool, k: nat): seq<ConfigError>
    requires k <= 8
  {
    if k == 0 then []
    else
      ErrorsUpTo(c, modelExists, k - 1) +
      (if CheckFails(c, modelExists, k - 1) then [ErrorAt(c, k - 1)] else [])
  }

  /** The errors `validate` lists; whether the model file exists is an input. */
  function Errors(c: Config, modelExists: bool): seq<ConfigError> {
    ErrorsUpTo(c, modelExists, 8)
  }

  /** `validate`: runs the checks in order, appending one error per failed check. */
  method Validate(c: Config, modelExists: bool) returns (errors: seq<ConfigError>)
    ensures errors == Errors(c, modelExists)
  {
    errors := [];
    if !modelExists {
      errors := errors + [ModelNotFound(c.modelPath)];
    }
    assert errors == ErrorsUpTo(c, modelExists, 1);
    if c.sampleEvery < 1 {
      errors := errors + [SampleEveryTooSmall(c.sampleEvery)];
    }
    assert errors == ErrorsUpTo(c, modelExists, 2);
    if c.smoothingWindow < 1 {
      errors := errors + [SmoothingWindowTooSmall(c.smoothingWindow)];
    }
    assert errors == ErrorsUpTo(c, modelExists, 3);
    if c.minDurationSec < 0 {
      errors := errors + [MinDurationNegative(c.minDurationSec)];
    }
    assert errors == ErrorsUpTo(c, modelExists, 4);
    if !(0.0 <= c.confidenceThreshold <= 1.0) {
      errors := errors + [ConfidenceOutOfRange(c.confidenceThreshold)];
    }
    assert errors == ErrorsUpTo(c, modelExists, 5);
    if c.thumbnailWidth < 1 || c.thumbnailHeight < 1 {
      errors := errors + [ThumbnailNotPositive];
    }
    assert errors == ErrorsUpTo(c, modelExists, 6);
    if c.windowWidth < MinWindowWidth || c.windowHeight < MinWindowHeight {
      errors := errors + [WindowTooSmall];
    }
    assert errors == ErrorsUpTo(c, modelExists, 7);
    if !IsLogLevel(c.logLevel) {
      errors := errors + [InvalidLogLevel(c.logLevel)];
    }
  }

  /** Among the first `k` checks, an error is listed exactly when its check fails. */
  lemma {:induction false} ErrorsUpToMembers(c: Config, modelExists: bool, k: nat, e: ConfigError)
    requires k <= 8
    ensures e in ErrorsUpTo(c, modelExists, k) <==>
      Rank(e) < k && CheckFails(c, modelExists, Rank(e)) && e == ErrorAt(c, Rank(e))
  {
    if k > 0 {
      ErrorsUpToMembers(c, modelExists, k - 1, e);
    }
  }

  /** The errors of the first `k` checks come in the checks' order, each at most once. */
  lemma {:induction false} ErrorsUpToOrdered(c: Config, modelExists: bool, k: nat)
    requires k <= 8
    ensures forall i :: 0 <= i < |ErrorsUpTo(c, modelExists, k)| ==> Rank(ErrorsUpTo(c, modelExists, k)[i]) < k
    ensures forall i, j :: 0 <= i < j < |ErrorsUpTo(c, modelExists, k)| ==>
      Rank(ErrorsUpTo(c, modelExists, k)[i]) < Rank(ErrorsUpTo(c, modelExists, k)[j])
  {
    if k > 0 {
      ErrorsUpToOrdered(c, modelExists, k - 1);
    }
  }

  /** An error is listed exactly when its check fails for `c`, and it reports `c`'s value. */
  lemma ErrorListedIff(c: Config, modelExists: bool, e: ConfigError)
    ensures e in Errors(c, modelExists) <==>
      CheckFails(c, modelExists, Rank(e)) && e == ErrorAt(c, Rank(e))
  {
    ErrorsUpToMembers(c, modelExists, 8, e);
  }

  /** The errors come in the order of the checks, each check at most once. */
  lemma ErrorsInOrder(c: Config, modelExists: bool)
    ensures |Errors(c, modelExists)| <= 8
    ensures forall i, j :: 0 <= i < j < |Errors(c, modelExists)| ==>
      Rank(Errors(c, modelExists)[i]) < Rank(Errors(c, modelExists)[j])
  {
    ErrorsUpToOrdered(c, modelExists, 8);
    RanksBound(Errors(c, modelExists));
  }

  /** A sequence whose ranks increase strictly and stay below 8 has at most 8 elements. */
  lemma {:induction false} RanksBound(es: seq<ConfigError>)
    requires forall i, j :: 0 <= i < j < |es| ==> Rank(es[i]) < Rank(es[j])
    requires forall i :: 0 <= i < |es| ==> Rank(es[i]) < 8
    ensures |es| <= 8
  {
    if |es| > 8 {
      RankAtLeast(es, 8);
    }
  }

  lemma {:induction false} RankAtLeast(es: seq<ConfigError>, i: nat)
    requires forall p, q :: 0 <= p < q < |es| ==> Rank(es[p]) < Rank(es[q])
    requires i < |es|
    ensures Rank(es[i]) >= i
  {
    if i > 0 {
      RankAtLeast(es, i - 1);
    }
  }

  /** Each check, stated by its own condition. */
  lemma ErrorsPerCheck(c: Config, modelExists: bool)
    ensures ModelNotFound(c.modelPath) in Errors(c, modelExists) <==> !modelExists
    ensures SampleEveryTooSmall(c.sampleEvery) in Errors(c, modelExists) <==> c.sampleEvery < 1
    ensures SmoothingWindowTooSmall(c.smoothingWindow) in Errors(c, modelExists) <==> c.smoothingWindow < 1
    ensures MinDurationNegative(c.minDurationSec) in Errors(c, modelExists) <==> c.minDurationSec < 0
    ensures ConfidenceOutOfRange(c.confidenceThreshold) in Errors(c, modelExists) <==>
      !(0.0 <= c.confidenceThreshold <= 1.0)
    ensures ThumbnailNotPositive in Errors(c, modelExists) <==> c.thumbnailWidth < 1 || c.thumbnailHeight < 1
    ensures WindowTooSmall in Errors(c, modelExists) <==>
      c.windowWidth < MinWindowWidth || c.windowHeight < MinWindowHeight
    ensures InvalidLogLevel(c.logLevel) in Errors(c, modelExists) <==> !IsLogLevel(c.logLevel)
  {
    ErrorListedIff(c, modelExists, ModelNotFound(c.modelPath));
    ErrorListedIff(c, modelExists, SampleEveryTooSmall(c.sampleEvery));
    ErrorListedIff(c, modelExists, SmoothingWindowTooSmall(c.smoothingWindow));
    ErrorListedIff(c, modelExists, MinDurationNegative(c.minDurationSec));
    ErrorListedIff(c, modelExists, ConfidenceOutOfRange(c.confidenceThreshold));
    ErrorListedIff(c, modelExists, ThumbnailNotPositive);
    ErrorListedIff(c, modelExists, WindowTooSmall);
    ErrorListedIff(c, modelExists, InvalidLogLevel(c.logLevel));
  }

  /** No errors exactly when every check passes. */
  lemma ErrorsEmptyIffValid(c: Config, modelExists: bool)
    ensures Errors(c, modelExists) == [] <==> IsValid(c, modelExists)
  {
    ErrorsPerCheck(c, modelExists);
    if Errors(c, modelExists) != [] {
      var e := Errors(c, modelExists)[0];
      ErrorListedIff(c, modelExists, e);
    }
  }

  /** The default configuration passes every check once the model file exists. */
  lemma DefaultIsValid(paths: ProjectPaths)
    ensures Errors(Default(paths), true) == []
  {
    assert Upper("INFO") == "INFO";
    ErrorsEmptyIffValid(Default(paths), true);
  }

  /** The log level is checked without regard to case. */
  lemma LogLevelIgnoresCase(level: string)
    requires level == "warning"
    ensures IsLogLevel(level)
    ensures !IsLogLevel("INVALID")
  {
    assert Upper(level) == "WARNING";
    assert Upper("INVALID") == "INVALID";
  }

  // ---------------------------------------------------------------------
  // Messages
  // ---------------------------------------------------------------------

  /** The field or subject each message starts with. */
  function Subject(e: ConfigError): string {
    match e
    case ModelNotFound(_) => "Model file not found"
    case SampleEveryTooSmall(_) => "sample_every"
    case SmoothingWindowTooSmall(_) => "smoothing_window"
    case MinDurationNegative(_) => "min_duration_sec"
    case ConfidenceOutOfRange(_) => "confidence_threshold"
    case ThumbnailNotPositive => "Thumbnail dimensions"
    case WindowTooSmall => "Window dimensions"
    case InvalidLogLevel(_) => "Invalid log_level"
  }

  /** The list of level names, as Python prints a list of strings. */
  const LogLevelsText: string := "['DEBUG', 'INFO', 'WARNING', 'ERROR', 'CRITICAL']"

  /**
   * The text appended for each error; `showReal` stands for Python's
   * rendering of a float.
   */
  function Message(e: ConfigError, showReal: real -> string): (m: string)
    ensures StartsWith(m, Subject(e))
  {
    Subject(e) + Detail(e, showReal)
  }

  function Detail(e: ConfigError, showReal: real -> string): string {
    match e
    case ModelNotFound(p) => ": " + p
    case SampleEveryTooSmall(n) => " must be >= 1, got " + IntToString(n)
    case SmoothingWindowTooSmall(n) => " must be >= 1, got " + IntToString(n)
    case MinDurationNegative(n) => " must be >= 0, got " + IntToString(n)
    case ConfidenceOutOfRange(t) => " must be between 0 and 1, got " + showReal(t)
    case ThumbnailNotPositive => " must be positive"
    case WindowTooSmall => " too small (minimum 800x600)"
    case InvalidLogLevel(l) => ": " + l + ". Must be one of " + LogLevelsText
  }
}
