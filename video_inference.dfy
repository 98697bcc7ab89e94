/**
 * Per-frame task segmentation: windowed majority smoothing of the
 * classifier's labels, enforcement of a minimum run duration, and
 * aggregation of labelled frames into contiguous time ranges.
 */
module VideoInference {

  import opened Optional
  import opened Text
  import opened Numeric
  import opened LabelRuns

  // ---------------------------------------------------------------------
  // Frames

  /** One classified frame, as produced by the inference stage. */
  datatype Row = Row(frame: int, timeSec: real, timeStr: string, task: string, confidence: real)

  /** A frame with the `task_smoothed` column added. */
  datatype SmoothedRow = SmoothedRow(row: Row, taskSmoothed: string)

  predicate Distinct(vocab: seq<string>) {
    forall i, j :: 0 <= i < j < |vocab| ==> vocab[i] != vocab[j]
  }

  function Labels(rows: seq<SmoothedRow>): (l: seq<string>)
    ensures |l| == |rows| && forall i :: 0 <= i < |rows| ==> l[i] == rows[i].taskSmoothed
  {
    seq(|rows|, i requires 0 <= i < |rows| => rows[i].taskSmoothed)
  }

  function Times(rows: seq<SmoothedRow>): (t: seq<real>)
    ensures |t| == |rows| && forall i :: 0 <= i < |rows| ==> t[i] == rows[i].row.timeSec
  {
    seq(|rows|, i requires 0 <= i < |rows| => rows[i].row.timeSec)
  }

  // ---------------------------------------------------------------------
  // format_timestamp

  /** The seconds field, "%06.3f" of `s % 60`, with halves rounded up. */
  function SecondsText(s: real): string
    requires 0.0 <= s
  {
    var millis := RoundHalfUp(s * 1000.0);
    ZeroPad(millis / 1000, 2) + "." + ZeroPad(millis % 1000, 3)
  }

  /** `format_timestamp`: "HH:MM:SS.sss". */
  function FormatTimestamp(seconds: real): string {
    PadInt(Hours(seconds), 2) + ":" + PadInt(Minutes(seconds), 2) + ":" + SecondsText(Mod(seconds, 60.0))
  }

  /**
   * The seconds field reads back as the seconds rounded to the millisecond:
   * within half a millisecond of the value formatted.
   */
  lemma SecondsTextParse(s: real) returns (sec: real)
    requires 0.0 <= s
    ensures sec == RoundHalfUp(s * 1000.0) as real / 1000.0
    ensures ParseFloat(SecondsText(s)) == Some(sec)
    ensures 0.0 <= sec && s - 0.0005 < sec <= s + 0.0005
  {
    var millis := RoundHalfUp(s * 1000.0);
    sec := millis as real / 1000.0;
    MillisNonNegative(s, millis);
    MillisBounds(s, millis);
    SecondsTextMillis(s, millis);
    MillisTextParse(millis);
  }

  lemma SecondsTextMillis(s: real, millis: nat)
    requires 0.0 <= s && millis == RoundHalfUp(s * 1000.0)
    ensures SecondsText(s) == ZeroPad(millis / 1000, 2) + "." + ZeroPad(millis % 1000, 3)
  {
  }

  lemma MillisNonNegative(s: real, millis: int)
    requires 0.0 <= s && millis as real - 0.5 <= s * 1000.0 < millis as real + 0.5
    ensures millis >= 0 && 0.0 <= millis as real / 1000.0
  {
  }

  lemma MillisBounds(s: real, millis: int)
    requires millis as real - 0.5 <= s * 1000.0 < millis as real + 0.5
    ensures s - 0.0005 < millis as real / 1000.0 <= s + 0.0005
  {
  }

  /** A count of milliseconds rendered as "ss.fff" reads back as that many thousandths. */
  lemma MillisTextParse(millis: nat)
    ensures ParseFloat(ZeroPad(millis / 1000, 2) + "." + ZeroPad(millis % 1000, 3)) == Some(millis as real / 1000.0)
  {
    MillisSplit(millis);
    var w, f := ZeroPad(millis / 1000, 2), ZeroPad(millis % 1000, 3);
    PaddedFixedValue(millis / 1000, millis % 1000);
    ParseFloatFixed(w, f);
  }

  lemma MillisSplit(millis: int)
    requires millis >= 0
    ensures (millis / 1000) as real + (millis % 1000) as real / 1000.0 == millis as real / 1000.0
  {
    assert (millis / 1000) * 1000 + millis % 1000 == millis;
  }

  /** "w.fff" with a zero-padded whole part and three fraction digits has the value w + f/1000. */
  lemma PaddedFixedValue(w: nat, f: nat)
    requires f < 1000
    ensures FixedValue(ZeroPad(w, 2), ZeroPad(f, 3)) == w as real + f as real / 1000.0
  {
    ZeroPadValue(w, 2);
    ZeroPadValue(f, 3);
    ZeroPadWidth(f, 3);
    assert Pow10(3) == 1000;
  }

  /**
   * A timestamp splits at ':' into the padded hours, the padded minutes and
   * the seconds field; minutes lie in [0, 60) and the seconds field is taken
   * from `t % 60`, in [0, 60).
   */
  lemma FormatTimestampFields(t: real)
    ensures 0 <= Minutes(t) < 60 && 0.0 <= Mod(t, 60.0) < 60.0
    ensures Split(FormatTimestamp(t), ':') == [PadInt(Hours(t), 2), PadInt(Minutes(t), 2), SecondsText(Mod(t, 60.0))]
    ensures t == 3600.0 * Hours(t) as real + 60.0 * Minutes(t) as real + Mod(t, 60.0)
  {
    ClockSplit(t);
    var h, m, s := PadInt(Hours(t), 2), PadInt(Minutes(t), 2), SecondsText(Mod(t, 60.0));
    PadIntChars(Hours(t), 2);
    PadIntChars(Minutes(t), 2);
    assert forall i :: 0 <= i < |s| ==> s[i] != ':';
    assert FormatTimestamp(t) == h + [':'] + m + [':'] + s;
    SplitJoin3(h, m, s, ':');
  }

  // ---------------------------------------------------------------------
  // smooth_predictions

  /** The score a frame gives a label: its confidence if it carries that label. */
  function Score(r: Row, name: string): real {
    if r.task == name then r.confidence else 0.0
  }

  /** Row `k` of the prefix-sum matrix: total score of label `name` over the first `k` frames. */
  function Prefix(rows: seq<Row>, name: string, k: nat): real
    requires k <= |rows|
  {
    if k == 0 then 0.0 else Prefix(rows, name, k - 1) + Score(rows[k - 1], name)
  }

  function WindowStart(i: int, half: int): int { if i - half > 0 then i - half else 0 }

  function WindowEnd(i: int, half: int, n: int): int { if i + half + 1 < n then i + half + 1 else n }

  /** The window sum `prefix[end] - prefix[start]` of one label at frame `i`. */
  function WindowScore(rows: seq<Row>, name: string, i: nat, half: int): real
    requires i < |rows| && half >= -1
  {
    Prefix(rows, name, WindowEnd(i, half, |rows|)) - Prefix(rows, name, WindowStart(i, half))
  }

  /**
   * `np.argmax` over the window scores of the first `c` vocabulary entries:
   * the first index holding the largest score.
   */
  function BestIndex(rows: seq<Row>, vocab: seq<string>, i: nat, half: int, c: nat): (b: nat)
    requires i < |rows| && half >= -1 && 1 <= c <= |vocab|
    ensures b < c
  {
    if c == 1 then 0
    else
      var b := BestIndex(rows, vocab, i, half, c - 1);
      if WindowScore(rows, vocab[c - 1], i, half) > WindowScore(rows, vocab[b], i, half) then c - 1 else b
  }

  /**
   * The index `BestIndex` picks scores at least as much as every index and
   * strictly more than every earlier one, so ties go to the lowest index.
   */
  lemma {:induction false} BestIndexIsArgMax(rows: seq<Row>, vocab: seq<string>, i: nat, half: int, c: nat)
    requires i < |rows| && half >= -1 && 1 <= c <= |vocab|
    ensures var b := BestIndex(rows, vocab, i, half, c);
      forall j :: 0 <= j < c ==> WindowScore(rows, vocab[j], i, half) <= WindowScore(rows, vocab[b], i, half)
    ensures var b := BestIndex(rows, vocab, i, half, c);
      forall j :: 0 <= j < b ==> WindowScore(rows, vocab[j], i, half) < WindowScore(rows, vocab[b], i, half)
    decreases c
  {
    if c > 1 {
      BestIndexIsArgMax(rows, vocab, i, half, c - 1);
    }
  }

  /** The smoothed label of frame `i`: the vocabulary entry with the largest window score. */
  function SmoothedLabel(rows: seq<Row>, vocab: seq<string>, i: nat, half: int): string
    requires i < |rows| && half >= -1 && rows[i].task in vocab
  {
    MemberNonEmpty(vocab, rows[i].task);
    vocab[BestIndex(rows, vocab, i, half, |vocab|)]
  }

  lemma MemberNonEmpty(vocab: seq<string>, t: string)
    requires t in vocab
    ensures |vocab| >= 1
  {
  }

  /** The total score of label `name` over frames `lo` to `hi - 1`, summed directly. */
  function WindowSum(rows: seq<Row>, name: string, lo: nat, hi: nat): real
    requires lo <= hi <= |rows|
    decreases hi - lo
  {
    if lo == hi then 0.0 else Score(rows[lo], name) + WindowSum(rows, name, lo + 1, hi)
  }

  /** A difference of prefix sums is the direct sum over the frames between them. */
  lemma {:induction false} PrefixDifference(rows: seq<Row>, name: string, lo: nat, hi: nat)
    requires lo <= hi <= |rows|
    ensures Prefix(rows, name, hi) - Prefix(rows, name, lo) == WindowSum(rows, name, lo, hi)
    decreases hi - lo
  {
    if lo < hi {
      PrefixDifference(rows, name, lo + 1, hi);
    }
  }

  /** For a non-negative half width the window sum is the sum over the frames the window covers. */
  lemma WindowScoreIsSum(rows: seq<Row>, name: string, i: nat, half: int)
    requires i < |rows| && half >= 0
    ensures WindowStart(i, half) <= i < WindowEnd(i, half, |rows|)
    ensures WindowScore(rows, name, i, half) == WindowSum(rows, name, WindowStart(i, half), WindowEnd(i, half, |rows|))
  {
    PrefixDifference(rows, name, WindowStart(i, half), WindowEnd(i, half, |rows|));
  }

  /** Frames carrying other labels add nothing to a label's sum. */
  lemma {:induction false} WindowSumAbsent(rows: seq<Row>, name: string, lo: nat, hi: nat)
    requires lo <= hi <= |rows|
    requires forall k :: lo <= k < hi ==> rows[k].task != name
    ensures WindowSum(rows, name, lo, hi) == 0.0
    decreases hi - lo
  {
    if lo < hi {
      WindowSumAbsent(rows, name, lo + 1, hi);
    }
  }

  /** A non-empty run of confident frames of one label has a positive sum. */
  lemma {:induction false} WindowSumPositive(rows: seq<Row>, name: string, lo: nat, hi: nat)
    requires lo < hi <= |rows|
    requires forall k :: lo <= k < hi ==> rows[k].task == name && rows[k].confidence > 0.0
    ensures WindowSum(rows, name, lo, hi) > 0.0
    decreases hi - lo
  {
    if lo + 1 < hi {
      WindowSumPositive(rows, name, lo + 1, hi);
    } else {
      assert WindowSum(rows, name, lo + 1, hi) == 0.0;
    }
  }

  /** A label whose window score beats every other label's is the smoothed label. */
  lemma StrictWinner(rows: seq<Row>, vocab: seq<string>, i: nat, half: int, t: string)
    requires i < |rows| && half >= -1 && rows[i].task in vocab && t in vocab
    requires forall u :: u in vocab && u != t ==> WindowScore(rows, u, i, half) < WindowScore(rows, t, i, half)
    ensures SmoothedLabel(rows, vocab, i, half) == t
  {
    var b := BestIndex(rows, vocab, i, half, |vocab|);
    BestIndexIsArgMax(rows, vocab, i, half, |vocab|);
    var k := IndexOf(vocab, t);
    assert WindowScore(rows, vocab[k], i, half) <= WindowScore(rows, vocab[b], i, half);
  }

  /** The smoothed label scores at least as much as every label of the vocabulary. */
  lemma SmoothedLabelIsBest(rows: seq<Row>, vocab: seq<string>, i: nat, half: int, u: string)
    requires i < |rows| && half >= -1 && rows[i].task in vocab && u in vocab
    ensures SmoothedLabel(rows, vocab, i, half) in vocab
    ensures WindowScore(rows, u, i, half) <= WindowScore(rows, SmoothedLabel(rows, vocab, i, half), i, half)
  {
    var k := IndexOf(vocab, u);
    BestIndexIsArgMax(rows, vocab, i, half, |vocab|);
    assert WindowScore(rows, vocab[k], i, half) <= WindowScore(rows, vocab[BestIndex(rows, vocab, i, half, |vocab|)], i, half);
  }

  /** A window whose frames all carry label `t` confidently is smoothed to `t`. */
  lemma UniformWindowKeepsLabel(rows: seq<Row>, vocab: seq<string>, i: nat, half: int, t: string)
    requires i < |rows| && half >= 0 && t in vocab && rows[i].task in vocab
    requires forall k :: WindowStart(i, half) <= k < WindowEnd(i, half, |rows|) ==>
      rows[k].task == t && rows[k].confidence > 0.0
    ensures SmoothedLabel(rows, vocab, i, half) == t
  {
    var lo, hi := WindowStart(i, half), WindowEnd(i, half, |rows|);
    WindowScoreIsSum(rows, t, i, half);
    WindowSumPositive(rows, t, lo, hi);
    forall u | u in vocab && u != t
      ensures WindowScore(rows, u, i, half) < WindowScore(rows, t, i, half)
    {
      WindowScoreIsSum(rows, u, i, half);
      WindowSumAbsent(rows, u, lo, hi);
    }
    StrictWinner(rows, vocab, i, half, t);
  }

  /** With a window of 0 or 1 frames (half width 0) a confident frame keeps its own label. */
  lemma NoSmoothingKeepsLabel(rows: seq<Row>, vocab: seq<string>, i: nat)
    requires i < |rows| && rows[i].task in vocab && rows[i].confidence > 0.0
    ensures SmoothedLabel(rows, vocab, i, 0) == rows[i].task
  {
    UniformWindowKeepsLabel(rows, vocab, i, 0, rows[i].task);
  }

  /**
   * A window of -1 or -2 frames (half width -1) makes `starts` exceed `ends`,
   * so each frame's own label scores minus its confidence: a confident frame
   * is relabelled with another entry of the vocabulary.
   */
  lemma NegativeWindowFlipsLabel(rows: seq<Row>, vocab: seq<string>, i: nat)
    requires i < |rows| && rows[i].task in vocab && rows[i].confidence > 0.0
    requires exists u :: u in vocab && u != rows[i].task
    ensures SmoothedLabel(rows, vocab, i, -1) != rows[i].task
  {
    var u :| u in vocab && u != rows[i].task;
    assert WindowScore(rows, u, i, -1) == 0.0;
    assert WindowScore(rows, rows[i].task, i, -1) == -rows[i].confidence;
    SmoothedLabelIsBest(rows, vocab, i, -1, u);
  }

  function IndexOf(vocab: seq<string>, t: string): (k: nat)
    requires t in vocab
    ensures k < |vocab| && vocab[k] == t
  {
    if vocab[0] == t then 0 else 1 + IndexOf(vocab[1..], t)
  }

  /**
   * `smooth_predictions`: a score matrix with each frame's confidence in its
   * name's column, prefix sums down the columns, and per frame the argmax of
   * the window sums. The rows are copied with the smoothed name added.
   * `task_to_idx` fails on a name outside the vocabulary, and a window below
   * -2 indexes past the prefix matrix, so both are excluded.
   */
  method SmoothPredictions(rows: seq<Row>, vocab: seq<string>, smoothingWindow: int) returns (out: seq<SmoothedRow>)
    requires Distinct(vocab)
    requires forall i :: 0 <= i < |rows| ==> rows[i].task in vocab
    requires |rows| == 0 || smoothingWindow >= -2
    ensures |out| == |rows|
    ensures forall i :: 0 <= i < |rows| ==>
      out[i] == SmoothedRow(rows[i], SmoothedLabel(rows, vocab, i, smoothingWindow / 2))
  {
    var n := |rows|;
    if n == 0 {
      return [];
    }
    MemberNonEmpty(vocab, rows[0].task);
    var scores := ScoreMatrix(rows, vocab);
    var prefix := PrefixSums(rows, vocab, scores);
    out := SmoothRows(rows, vocab, prefix, smoothingWindow / 2);
  }

  /** The per-frame argmax over the window sums, read from the prefix matrix. */
  method SmoothRows(rows: seq<Row>, vocab: seq<string>, prefix: array2<real>, half: int) returns (out: seq<SmoothedRow>)
    requires half >= -1 && |vocab| >= 1
    requires forall i :: 0 <= i < |rows| ==> rows[i].task in vocab
    requires prefix.Length0 == |rows| + 1 && prefix.Length1 == |vocab|
    requires forall r, c {:trigger prefix[r, c]} :: 0 <= r <= |rows| && 0 <= c < |vocab| ==> prefix[r, c] == Prefix(rows, vocab[c], r)
    ensures |out| == |rows|
    ensures forall i :: 0 <= i < |rows| ==> out[i] == SmoothedRow(rows[i], SmoothedLabel(rows, vocab, i, half))
  {
    out := [];
    for i := 0 to |rows|
      invariant |out| == i
      invariant forall j :: 0 <= j < i ==> out[j] == SmoothedRow(rows[j], SmoothedLabel(rows, vocab, j, half))
    {
      var best := WindowArgMax(rows, vocab, prefix, i, half);
      out := out + [SmoothedRow(rows[i], vocab[best])];
    }
  }

  /** The sparse score matrix: frame `r`'s confidence in its own label's column. */
  method ScoreMatrix(rows: seq<Row>, vocab: seq<string>) returns (scores: array2<real>)
    requires Distinct(vocab)
    requires forall i :: 0 <= i < |rows| ==> rows[i].task in vocab
    ensures fresh(scores) && scores.Length0 == |rows| && scores.Length1 == |vocab|
    ensures forall r, c :: 0 <= r < |rows| && 0 <= c < |vocab| ==> scores[r, c] == Score(rows[r], vocab[c])
  {
    scores := new real[|rows|, |vocab|]((r, c) => 0.0);
    for i := 0 to |rows|
      modifies scores
      invariant forall r, c :: 0 <= r < |rows| && 0 <= c < |vocab| ==>
        scores[r, c] == (if r < i then Score(rows[r], vocab[c]) else 0.0)
    {
      var idx := IndexOf(vocab, rows[i].task);
      scores[i, idx] := rows[i].confidence;
    }
  }

  /** The cumulative sums of the score matrix, with a zero first row. */
  method PrefixSums(rows: seq<Row>, vocab: seq<string>, scores: array2<real>) returns (prefix: array2<real>)
    requires scores.Length0 == |rows| && scores.Length1 == |vocab|
    requires forall r, c :: 0 <= r < |rows| && 0 <= c < |vocab| ==> scores[r, c] == Score(rows[r], vocab[c])
    ensures fresh(prefix) && prefix.Length0 == |rows| + 1 && prefix.Length1 == |vocab|
    ensures forall r, c {:trigger prefix[r, c]} :: 0 <= r <= |rows| && 0 <= c < |vocab| ==> prefix[r, c] == Prefix(rows, vocab[c], r)
  {
    var n, k := |rows|, |vocab|;
    prefix := new real[n + 1, k]((r, c) => 0.0);
    for i := 0 to n
      modifies prefix
      invariant forall r, c :: 0 <= r <= i && 0 <= c < k ==> prefix[r, c] == Prefix(rows, vocab[c], r)
    {
      AccumulateRow(rows, vocab, scores, prefix, i);
    }
  }

  /** Row `i + 1` of the prefix matrix: row `i` plus the scores of frame `i`. */
  method AccumulateRow(rows: seq<Row>, vocab: seq<string>, scores: array2<real>, prefix: array2<real>, i: nat)
    requires prefix != scores && i < |rows|
    requires scores.Length0 == |rows| && scores.Length1 == |vocab|
    requires prefix.Length0 == |rows| + 1 && prefix.Length1 == |vocab|
    requires forall c :: 0 <= c < |vocab| ==> scores[i, c] == Score(rows[i], vocab[c])
    requires forall r, c :: 0 <= r <= i && 0 <= c < |vocab| ==> prefix[r, c] == Prefix(rows, vocab[c], r)
    modifies prefix
    ensures forall r, c :: 0 <= r <= i + 1 && 0 <= c < |vocab| ==> prefix[r, c] == Prefix(rows, vocab[c], r)
    ensures forall r, c :: i + 1 < r <= |rows| && 0 <= c < |vocab| ==> prefix[r, c] == old(prefix[r, c])
  {
    for c := 0 to |vocab|
      invariant forall r, c' :: 0 <= r <= i && 0 <= c' < |vocab| ==> prefix[r, c'] == Prefix(rows, vocab[c'], r)
      invariant forall c' :: 0 <= c' < c ==> prefix[i + 1, c'] == Prefix(rows, vocab[c'], i + 1)
      invariant forall r, c' :: i + 1 < r <= |rows| && 0 <= c' < |vocab| ==> prefix[r, c'] == old(prefix[r, c'])
    {
      prefix[i + 1, c] := prefix[i, c] + scores[i, c];
    }
  }

  /** The argmax over the window sums of frame `i`. */
  method WindowArgMax(rows: seq<Row>, vocab: seq<string>, prefix: array2<real>, i: nat, half: int) returns (best: nat)
    requires i < |rows| && half >= -1 && |vocab| >= 1
    requires prefix.Length0 == |rows| + 1 && prefix.Length1 == |vocab|
    requires forall r, c {:trigger prefix[r, c]} :: 0 <= r <= |rows| && 0 <= c < |vocab| ==> prefix[r, c] == Prefix(rows, vocab[c], r)
    ensures best == BestIndex(rows, vocab, i, half, |vocab|)
  {
    var lo := WindowStart(i, half);
    var hi := WindowEnd(i, half, |rows|);
    best := 0;
    var bestSum := prefix[hi, 0] - prefix[lo, 0];
    for c := 1 to |vocab|
      invariant best == BestIndex(rows, vocab, i, half, c)
      invariant bestSum == WindowScore(rows, vocab[best], i, half)
    {
      var sum := prefix[hi, c] - prefix[lo, c];
      if sum > bestSum {
        best, bestSum := c, sum;
      }
    }
  }

  // ---------------------------------------------------------------------
  // enforce_min_duration

  /** The rows with their smoothed labels replaced by `l`. */
  function WithLabels(rows: seq<SmoothedRow>, l: seq<string>): (out: seq<SmoothedRow>)
    requires |l| == |rows|
    ensures |out| == |rows|
    ensures forall i :: 0 <= i < |rows| ==> out[i].row == rows[i].row && out[i].taskSmoothed == l[i]
  {
    seq(|rows|, i requires 0 <= i < |rows| => SmoothedRow(rows[i].row, l[i]))
  }

  /** How long a run lasts: last frame time minus first frame time. */
  function Dur(times: seq<real>, r: Run): real
    requires r.first < |times| && r.last < |times|
  {
    times[r.last] - times[r.first]
  }

  /** The duration of run `k` of labelling `l`. */
  function RunDur(l: seq<string>, times: seq<real>, k: nat): real
    requires |l| >= 1 && |times| == |l| && k < |Runs(l)|
  {
    RunsPartition(l);
    Dur(times, Runs(l)[k])
  }

  /** The left neighbour's duration, or -1 when run `k` is the first. */
  function LeftDur(l: seq<string>, times: seq<real>, k: nat): real
    requires |l| >= 1 && |times| == |l| && k < |Runs(l)|
  {
    if k > 0 then RunDur(l, times, k - 1) else -1.0
  }

  /** The right neighbour's duration, or -1 when run `k` is the last. */
  function RightDur(l: seq<string>, times: seq<real>, k: nat): real
    requires |l| >= 1 && |times| == |l| && k < |Runs(l)|
  {
    if k + 1 < |Runs(l)| then RunDur(l, times, k + 1) else -1.0
  }

  /**
   * The label run `k` would be merged into: the left neighbour's when its
   * duration is at least the right one's and non-negative, else the right
   * neighbour's when that is non-negative, else none.
   */
  function MergeLabel(l: seq<string>, times: seq<real>, k: nat): (m: Option<string>)
    requires |l| >= 1 && |times| == |l| && k < |Runs(l)|
    ensures m.Some? <==> LeftDur(l, times, k) >= 0.0 || RightDur(l, times, k) >= 0.0
    ensures m.Some? && LeftDur(l, times, k) >= RightDur(l, times, k) && LeftDur(l, times, k) >= 0.0 ==>
      k > 0 && m.value == RunLabel(l, k - 1)
    ensures m.Some? && !(LeftDur(l, times, k) >= RightDur(l, times, k) && LeftDur(l, times, k) >= 0.0) ==>
      k + 1 < |Runs(l)| && m.value == RunLabel(l, k + 1)
  {
    RunsPartition(l);
    var runs := Runs(l);
    var left, right := LeftDur(l, times, k), RightDur(l, times, k);
    if left >= right && left >= 0.0 then Some(l[runs[k - 1].first])
    else if right >= 0.0 then Some(l[runs[k + 1].first])
    else None
  }

  /** Run `k` is below the minimum duration and has a neighbour to merge into. */
  predicate Mergeable(l: seq<string>, times: seq<real>, minDuration: real, k: nat)
    requires |l| >= 1 && |times| == |l| && k < |Runs(l)|
  {
    RunDur(l, times, k) < minDuration && MergeLabel(l, times, k).Some?
  }

  /** The scan over the segments from index `k` on: the first mergeable run and its new label. */
  function FirstMergeFrom(l: seq<string>, times: seq<real>, minDuration: real, k: nat): (r: Option<(nat, string)>)
    requires |l| >= 1 && |times| == |l| && k <= |Runs(l)|
    ensures r.Some? ==>
      (k <= r.value.0 < |Runs(l)| && Mergeable(l, times, minDuration, r.value.0)
       && MergeLabel(l, times, r.value.0) == Some(r.value.1))
    ensures r.Some? ==> forall j :: k <= j < r.value.0 ==> !Mergeable(l, times, minDuration, j)
    ensures r.None? <==> forall j :: k <= j < |Runs(l)| ==> !Mergeable(l, times, minDuration, j)
    decreases |Runs(l)| - k
  {
    if k == |Runs(l)| then None
    else if Mergeable(l, times, minDuration, k) then Some((k, MergeLabel(l, times, k).value))
    else FirstMergeFrom(l, times, minDuration, k + 1)
  }

  /** One pass of the `while changed` loop: relabel the leftmost mergeable run, if any. */
  function Step(l: seq<string>, times: seq<real>, minDuration: real): Option<seq<string>>
    requires |l| >= 1 && |times| == |l|
  {
    match FirstMergeFrom(l, times, minDuration, 0)
    case None => None
    case Some((k, m)) => Some(Relabel(l, Runs(l)[k], m))
  }

  /** Every pass strictly lowers the number of label boundaries. */
  lemma StepLowers(l: seq<string>, times: seq<real>, minDuration: real)
    requires |l| >= 1 && |times| == |l|
    ensures Step(l, times, minDuration).Some? ==>
      |Step(l, times, minDuration).value| == |l|
      && Boundaries(Step(l, times, minDuration).value) < Boundaries(l)
  {
    match FirstMergeFrom(l, times, minDuration, 0)
    case None =>
    case Some((k, m)) =>
      RunsPartition(l);
      RelabelLowersBoundaries(l, Runs(l), k, m);
  }

  /** The labels `enforce_min_duration` settles on: passes repeated until none applies. */
  function EnforceLabels(l: seq<string>, times: seq<real>, minDuration: real): (e: seq<string>)
    requires |l| >= 1 && |times| == |l|
    ensures |e| == |l|
    decreases Boundaries(l)
  {
    StepLowers(l, times, minDuration);
    match Step(l, times, minDuration)
    case None => l
    case Some(l') => EnforceLabels(l', times, minDuration)
  }

  /** A labelling no pass applies to is final; otherwise the next pass leads to the same result. */
  lemma EnforceUnfold(l: seq<string>, times: seq<real>, minDuration: real)
    requires |l| >= 1 && |times| == |l|
    ensures Step(l, times, minDuration).None? ==> EnforceLabels(l, times, minDuration) == l
    ensures Step(l, times, minDuration).Some? ==>
      |Step(l, times, minDuration).value| == |l|
      && Boundaries(Step(l, times, minDuration).value) < Boundaries(l)
      && EnforceLabels(l, times, minDuration) == EnforceLabels(Step(l, times, minDuration).value, times, minDuration)
  {
    StepLowers(l, times, minDuration);
  }

  /** The result has the input's length and admits no further pass. */
  lemma {:induction false} EnforceFixpoint(l: seq<string>, times: seq<real>, minDuration: real)
    requires |l| >= 1 && |times| == |l|
    ensures |EnforceLabels(l, times, minDuration)| == |l|
    ensures Step(EnforceLabels(l, times, minDuration), times, minDuration).None?
    decreases Boundaries(l)
  {
    StepLowers(l, times, minDuration);
    match Step(l, times, minDuration)
    case None =>
    case Some(l') => EnforceFixpoint(l', times, minDuration);
  }

  /** Every label of the result is the label of some input frame. */
  lemma {:induction false} EnforceKeepsLabels(l0: seq<string>, l: seq<string>, times: seq<real>, minDuration: real)
    requires |l| >= 1 && |times| == |l|
    requires forall p :: 0 <= p < |l| ==> l[p] in l0
    ensures forall p :: 0 <= p < |EnforceLabels(l, times, minDuration)| ==> EnforceLabels(l, times, minDuration)[p] in l0
    decreases Boundaries(l)
  {
    EnforceUnfold(l, times, minDuration);
    match FirstMergeFrom(l, times, minDuration, 0)
    case None =>
    case Some((k, m)) =>
      MergeLabelFromInput(l0, l, times, k, m);
      RelabelKeepsLabels(l0, l, Runs(l)[k], m);
      EnforceKeepsLabels(l0, Relabel(l, Runs(l)[k], m), times, minDuration);
  }

  /** A merge label is the label of a neighbouring run, so it comes from the labelling. */
  lemma MergeLabelFromInput(l0: seq<string>, l: seq<string>, times: seq<real>, k: nat, m: string)
    requires |l| >= 1 && |times| == |l| && k < |Runs(l)|
    requires forall p :: 0 <= p < |l| ==> l[p] in l0
    requires MergeLabel(l, times, k) == Some(m)
    ensures m in l0
  {
    RunsPartition(l);
  }

  /** A labelling whose runs all last long enough is left as it is. */
  lemma LongRunsUnchanged(l: seq<string>, times: seq<real>, minDuration: real)
    requires |l| >= 1 && |times| == |l|
    requires forall k :: 0 <= k < |Runs(l)| ==> RunDur(l, times, k) >= minDuration
    ensures EnforceLabels(l, times, minDuration) == l
  {
    forall j | 0 <= j < |Runs(l)|
      ensures !Mergeable(l, times, minDuration, j)
    {
    }
  }

  predicate NonDecreasing(times: seq<real>) {
    forall p, q :: 0 <= p <= q < |times| ==> times[p] <= times[q]
  }

  /**
   * With non-decreasing frame times, the enforcer ends with a single run
   * or with every run lasting at least the minimum.
   */
  lemma EnforceResult(l: seq<string>, times: seq<real>, minDuration: real)
    requires |l| >= 1 && |times| == |l| && NonDecreasing(times)
    ensures var e := EnforceLabels(l, times, minDuration);
      |e| == |l| &&
      (|Runs(e)| == 1 || forall k :: 0 <= k < |Runs(e)| ==> RunDur(e, times, k) >= minDuration)
  {
    EnforceFixpoint(l, times, minDuration);
    var e := EnforceLabels(l, times, minDuration);
    RunsPartition(e);
    var runs := Runs(e);
    if |runs| > 1 {
      forall k | 0 <= k < |runs|
        ensures RunDur(e, times, k) >= minDuration
      {
        assert !Mergeable(e, times, minDuration, k);
        if k > 0 {
          assert LeftDur(e, times, k) >= 0.0;
        } else {
          assert RightDur(e, times, k) >= 0.0;
        }
      }
    }
  }

  /**
   * `enforce_min_duration`: inputs with fewer than two frames come back
   * unchanged; otherwise the `tasks` list is relabelled in place pass after
   * pass until a pass changes nothing, and the rows are copied with the
   * final labels.
   */
  method EnforceMinDuration(rows: seq<SmoothedRow>, minDuration: real) returns (out: seq<SmoothedRow>)
    ensures |rows| < 2 ==> out == rows
    ensures |rows| >= 2 ==> out == WithLabels(rows, EnforceLabels(Labels(rows), Times(rows), minDuration))
  {
    var n := |rows|;
    if n < 2 {
      return rows;
    }
    var times := Times(rows);
    var tasks := new string[n](i requires 0 <= i < n => rows[i].taskSmoothed);
    assert tasks[..] == Labels(rows);
    ghost var goal := EnforceLabels(tasks[..], times, minDuration);
    var changed := true;
    while changed
      invariant EnforceLabels(tasks[..], times, minDuration) == goal
      invariant !changed ==> Step(tasks[..], times, minDuration).None?
      decreases Boundaries(tasks[..]) + (if changed then 1 else 0)
    {
      EnforceUnfold(tasks[..], times, minDuration);
      var segments := Segments(tasks);
      changed := MergeFirstShort(tasks, segments, times, minDuration);
    }
    EnforceUnfold(tasks[..], times, minDuration);
    out := WithLabels(rows, tasks[..]);
  }

  /**
   * One pass over the segments: the first one shorter than the minimum that
   * has a neighbour takes that neighbour's label, and the pass reports
   * whether it relabelled anything.
   */
  method MergeFirstShort(tasks: array<string>, segments: seq<Run>, times: seq<real>, minDuration: real)
    returns (changed: bool)
    requires tasks.Length >= 1 && |times| == tasks.Length && segments == Runs(tasks[..])
    modifies tasks
    ensures changed <==> Step(old(tasks[..]), times, minDuration).Some?
    ensures changed ==> tasks[..] == Step(old(tasks[..]), times, minDuration).value
    ensures !changed ==> tasks[..] == old(tasks[..])
  {
    ghost var cur := tasks[..];
    RunsPartition(cur);
    for segIdx := 0 to |segments|
      invariant tasks[..] == cur
      invariant FirstMergeFrom(cur, times, minDuration, 0) == FirstMergeFrom(cur, times, minDuration, segIdx)
    {
      var s, e := segments[segIdx].first, segments[segIdx].last;
      if times[e] - times[s] >= minDuration {
        continue;
      }
      var leftDur, rightDur := -1.0, -1.0;
      if segIdx > 0 {
        leftDur := times[segments[segIdx - 1].last] - times[segments[segIdx - 1].first];
      }
      if segIdx < |segments| - 1 {
        rightDur := times[segments[segIdx + 1].last] - times[segments[segIdx + 1].first];
      }
      assert leftDur == LeftDur(cur, times, segIdx) && rightDur == RightDur(cur, times, segIdx);
      var mergeTask;
      if leftDur >= rightDur && leftDur >= 0.0 {
        mergeTask := tasks[segments[segIdx - 1].first];
      } else if rightDur >= 0.0 {
        mergeTask := tasks[segments[segIdx + 1].first];
      } else {
        continue;
      }
      assert FirstMergeFrom(cur, times, minDuration, segIdx) == Some((segIdx, mergeTask));
      RelabelRun(tasks, s, e, mergeTask);
      return true;
    }
    return false;
  }

  /** The segment list `enforce_min_duration` rebuilds at the start of each pass. */
  method Segments(tasks: array<string>) returns (segments: seq<Run>)
    requires tasks.Length >= 1
    ensures segments == Runs(tasks[..])
  {
    var n := tasks.Length;
    segments := [];
    var start := 0;
    for i := 1 to n
      invariant start < i
      invariant segments + RunsFrom(tasks[..], start, i) == Runs(tasks[..])
    {
      if tasks[i] != tasks[start] {
        segments := segments + [Run(start, i - 1)];
        start := i;
      }
    }
    segments := segments + [Run(start, n - 1)];
  }

  /** The inner `for i in range(s, e + 1)` loop: frames `s..e` take label `m`. */
  method RelabelRun(tasks: array<string>, s: nat, e: nat, m: string)
    requires s <= e < tasks.Length
    modifies tasks
    ensures tasks[..] == Relabel(old(tasks[..]), Run(s, e), m)
  {
    for i := s to e + 1
      invariant forall p :: 0 <= p < tasks.Length ==> tasks[p] == (if s <= p < i then m else old(tasks[p]))
    {
      tasks[i] := m;
    }
  }

  // ---------------------------------------------------------------------
  // aggregate_time_ranges

  /**
   * One row of the time-range table, kept as the times and confidences it
   * is computed from; the table's columns are its members.
   */
  datatype TimeRange = TimeRange(task: string, startSec: real, endSec: real, confidences: seq<real>) {
    function Start(): string { FormatTimestamp(startSec) }
    function End(): string { FormatTimestamp(endSec) }
    function DurationSec(): real { endSec - startSec }
    function AvgConf(): real requires |confidences| >= 1 { Mean(confidences) }
  }

  function Sum(xs: seq<real>): real {
    if |xs| == 0 then 0.0 else Sum(xs[..|xs| - 1]) + xs[|xs| - 1]
  }

  /** `np.mean` of a non-empty list. */
  function Mean(xs: seq<real>): real
    requires |xs| >= 1
  {
    Sum(xs) / (|xs| as real)
  }

  function Confidences(rows: seq<SmoothedRow>): (c: seq<real>)
    ensures |c| == |rows| && forall i :: 0 <= i < |rows| ==> c[i] == rows[i].row.confidence
  {
    seq(|rows|, i requires 0 <= i < |rows| => rows[i].row.confidence)
  }

  /** A range starts at its first frame's time ... */
  function RangeStart(times: seq<real>, r: Run): real
    requires r.first < |times|
  {
    times[r.first]
  }

  /** ... and ends at the next range's first frame, or at the last frame time for the final range. */
  function RangeEnd(times: seq<real>, r: Run): real
    requires r.last < |times|
  {
    if r.last + 1 < |times| then times[r.last + 1] else times[|times| - 1]
  }

  /** The table row for one run of equal smoothed labels. */
  function RangeOf(rows: seq<SmoothedRow>, r: Run): TimeRange
    requires r.first <= r.last < |rows|
  {
    var times := Times(rows);
    TimeRange(rows[r.first].taskSmoothed, RangeStart(times, r), RangeEnd(times, r), Confidences(rows)[r.first..r.last + 1])
  }

  /** Every run is non-empty and ends before frame `n`. */
  predicate RunsBelow(runs: seq<Run>, n: nat) {
    forall k :: 0 <= k < |runs| ==> runs[k].first <= runs[k].last < n
  }

  /** The table rows for a list of runs, in order. */
  function RangesOf(rows: seq<SmoothedRow>, runs: seq<Run>): (ranges: seq<TimeRange>)
    requires RunsBelow(runs, |rows|)
    ensures |ranges| == |runs| && forall k :: 0 <= k < |runs| ==> ranges[k] == RangeOf(rows, runs[k])
  {
    seq(|runs|, k requires 0 <= k < |runs| => RangeOf(rows, runs[k]))
  }

  /** The whole table: nothing for no frames, else one row per maximal run. */
  function Ranges(rows: seq<SmoothedRow>): seq<TimeRange> {
    if |rows| == 0 then []
    else
      RunsPartition(Labels(rows));
      RangesOf(rows, Runs(Labels(rows)))
  }

  /**
   * The scan of `aggregate_time_ranges` from frame `i` on, with the current
   * range opened at frame `start`.
   */
  function ScanFrom(rows: seq<SmoothedRow>, start: nat, i: nat): seq<TimeRange>
    requires start < i <= |rows|
    decreases |rows| - i
  {
    var conf := Confidences(rows);
    if i == |rows| then
      [TimeRange(rows[start].taskSmoothed, rows[start].row.timeSec, rows[|rows| - 1].row.timeSec, conf[start..i])]
    else if rows[i].taskSmoothed != rows[start].taskSmoothed then
      [TimeRange(rows[start].taskSmoothed, rows[start].row.timeSec, rows[i].row.timeSec, conf[start..i])]
        + ScanFrom(rows, i, i + 1)
    else ScanFrom(rows, start, i + 1)
  }

  /** The scan produces exactly the rows of the runs it passes. */
  lemma {:induction false} ScanFromRuns(rows: seq<SmoothedRow>, start: nat, i: nat)
    requires start < i <= |rows|
    requires RunsBelow(RunsFrom(Labels(rows), start, i), |rows|)
    ensures ScanFrom(rows, start, i) == RangesOf(rows, RunsFrom(Labels(rows), start, i))
    decreases |rows| - i
  {
    var l := Labels(rows);
    if i == |rows| {
      ScanLastRun(rows, start);
    } else if l[i] != l[start] {
      var rest := RunsFrom(l, i, i + 1);
      assert RunsFrom(l, start, i) == [Run(start, i - 1)] + rest;
      RunsBelowTail(Run(start, i - 1), rest, |rows|);
      ScanFromRuns(rows, i, i + 1);
      ScanBreak(rows, start, i);
    } else {
      assert RunsFrom(l, start, i) == RunsFrom(l, start, i + 1);
      ScanFromRuns(rows, start, i + 1);
    }
  }

  lemma ScanLastRun(rows: seq<SmoothedRow>, start: nat)
    requires start < |rows|
    ensures RunsFrom(Labels(rows), start, |rows|) == [Run(start, |rows| - 1)]
    ensures ScanFrom(rows, start, |rows|) == RangesOf(rows, [Run(start, |rows| - 1)])
  {
    assert RangesOf(rows, [Run(start, |rows| - 1)]) == [RangeOf(rows, Run(start, |rows| - 1))];
  }

  lemma RunsBelowTail(r: Run, rest: seq<Run>, n: nat)
    requires RunsBelow([r] + rest, n)
    ensures RunsBelow(rest, n) && r.first <= r.last < n
  {
    assert ([r] + rest)[0] == r;
    assert forall k :: 0 <= k < |rest| ==> rest[k] == ([r] + rest)[k + 1];
  }

  /** A label change at frame `i` closes the range opened at `start` and starts the next one. */
  lemma ScanBreak(rows: seq<SmoothedRow>, start: nat, i: nat)
    requires start < i < |rows| && rows[i].taskSmoothed != rows[start].taskSmoothed
    requires RunsBelow(RunsFrom(Labels(rows), i, i + 1), |rows|)
    requires ScanFrom(rows, i, i + 1) == RangesOf(rows, RunsFrom(Labels(rows), i, i + 1))
    ensures RunsFrom(Labels(rows), start, i) == [Run(start, i - 1)] + RunsFrom(Labels(rows), i, i + 1)
    ensures ScanFrom(rows, start, i) == RangesOf(rows, [Run(start, i - 1)] + RunsFrom(Labels(rows), i, i + 1))
  {
    var rest := RunsFrom(Labels(rows), i, i + 1);
    RangesOfCons(rows, Run(start, i - 1), rest);
    assert RangeOf(rows, Run(start, i - 1)) ==
      TimeRange(rows[start].taskSmoothed, rows[start].row.timeSec, rows[i].row.timeSec, Confidences(rows)[start..i]);
  }

  /** One step of the scan at a label change. */
  lemma ScanChange(rows: seq<SmoothedRow>, start: nat, i: nat)
    requires start < i < |rows| && rows[i].taskSmoothed != rows[start].taskSmoothed
    ensures ScanFrom(rows, start, i) ==
      [TimeRange(rows[start].taskSmoothed, rows[start].row.timeSec, rows[i].row.timeSec, Confidences(rows)[start..i])]
        + ScanFrom(rows, i, i + 1)
  {
  }

  /** One step of the scan within a run: one more confidence. */
  lemma ScanSame(rows: seq<SmoothedRow>, start: nat, i: nat)
    requires start < i < |rows| && rows[i].taskSmoothed == rows[start].taskSmoothed
    ensures ScanFrom(rows, start, i) == ScanFrom(rows, start, i + 1)
    ensures Confidences(rows)[start..i + 1] == Confidences(rows)[start..i] + [rows[i].row.confidence]
  {
    var conf := Confidences(rows);
    assert conf[start..i + 1] == conf[start..i] + [conf[i]];
  }

  /** The rows of a run list with one more run in front. */
  lemma RangesOfCons(rows: seq<SmoothedRow>, r: Run, runs: seq<Run>)
    requires r.first <= r.last < |rows| && RunsBelow(runs, |rows|)
    ensures RunsBelow([r] + runs, |rows|)
    ensures RangesOf(rows, [r] + runs) == [RangeOf(rows, r)] + RangesOf(rows, runs)
  {
    assert forall k :: 1 <= k <= |runs| ==> ([r] + runs)[k] == runs[k - 1];
  }

  /**
   * `aggregate_time_ranges`: one scan with the current task, its start time
   * and the confidences seen so far; a label change closes the range at the
   * new frame's time.
   */
  method AggregateTimeRanges(rows: seq<SmoothedRow>) returns (ranges: seq<TimeRange>)
    ensures ranges == Ranges(rows)
  {
    var n := |rows|;
    if n == 0 {
      return [];
    }
    ghost var start: nat := 0;
    var currentTask := rows[0].taskSmoothed;
    var startTime := rows[0].row.timeSec;
    var confidences := [rows[0].row.confidence];
    ranges := [];
    for i := 1 to n
      invariant start < i
      invariant ranges + ScanFrom(rows, start, i) == ScanFrom(rows, 0, 1)
      invariant currentTask == rows[start].taskSmoothed && startTime == rows[start].row.timeSec
      invariant confidences == Confidences(rows)[start..i]
    {
      var row := rows[i];
      if row.taskSmoothed != currentTask {
        var endTime := row.row.timeSec;
        var closed := TimeRange(currentTask, startTime, endTime, confidences);
        ScanChange(rows, start, i);
        assert ranges + ScanFrom(rows, start, i) == (ranges + [closed]) + ScanFrom(rows, i, i + 1);
        ranges := ranges + [closed];
        start := i;
        currentTask := row.taskSmoothed;
        startTime := endTime;
        confidences := [row.row.confidence];
      } else {
        ScanSame(rows, start, i);
        confidences := confidences + [row.row.confidence];
      }
    }
    var last := TimeRange(currentTask, startTime, rows[n - 1].row.timeSec, confidences);
    assert ScanFrom(rows, start, n) == [last];
    ranges := ranges + [last];
    RunsPartition(Labels(rows));
    ScanFromRuns(rows, 0, 1);
  }

  /**
   * The table has one row per maximal run: it starts at the first frame's
   * time, ends at the last frame's time, each row ends where the next
   * begins, and neighbouring rows carry different tasks.
   */
  lemma RangesContiguous(rows: seq<SmoothedRow>)
    requires |rows| >= 1
    ensures var r := Ranges(rows);
      && |r| == |Runs(Labels(rows))| && |r| >= 1
      && r[0].startSec == rows[0].row.timeSec
      && r[|r| - 1].endSec == rows[|rows| - 1].row.timeSec
      && (forall k :: 0 <= k < |r| - 1 ==> r[k].endSec == r[k + 1].startSec && r[k].End() == r[k + 1].Start())
      && (forall k :: 0 <= k < |r| - 1 ==> r[k].task != r[k + 1].task)
      && (forall k :: 0 <= k < |r| ==> |r[k].confidences| >= 1)
  {
    var l := Labels(rows);
    RunsPartition(l);
    var runs := Runs(l);
    var r := Ranges(rows);
    assert r == RangesOf(rows, runs);
    forall k | 0 <= k < |r| - 1
      ensures r[k].endSec == r[k + 1].startSec && r[k].End() == r[k + 1].Start() && r[k].task != r[k + 1].task
    {
      assert l[runs[k + 1].first] != l[runs[k].first];
      AdjacentRanges(rows, runs[k], runs[k + 1]);
    }
    forall k | 0 <= k < |r|
      ensures |r[k].confidences| >= 1
    {
      RangeConfidences(rows, runs[k]);
    }
  }

  /** The range of a run holds one confidence per frame of the run. */
  lemma RangeConfidences(rows: seq<SmoothedRow>, run: Run)
    requires run.first <= run.last < |rows|
    ensures RangeOf(rows, run).confidences == Confidences(rows)[run.first..run.last + 1]
    ensures |RangeOf(rows, run).confidences| == run.last - run.first + 1
  {
  }

  /** Two neighbouring runs give ranges that meet, with different tasks. */
  lemma AdjacentRanges(rows: seq<SmoothedRow>, a: Run, b: Run)
    requires a.first <= a.last < |rows| && b.first <= b.last < |rows|
    requires b.first == a.last + 1
    requires rows[b.first].taskSmoothed != rows[a.first].taskSmoothed
    ensures RangeOf(rows, a).endSec == RangeOf(rows, b).startSec
    ensures RangeOf(rows, a).End() == RangeOf(rows, b).Start()
    ensures RangeOf(rows, a).task != RangeOf(rows, b).task
  {
  }

  function SumDurations(r: seq<TimeRange>): real {
    if |r| == 0 then 0.0 else SumDurations(r[..|r| - 1]) + r[|r| - 1].DurationSec()
  }

  /** The durations of contiguous ranges add up to the time from the first start to the last end. */
  lemma {:induction false} Telescope(r: seq<TimeRange>)
    requires |r| >= 1
    requires forall k :: 0 <= k < |r| - 1 ==> r[k].endSec == r[k + 1].startSec
    ensures SumDurations(r) == r[|r| - 1].endSec - r[0].startSec
  {
    if |r| > 1 {
      var init := r[..|r| - 1];
      assert forall k :: 0 <= k < |init| ==> init[k] == r[k];
      Telescope(init);
    }
  }

  /** The durations of the table sum to the span from the first frame time to the last. */
  lemma TotalDuration(rows: seq<SmoothedRow>)
    requires |rows| >= 1
    ensures SumDurations(Ranges(rows)) == rows[|rows| - 1].row.timeSec - rows[0].row.timeSec
  {
    RangesContiguous(rows);
    Telescope(Ranges(rows));
  }

  lemma {:induction false} SumBounds(xs: seq<real>)
    requires forall k :: 0 <= k < |xs| ==> 0.0 <= xs[k] <= 1.0
    ensures 0.0 <= Sum(xs) <= |xs| as real
  {
    if |xs| > 0 {
      SumBounds(xs[..|xs| - 1]);
    }
  }

  /** The mean of values in [0, 1] lies in [0, 1]. */
  lemma MeanBounds(xs: seq<real>)
    requires |xs| >= 1
    requires forall k :: 0 <= k < |xs| ==> 0.0 <= xs[k] <= 1.0
    ensures 0.0 <= Mean(xs) <= 1.0
  {
    SumBounds(xs);
    QuotientBounds(Sum(xs), |xs| as real);
  }

  lemma QuotientBounds(a: real, n: real)
    requires n > 0.0 && 0.0 <= a <= n
    ensures 0.0 <= a / n <= 1.0
  {
    var q := a / n;
    assert q * n == a;
    assert (1.0 - q) * n == n - a;
  }

  /** Confidences in [0, 1] give an average confidence in [0, 1] for every range. */
  lemma AvgConfBounds(rows: seq<SmoothedRow>)
    requires |rows| >= 1
    requires forall i :: 0 <= i < |rows| ==> 0.0 <= rows[i].row.confidence <= 1.0
    ensures forall k :: 0 <= k < |Ranges(rows)| ==>
      |Ranges(rows)[k].confidences| >= 1 && 0.0 <= Ranges(rows)[k].AvgConf() <= 1.0
  {
    var l := Labels(rows);
    RunsPartition(l);
    var runs := Runs(l);
    var r := Ranges(rows);
    assert r == RangesOf(rows, runs);
    forall k | 0 <= k < |r|
      ensures |r[k].confidences| >= 1 && 0.0 <= r[k].AvgConf() <= 1.0
    {
      RangeAvgConfBounds(rows, runs[k]);
    }
  }

  /** One range's average confidence lies in [0, 1]. */
  lemma RangeAvgConfBounds(rows: seq<SmoothedRow>, run: Run)
    requires run.first <= run.last < |rows|
    requires forall i :: 0 <= i < |rows| ==> 0.0 <= rows[i].row.confidence <= 1.0
    ensures |RangeOf(rows, run).confidences| >= 1 && 0.0 <= RangeOf(rows, run).AvgConf() <= 1.0
  {
    RangeConfidences(rows, run);
    var xs := RangeOf(rows, run).confidences;
    assert forall j :: 0 <= j < |xs| ==> xs[j] == rows[run.first + j].row.confidence;
    MeanBounds(xs);
  }
}
