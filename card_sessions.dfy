/**
 * The card-session state machine of both participant detectors: parse
 * results open a session and vote, missing results count towards a timeout,
 * and a closed session becomes one marker carrying the majority vote.
 */
module CardSessions {

  import opened Optional
  import opened Numeric
  import opened CardText

  /** One frame handed to the session loop: its number and the card read from it. */
  datatype Sample = Sample(frame: nat, result: Option<Card>)

  /** A participant-card detection as the detectors return it. */
  datatype Marker = Marker(participantType: string, participantNumber: nat, timestamp: real, duration: real, confidence: real)

  /**
   * The loop's variables: `session_start`, `session_detections`, `misses`
   * and the markers emitted so far.
   */
  datatype Session = Session(start: Option<nat>, votes: seq<Card>, misses: int, detections: seq<Marker>)

  const Idle := Session(None, [], 0, [])

  /** An open session has at least one vote. */
  predicate Valid(st: Session) {
    st.start.Some? ==> |st.votes| >= 1
  }

  // ---------------------------------------------------------------------
  // The majority vote

  function Count(votes: seq<Card>, c: Card): nat {
    multiset(votes)[c]
  }

  /** Among the first `k` votes, the earliest whose card is voted for most. */
  function BestVote(votes: seq<Card>, k: nat): (b: nat)
    requires 1 <= k <= |votes|
    ensures b < k
    ensures forall j :: 0 <= j < k ==> Count(votes, votes[j]) <= Count(votes, votes[b])
    ensures forall j :: 0 <= j < b ==> Count(votes, votes[j]) < Count(votes, votes[b])
  {
    if k == 1 then 0
    else
      var b := BestVote(votes, k - 1);
      if Count(votes, votes[k - 1]) > Count(votes, votes[b]) then k - 1 else b
  }

  /**
   * `Counter(votes).most_common(1)[0][0]`: a card with the largest count,
   * ties going to the card voted for first.
   */
  function MostCommon(votes: seq<Card>): (c: Card)
    requires |votes| >= 1
    ensures c in votes
    ensures forall v :: v in votes ==> Count(votes, v) <= Count(votes, c)
  {
    var b := BestVote(votes, |votes|);
    assert forall v :: v in votes ==> exists j :: 0 <= j < |votes| && votes[j] == v;
    votes[b]
  }

  /** Any other card with as many votes was first voted for later. */
  lemma MostCommonFirst(votes: seq<Card>, j: nat)
    requires j < |votes|
    requires votes[j] != MostCommon(votes) && Count(votes, votes[j]) == Count(votes, MostCommon(votes))
    ensures exists i :: 0 <= i < j && votes[i] == MostCommon(votes)
  {
    var b := BestVote(votes, |votes|);
    assert b < j;
  }

  // ---------------------------------------------------------------------
  // One step

  /**
   * The marker for a session opened at `start` and closed at `close`: the
   * majority card, the start time, and the length rounded to hundredths.
   */
  function MarkerOf(votes: seq<Card>, start: nat, close: nat, fps: real): (m: Marker)
    requires |votes| >= 1 && fps > 0.0
    ensures m.participantType == (if MostCommon(votes).role == Participant then "P" else "E")
    ensures m.participantNumber == MostCommon(votes).number
    ensures m.timestamp == start as real / fps
    ensures (close - start) as real / fps - 0.005 < m.duration <= (close - start) as real / fps + 0.005
    ensures m.confidence == 1.0
  {
    var c := MostCommon(votes);
    var startTime := start as real / fps;
    var endTime := close as real / fps;
    assert endTime - startTime == (close - start) as real / fps;
    assert RoleName(Expert) != "participant" by {
      assert |RoleName(Expert)| != |"participant"|;
    }
    Marker(if RoleName(c.role) == "participant" then "P" else "E", c.number, startTime, Round2(endTime - startTime), 1.0)
  }

  /** One iteration of the session loop. */
  function Step(st: Session, s: Sample, timeout: int, fps: real): (st': Session)
    requires Valid(st) && fps > 0.0
    ensures Valid(st')
  {
    if s.result.Some? then
      var current := if st.start.None? then st.(start := Some(s.frame), votes := []) else st;
      current.(votes := current.votes + [s.result.value], misses := 0)
    else if st.start.Some? then
      if st.misses + 1 >= timeout then
        Session(None, st.votes, 0, st.detections + [MarkerOf(st.votes, st.start.value, s.frame, fps)])
      else st.(misses := st.misses + 1)
    else st
  }

  /** The state after the loop has consumed `samples`, starting from `st`. */
  function Run(st: Session, samples: seq<Sample>, timeout: int, fps: real): (st': Session)
    requires Valid(st) && fps > 0.0
    ensures Valid(st')
    decreases |samples|
  {
    if |samples| == 0 then st
    else Step(Run(st, samples[..|samples| - 1], timeout, fps), samples[|samples| - 1], timeout, fps)
  }

  /** The markers the session loop returns for `samples`. */
  function Detections(samples: seq<Sample>, timeout: int, fps: real): seq<Marker>
    requires fps > 0.0
  {
    Run(Idle, samples, timeout, fps).detections
  }

  /**
   * One pass of the session loop body on the variables `session_start`,
   * `session_detections`, `misses` and `detections`.
   */
  method SessionStep(sessionStart: Option<nat>, sessionDetections: seq<Card>, misses: int, detections: seq<Marker>,
                     s: Sample, timeout: int, fps: real)
    returns (sessionStart': Option<nat>, sessionDetections': seq<Card>, misses': int, detections': seq<Marker>)
    requires Valid(Session(sessionStart, sessionDetections, misses, detections)) && fps > 0.0
    ensures Session(sessionStart', sessionDetections', misses', detections') ==
      Step(Session(sessionStart, sessionDetections, misses, detections), s, timeout, fps)
  {
    sessionStart', sessionDetections', misses', detections' := sessionStart, sessionDetections, misses, detections;
    if s.result.Some? {
      if sessionStart'.None? {
        sessionStart' := Some(s.frame);
        sessionDetections' := [];
      }
      sessionDetections' := sessionDetections' + [s.result.value];
      misses' := 0;
    } else if sessionStart'.Some? {
      misses' := misses' + 1;
      if misses' >= timeout {
        var marker := MarkerOf(sessionDetections', sessionStart'.value, s.frame, fps);
        detections' := detections' + [marker];
        sessionStart' := None;
        misses' := 0;
      }
    }
  }

  /** The session loop of `process_video`. */
  method CollectSessions(samples: seq<Sample>, timeout: int, fps: real) returns (detections: seq<Marker>)
    requires fps > 0.0
    ensures detections == Detections(samples, timeout, fps)
  {
    detections := [];
    var sessionStart: Option<nat> := None;
    var sessionDetections: seq<Card> := [];
    var misses := 0;
    for i := 0 to |samples|
      invariant Session(sessionStart, sessionDetections, misses, detections) == Run(Idle, samples[..i], timeout, fps)
    {
      assert samples[..i + 1][..i] == samples[..i];
      sessionStart, sessionDetections, misses, detections :=
        SessionStep(sessionStart, sessionDetections, misses, detections, samples[i], timeout, fps);
    }
    assert samples[..|samples|] == samples;
  }

  // ---------------------------------------------------------------------
  // Properties of the loop

  lemma {:induction false} RunAppend(st: Session, a: seq<Sample>, b: seq<Sample>, timeout: int, fps: real)
    requires Valid(st) && fps > 0.0
    ensures Run(st, a + b, timeout, fps) == Run(Run(st, a, timeout, fps), b, timeout, fps)
    decreases |b|
  {
    if |b| > 0 {
      assert (a + b)[..|a + b| - 1] == a + b[..|b| - 1];
      assert (a + b)[|a + b| - 1] == b[|b| - 1];
      RunAppend(st, a, b[..|b| - 1], timeout, fps);
    } else {
      assert a + b == a;
    }
  }

  /** One more sample is one more step. */
  lemma RunSnoc(st: Session, a: seq<Sample>, s: Sample, timeout: int, fps: real)
    requires Valid(st) && fps > 0.0
    ensures Run(st, a + [s], timeout, fps) == Step(Run(st, a, timeout, fps), s, timeout, fps)
  {
    assert (a + [s])[..|a|] == a;
  }

  /** Markers are only ever appended. */
  lemma {:induction false} DetectionsGrow(st: Session, samples: seq<Sample>, timeout: int, fps: real)
    requires Valid(st) && fps > 0.0
    ensures st.detections <= Run(st, samples, timeout, fps).detections
    decreases |samples|
  {
    if |samples| > 0 {
      DetectionsGrow(st, samples[..|samples| - 1], timeout, fps);
    }
  }

  /**
   * Misses are only counted while a session is open, and an open session
   * has fewer misses than the timeout: it closes at the miss that reaches it.
   */
  ghost predicate MissesBounded(st: Session, timeout: int) {
    && st.misses >= 0
    && (st.start.None? ==> st.misses == 0)
    && (st.start.Some? && st.misses > 0 ==> st.misses < timeout)
  }

  lemma {:induction false} RunKeepsMissesBounded(st: Session, samples: seq<Sample>, timeout: int, fps: real)
    requires Valid(st) && fps > 0.0 && MissesBounded(st, timeout)
    ensures MissesBounded(Run(st, samples, timeout, fps), timeout)
    decreases |samples|
  {
    if |samples| > 0 {
      RunKeepsMissesBounded(st, samples[..|samples| - 1], timeout, fps);
    }
  }

  /** From the start, misses stay bounded whatever the samples. */
  lemma MissesAlwaysBounded(samples: seq<Sample>, timeout: int, fps: real)
    requires fps > 0.0
    ensures MissesBounded(Run(Idle, samples, timeout, fps), timeout)
  {
    RunKeepsMissesBounded(Idle, samples, timeout, fps);
  }

  /** `count` samples at frame `frame` with no card: the detector's tail. */
  function Sentinel(frame: nat, count: int): (s: seq<Sample>)
    ensures |s| == (if count > 0 then count else 0)
    ensures forall k :: 0 <= k < |s| ==> s[k] == Sample(frame, None)
  {
    if count <= 0 then [] else Sentinel(frame, count - 1) + [Sample(frame, None)]
  }

  /** Empty samples leave an idle loop as it is. */
  lemma {:induction false} EmptySamplesIdle(st: Session, frame: nat, k: nat, timeout: int, fps: real)
    requires Valid(st) && fps > 0.0 && st.start.None?
    ensures Run(st, Sentinel(frame, k), timeout, fps) == st
  {
    if k > 0 {
      assert Sentinel(frame, k)[..k - 1] == Sentinel(frame, k - 1);
      EmptySamplesIdle(st, frame, k - 1, timeout, fps);
    }
  }

  /**
   * Once at least one and at least `timeout - misses` empty samples have
   * passed, an open session has closed with exactly one more marker.
   */
  lemma {:induction false} EmptySamplesClose(st: Session, frame: nat, k: nat, timeout: int, fps: real)
    requires Valid(st) && fps > 0.0 && MissesBounded(st, timeout) && st.start.Some?
    requires k >= 1 && k >= timeout - st.misses
    ensures Run(st, Sentinel(frame, k), timeout, fps).start.None?
    ensures Run(st, Sentinel(frame, k), timeout, fps).detections ==
      st.detections + [MarkerOf(st.votes, st.start.value, frame, fps)]
  {
    var prev := Sentinel(frame, k - 1);
    assert Sentinel(frame, k)[..k - 1] == prev;
    if k - 1 >= 1 && k - 1 >= timeout - st.misses {
      EmptySamplesClose(st, frame, k - 1, timeout, fps);
    } else if k - 1 >= 1 || 0 < timeout - st.misses {
      EmptySamplesStayOpen(st, frame, k - 1, timeout, fps);
    } else {
      assert prev == [];
    }
  }

  /** Fewer of them leave the session open with that many more misses. */
  lemma {:induction false} EmptySamplesStayOpen(st: Session, frame: nat, k: nat, timeout: int, fps: real)
    requires Valid(st) && fps > 0.0 && MissesBounded(st, timeout)
    requires st.start.Some? && k < timeout - st.misses
    ensures Run(st, Sentinel(frame, k), timeout, fps) == st.(misses := st.misses + k)
  {
    if k > 0 {
      assert Sentinel(frame, k)[..k - 1] == Sentinel(frame, k - 1);
      EmptySamplesStayOpen(st, frame, k - 1, timeout, fps);
    }
  }

  /** With a positive timeout, `timeout` empty samples at the end close every session. */
  lemma SentinelClosesSession(samples: seq<Sample>, total: nat, timeout: int, fps: real)
    requires fps > 0.0 && timeout >= 1
    ensures Run(Idle, samples + Sentinel(total, timeout), timeout, fps).start.None?
    ensures Detections(samples, timeout, fps) <= Detections(samples + Sentinel(total, timeout), timeout, fps)
  {
    var st := Run(Idle, samples, timeout, fps);
    RunAppend(Idle, samples, Sentinel(total, timeout), timeout, fps);
    MissesAlwaysBounded(samples, timeout, fps);
    if st.start.Some? {
      EmptySamplesClose(st, total, timeout, timeout, fps);
    } else {
      EmptySamplesIdle(st, total, timeout, timeout, fps);
    }
  }

  // ---------------------------------------------------------------------
  // Markers come out in order of time

  /** Frames that carry a card strictly increase along the samples. */
  ghost predicate CardFramesIncrease(samples: seq<Sample>) {
    forall i, j :: 0 <= i < j < |samples| && samples[i].result.Some? && samples[j].result.Some? ==>
      samples[i].frame < samples[j].frame
  }

  /** The position of the last sample that carries a card, or -1. */
  function LastCard(samples: seq<Sample>): (k: int)
    ensures -1 <= k < |samples|
    ensures k >= 0 ==> samples[k].result.Some?
    ensures forall j :: k < j < |samples| ==> samples[j].result.None?
    decreases |samples|
  {
    if |samples| == 0 then -1
    else if samples[|samples| - 1].result.Some? then |samples| - 1
    else
      var k := LastCard(samples[..|samples| - 1]);
      assert forall j :: k < j < |samples| - 1 ==> samples[j] == samples[..|samples| - 1][j];
      k
  }

  /** The frame of the last sample that carries a card, or -1. */
  function LastCardFrame(samples: seq<Sample>): int {
    var k := LastCard(samples);
    if k < 0 then -1 else samples[k].frame
  }

  ghost predicate Increasing(ms: seq<Marker>) {
    forall i, j :: 0 <= i < j < |ms| ==> ms[i].timestamp < ms[j].timestamp
  }

  /**
   * Markers so far are in order and no later than the last card frame; an
   * open session started at or before that frame and after every marker.
   */
  ghost predicate Ordered(st: Session, last: int, fps: real)
    requires fps > 0.0
  {
    && Increasing(st.detections)
    && (forall i :: 0 <= i < |st.detections| ==> st.detections[i].timestamp <= last as real / fps)
    && (st.start.Some? ==> st.start.value <= last)
    && (st.start.Some? ==> forall i :: 0 <= i < |st.detections| ==> st.detections[i].timestamp < st.start.value as real / fps)
  }

  lemma StepOrdered(st: Session, last: int, s: Sample, timeout: int, fps: real)
    requires Valid(st) && fps > 0.0 && Ordered(st, last, fps)
    requires s.result.Some? ==> s.frame > last
    ensures Ordered(Step(st, s, timeout, fps), if s.result.Some? then s.frame else last, fps)
  {
    if s.result.Some? {
      DivMonotone(last as real, s.frame as real, fps);
    } else if st.start.Some? && st.misses + 1 >= timeout {
      DivMonotone(st.start.value as real, last as real, fps);
    }
  }

  lemma DivMonotone(x: real, y: real, fps: real)
    requires fps > 0.0 && x <= y
    ensures x / fps <= y / fps
    ensures x < y ==> x / fps < y / fps
  {
  }

  lemma {:induction false} RunOrdered(samples: seq<Sample>, timeout: int, fps: real)
    requires fps > 0.0 && CardFramesIncrease(samples)
    ensures Ordered(Run(Idle, samples, timeout, fps), LastCardFrame(samples), fps)
    decreases |samples|
  {
    if |samples| > 0 {
      var init := samples[..|samples| - 1];
      assert CardFramesIncrease(init) by {
        forall i, j | 0 <= i < j < |init| && init[i].result.Some? && init[j].result.Some?
          ensures init[i].frame < init[j].frame
        {
          assert init[i] == samples[i] && init[j] == samples[j];
        }
      }
      RunOrdered(init, timeout, fps);
      var s := samples[|samples| - 1];
      var k := LastCard(init);
      if k >= 0 {
        assert init[k] == samples[k];
      }
      StepOrdered(Run(Idle, init, timeout, fps), LastCardFrame(init), s, timeout, fps);
    }
  }

  /** When card frames increase, markers come out in strictly increasing time. */
  lemma MarkersIncrease(samples: seq<Sample>, timeout: int, fps: real)
    requires fps > 0.0 && CardFramesIncrease(samples)
    ensures forall i, j :: 0 <= i < j < |Detections(samples, timeout, fps)| ==>
      Detections(samples, timeout, fps)[i].timestamp < Detections(samples, timeout, fps)[j].timestamp
  {
    RunOrdered(samples, timeout, fps);
  }
}
