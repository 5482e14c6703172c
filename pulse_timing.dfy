/**
 * The pulse-burst edge classifier and the values derived when a burst ends
 * (src/pulse_tasks.cpp). Everything here is a pure function of the state
 * that the edge interrupt and the polling task share.
 */
module PulseTiming {
  import opened Common

  /** PULSE_BURST_TIMEOUT_US: an edge gap longer than this separates bursts. */
  const BURST_TIMEOUT_US: int := 2000
  /** MAX_PULSE_COUNT: a burst with more pulses is treated as noise. */
  const MAX_PULSE_COUNT: int := 40
  /** The edge count at which the first pulse period is captured. */
  const FIRST_PERIOD_EDGE: int := 3

  /** The fields the edge interrupt and the polling task share under the critical section. */
  datatype Shared = Shared(
    lastEdgeTimeUs: U32,
    firstPulseTimeUs: U32,
    burstStartTimeUs: U32,
    edgeCount: U16,
    burstActive: bool,
    notifyTask: bool)

  /** The all-zero shared state that module initialisation installs. */
  const ResetShared := Shared(0, 0, 0, 0, false, false)

  /** An edge at `now` opens a new burst: none is active and the gap since the last edge exceeds the timeout. */
  predicate StartsBurst(s: Shared, now: U32) {
    !s.burstActive && Sub32(now, s.lastEdgeTimeUs) > BURST_TIMEOUT_US
  }

  /** The edge interrupt: classify one edge at time `now`. */
  function EdgeStep(s: Shared, now: U32): Shared {
    var gap := Sub32(now, s.lastEdgeTimeUs);
    if StartsBurst(s, now) then
      Shared(now, 0, now, 1, true, true)
    else if s.burstActive then
      var count := Inc16(s.edgeCount);
      var first := if count == FIRST_PERIOD_EDGE && s.firstPulseTimeUs == 0 then gap else s.firstPulseTimeUs;
      s.(lastEdgeTimeUs := now, edgeCount := count, firstPulseTimeUs := first)
    else
      s.(lastEdgeTimeUs := now)
  }

  /** The shared state after the edges at `times`, in order, with no poll in between. */
  function Edges(s: Shared, times: seq<U32>): Shared
    decreases |times|
  {
    if times == [] then s else Edges(EdgeStep(s, times[0]), times[1..])
  }

  /**
   * Once a burst has passed its third edge, further edges only count: the
   * start time, the first-pulse period and the notify flag stay as they are.
   */
  lemma {:induction false} LaterEdges(s: Shared, times: seq<U32>)
    requires s.burstActive && s.edgeCount >= FIRST_PERIOD_EDGE
    requires s.edgeCount + |times| < TWO16
    ensures Edges(s, times).burstActive
    ensures Edges(s, times).edgeCount == s.edgeCount + |times|
    ensures Edges(s, times).burstStartTimeUs == s.burstStartTimeUs
    ensures Edges(s, times).firstPulseTimeUs == s.firstPulseTimeUs
    ensures Edges(s, times).notifyTask == s.notifyTask
    ensures Edges(s, times).lastEdgeTimeUs == if times == [] then s.lastEdgeTimeUs else times[|times| - 1]
    decreases |times|
  {
    if times != [] {
      var s1 := EdgeStep(s, times[0]);
      LaterEdges(s1, times[1..]);
      if |times| > 1 {
        assert times[1..][|times[1..]| - 1] == times[|times| - 1];
      }
    }
  }

  /**
   * A burst seen by the interrupt alone: the first edge after an idle gap
   * opens it; every later edge is counted whatever its gap, the start time is
   * the first edge, and the first-pulse period is the gap between the second
   * and third edges (0 while fewer than three edges arrived).
   */
  lemma {:induction false} BurstFromIdle(s: Shared, times: seq<U32>)
    requires |times| >= 1 && StartsBurst(s, times[0])
    requires |times| < TWO16
    ensures Edges(s, times).burstActive && Edges(s, times).notifyTask
    ensures Edges(s, times).burstStartTimeUs == times[0]
    ensures Edges(s, times).edgeCount == |times|
    ensures Edges(s, times).lastEdgeTimeUs == times[|times| - 1]
    ensures Edges(s, times).firstPulseTimeUs == if |times| >= 3 then Sub32(times[2], times[1]) else 0
  {
    var s1 := EdgeStep(s, times[0]);
    assert Edges(s, times) == Edges(s1, times[1..]);
    if |times| == 1 {
      assert Edges(s1, times[1..]) == s1;
    } else {
      var s2 := EdgeStep(s1, times[1]);
      assert times[1..][0] == times[1];
      assert Edges(s1, times[1..]) == Edges(s2, times[2..]) by {
        assert times[1..][1..] == times[2..];
      }
      if |times| == 2 {
        assert Edges(s2, times[2..]) == s2;
      } else {
        var s3 := EdgeStep(s2, times[2]);
        assert times[2..][0] == times[2];
        assert Edges(s2, times[2..]) == Edges(s3, times[3..]) by {
          assert times[2..][1..] == times[3..];
        }
        LaterEdges(s3, times[3..]);
        if |times| > 3 {
          assert times[3..][|times[3..]| - 1] == times[|times| - 1];
        }
      }
    }
  }

  /** The result structure the polling task publishes. */
  datatype BurstResult = BurstResult(
    burstDurationUs: U32,
    offPeriodUs: U32,
    pulseCount: U16,
    frequencyKHz: real,
    firstPulsePeriodUs: U32,
    timestamp: U32,
    burstActive: bool,
    success: bool)

  /** The result the task starts with, before any burst. */
  const InitialResult := BurstResult(0, 0, 0, 0.0, 0, 0, false, false)

  /** The poll sees the burst as ended: it is active and the last edge is more than the timeout ago. */
  predicate EndsBurst(snap: Shared, nowUs: U32) {
    snap.burstActive && Sub32(nowUs, snap.lastEdgeTimeUs) > BURST_TIMEOUT_US
  }

  /** Duration from the start edge to the poll that saw the end; 0 when the clock is not ahead of the start. */
  function BurstDuration(nowUs: U32, startUs: U32): U32 {
    if nowUs > startUs then nowUs - startUs else 0
  }

  /** Gap from the previous burst's end to this burst's start; 0 with no previous end or if not before the start. */
  function OffPeriod(startUs: U32, previousEndUs: U32): U32 {
    if previousEndUs > 0 && startUs > previousEndUs then startUs - previousEndUs else 0
  }

  /** Frequency in kHz, computed only with at least four edges and a positive duration (exact, without float rounding). */
  function FrequencyKHz(edgeCount: U16, durationUs: U32): real {
    if edgeCount >= 4 && durationUs > 0 then
      ((edgeCount / 2) as real * 1000.0) / (durationUs as real / 1000.0)
    else 0.0
  }

  /** The result published when the poll at `nowUs` sees the burst in `snap` end. */
  function Completed(snap: Shared, nowUs: U32, nowMs: U32, previousEndUs: U32): BurstResult {
    var duration := BurstDuration(nowUs, snap.burstStartTimeUs);
    BurstResult(
      duration,
      OffPeriod(snap.burstStartTimeUs, previousEndUs),
      snap.edgeCount / 2,
      FrequencyKHz(snap.edgeCount, duration),
      snap.firstPulseTimeUs,
      nowMs,
      false,
      true)
  }

  /** The result published when a burst start is noticed: the previous result with the active and success flags set. */
  function Started(previous: BurstResult): BurstResult {
    previous.(burstActive := true, success := true)
  }

  /** A completed burst with more pulses than MAX_PULSE_COUNT resets the rolling window. */
  predicate IsOutlier(r: BurstResult) {
    r.pulseCount > MAX_PULSE_COUNT
  }

  /** FIRST_READING_MIN_DURATION_MS: how long a latched baseline survives noise. */
  const FIRST_READING_MIN_DURATION_MS: int := 3000

  /** An outlier at `nowMs` may clear a baseline latched at `capturedMs` only once the hold time has passed. */
  predicate BaselineExpired(capturedMs: U32, nowMs: U32) {
    Sub32(nowMs, capturedMs) > FIRST_READING_MIN_DURATION_MS
  }

  /** The frequency is reported as non-zero exactly when there are at least four edges and a positive duration. */
  lemma FrequencyFloor(edgeCount: U16, durationUs: U32)
    ensures FrequencyKHz(edgeCount, durationUs) > 0.0 <==> edgeCount >= 4 && durationUs > 0
    ensures FrequencyKHz(edgeCount, durationUs) >= 0.0
  {
    if edgeCount >= 4 && durationUs > 0 {
      var pulses := (edgeCount / 2) as real * 1000.0;
      var ms := durationUs as real / 1000.0;
      assert pulses > 0.0 && ms > 0.0;
      PositiveQuotient(pulses, ms);
    }
  }

  lemma PositiveQuotient(a: real, b: real)
    requires a > 0.0 && b > 0.0
    ensures a / b > 0.0
  {
    assert (a / b) * b == a;
  }

  /**
   * A complete burst, from the interrupt's first edge to the poll that sees
   * it end: `pulseCount` is half the number of edges, the duration runs from
   * the first edge to the poll (not to the last edge), more than the timeout
   * beyond the last edge, and the frequency is 0 with fewer than four edges.
   */
  lemma {:induction false} BurstMeasurement(s: Shared, times: seq<U32>, nowUs: U32, nowMs: U32, previousEndUs: U32)
    requires |times| >= 1 && StartsBurst(s, times[0]) && |times| < TWO16
    requires times[0] <= times[|times| - 1] < nowUs
    requires EndsBurst(Edges(s, times), nowUs)
    ensures Completed(Edges(s, times), nowUs, nowMs, previousEndUs).pulseCount == |times| / 2
    ensures Completed(Edges(s, times), nowUs, nowMs, previousEndUs).burstDurationUs == nowUs - times[0]
    ensures Completed(Edges(s, times), nowUs, nowMs, previousEndUs).burstDurationUs > times[|times| - 1] - times[0] + BURST_TIMEOUT_US
    ensures Completed(Edges(s, times), nowUs, nowMs, previousEndUs).firstPulsePeriodUs == if |times| >= 3 then Sub32(times[2], times[1]) else 0
    ensures Completed(Edges(s, times), nowUs, nowMs, previousEndUs).frequencyKHz > 0.0 <==> |times| >= 4
  {
    BurstFromIdle(s, times);
    var e := Edges(s, times);
    FrequencyFloor(e.edgeCount, BurstDuration(nowUs, e.burstStartTimeUs));
  }

  /** A baseline survives an outlier that arrives within 3000 ms of its capture and expires after that. */
  lemma BaselineHold(capturedMs: U32, elapsedMs: U32)
    ensures BaselineExpired(capturedMs, Add32(capturedMs, elapsedMs)) <==> elapsedMs > FIRST_READING_MIN_DURATION_MS
  {
    SubAfterAdd(capturedMs, elapsedMs);
  }
}
