/**
 * The pulse-burst monitoring module (src/pulse_tasks.cpp) as one object:
 * the fields the edge interrupt shares with the polling task, the polling
 * task's own state (its last result, the rolling window and the baseline),
 * and the module's lifecycle (results queue, task, interrupt). The
 * interrupt and each poll tick are atomic methods; clocks are parameters.
 */
module PulseTasks {
  import opened Common
  import opened PulseTiming
  import opened PulseStats

  /** PULSE_REPORT_INTERVAL_MS, in ticks of one millisecond. */
  const REPORT_INTERVAL_TICKS: int := 1000

  /** What one reporting tick prints: the rolling means, the baseline if held, and the number of bursts averaged. */
  datatype Report = Report(current: Averages, baseline: Option<Sample>, bursts: int)

  class PulseMonitor {
    // Shared with the edge interrupt.
    var lastEdgeTimeUs: U32
    var firstPulseTimeUs: U32
    var burstStartTimeUs: U32
    var lastBurstEndTimeUs: U32
    var edgeCount: U16
    var burstActive: bool
    var notifyTask: bool

    // The polling task's locals.
    var result: BurstResult
    var previousBurstEnd: U32
    var wasActive: bool
    /** The five parallel rolling arrays, one record per slot. */
    const window: array<Sample>
    var avgIndex: int
    var validBursts: int
    var haveFirstReading: bool
    var first: Sample
    var firstReadingTimestamp: U32
    var lastReportTime: U32
    /** The valid bursts recorded since the last window reset, oldest first. */
    ghost var history: seq<Sample>

    // Lifecycle: the results queue (one slot, overwritten), the task and the interrupt.
    var queueCreated: bool
    var slot: Option<BurstResult>
    var taskRunning: bool
    var interruptAttached: bool

    /** The fields the interrupt and the task share, as one value. */
    function SharedState(): Shared
      reads this`lastEdgeTimeUs, this`firstPulseTimeUs, this`burstStartTimeUs
      reads this`edgeCount, this`burstActive, this`notifyTask
    {
      Shared(lastEdgeTimeUs, firstPulseTimeUs, burstStartTimeUs, edgeCount, burstActive, notifyTask)
    }

    ghost predicate Valid()
      reads this`avgIndex, this`validBursts, this`history, window
      reads this`queueCreated, this`slot, this`taskRunning, this`interruptAttached
    {
      WindowValid() && LifecycleValid()
    }

    /** The ring holds the most recent bursts since the last reset. */
    ghost predicate WindowValid()
      reads this`avgIndex, this`validBursts, this`history, window
    {
      WindowHolds(window[..], avgIndex, validBursts, history)
    }

    /** A deleted queue holds nothing; a queue or a running task implies the interrupt is attached. */
    predicate LifecycleValid()
      reads this`queueCreated, this`slot, this`taskRunning, this`interruptAttached
    {
      && (!queueCreated ==> slot == None)
      && (taskRunning || queueCreated ==> interruptAttached)
    }

    /** The module before initialisation: no queue, no task, all timing state zero. */
    constructor ()
      ensures Valid() && fresh(window)
      ensures SharedState() == ResetShared && lastBurstEndTimeUs == 0
      ensures !queueCreated && !taskRunning && !interruptAttached
    {
      lastEdgeTimeUs, firstPulseTimeUs, burstStartTimeUs, lastBurstEndTimeUs := 0, 0, 0, 0;
      edgeCount, burstActive, notifyTask := 0, false, false;
      result, previousBurstEnd, wasActive := InitialResult, 0, false;
      window := new Sample[AVG_WINDOW](_ => ZeroSample);
      avgIndex, validBursts := 0, 0;
      haveFirstReading, first, firstReadingTimestamp := false, ZeroSample, 0;
      lastReportTime := 0;
      history := [];
      queueCreated, slot, taskRunning, interruptAttached := false, None, false, false;
      new;
      ClearedWindow();
      assert window[..] == seq(AVG_WINDOW, _ => ZeroSample);
    }

    /** pulseBurstISR: one edge at time `nowUs` (src/pulse_tasks.cpp:28-55). */
    method OnEdge(nowUs: U32)
      modifies this`lastEdgeTimeUs, this`firstPulseTimeUs, this`burstStartTimeUs,
               this`edgeCount, this`burstActive, this`notifyTask
      ensures SharedState() == EdgeStep(old(SharedState()), nowUs)
    {
      if !burstActive && Sub32(nowUs, lastEdgeTimeUs) > BURST_TIMEOUT_US {
        burstStartTimeUs := nowUs;
        edgeCount := 1;
        burstActive := true;
        firstPulseTimeUs := 0;
        notifyTask := true;
      } else if burstActive {
        edgeCount := Inc16(edgeCount);
        if edgeCount == FIRST_PERIOD_EDGE && firstPulseTimeUs == 0 {
          firstPulseTimeUs := Sub32(nowUs, lastEdgeTimeUs);
        }
      }
      lastEdgeTimeUs := nowUs;
    }

    /** The task's critical section: copy the shared fields and consume the notify flag. */
    method Snapshot() returns (snap: Shared)
      modifies this`notifyTask
      ensures snap == old(SharedState())
      ensures SharedState() == snap.(notifyTask := false)
    {
      snap := SharedState();
      if snap.notifyTask {
        notifyTask := false;
      }
    }

    /** xQueueOverwrite: the single slot now holds `r` (a deleted queue receives nothing). */
    method Publish(r: BurstResult)
      requires LifecycleValid()
      modifies this`slot
      ensures LifecycleValid()
      ensures slot == if queueCreated then Some(r) else old(slot)
    {
      if queueCreated {
        slot := Some(r);
      }
    }

    /** memset of the five rolling arrays, then `validBursts = avgIndex = 0`: the window forgets every burst. */
    method ResetWindow()
      requires window.Length == AVG_WINDOW
      modifies window, this`avgIndex, this`validBursts, this`history
      ensures WindowValid() && history == [] && avgIndex == 0 && validBursts == 0
      ensures window[..] == seq(AVG_WINDOW, _ => ZeroSample)
    {
      var i := 0;
      while i < window.Length
        invariant 0 <= i <= window.Length
        invariant forall k :: 0 <= k < i ==> window[k] == ZeroSample
      {
        window[i] := ZeroSample;
        i := i + 1;
      }
      validBursts := 0;
      avgIndex := 0;
      history := [];
      ClearedWindow();
    }

    /** Insertion of a valid burst (src/pulse_tasks.cpp:194-198, 216-219): write the cursor's slot, advance, count. */
    method Record(x: Sample)
      requires WindowValid()
      modifies window, this`avgIndex, this`validBursts, this`history
      ensures WindowValid() && history == old(history) + [x]
    {
      ghost var w0 := window[..];
      InsertKeeps(w0, avgIndex, validBursts, history, x);
      window[avgIndex] := x;
      assert window[..] == w0[avgIndex := x];
      avgIndex := (avgIndex + 1) % AVG_WINDOW;
      if validBursts < AVG_WINDOW {
        validBursts := validBursts + 1;
      }
      history := history + [x];
    }

    /**
     * An outlier (src/pulse_tasks.cpp:171-191): the window is emptied and a
     * baseline older than the hold time is dropped.
     */
    method DropOutlier(nowMs: U32)
      requires window.Length == AVG_WINDOW
      modifies window, this`avgIndex, this`validBursts, this`history, this`haveFirstReading
      ensures WindowValid() && history == [] && validBursts == 0 && avgIndex == 0
      ensures haveFirstReading == (old(haveFirstReading) && !BaselineExpired(firstReadingTimestamp, nowMs))
    {
      ResetWindow();
      if haveFirstReading && BaselineExpired(firstReadingTimestamp, nowMs) {
        haveFirstReading := false;
      }
    }

    /**
     * A valid burst (src/pulse_tasks.cpp:192-222): it enters the window, and
     * becomes the baseline, stamped `nowMs`, if none is held.
     */
    method Accept(x: Sample, nowMs: U32)
      requires WindowValid()
      modifies window, this`avgIndex, this`validBursts, this`history
      modifies this`haveFirstReading, this`first, this`firstReadingTimestamp
      ensures WindowValid() && history == old(history) + [x] && haveFirstReading
      ensures old(haveFirstReading) ==> first == old(first) && firstReadingTimestamp == old(firstReadingTimestamp)
      ensures !old(haveFirstReading) ==> first == x && firstReadingTimestamp == nowMs
    {
      Record(x);
      if !haveFirstReading {
        first := x;
        firstReadingTimestamp := nowMs;
        haveFirstReading := true;
      }
    }

    /**
     * The burst-end branch of the task loop (src/pulse_tasks.cpp:132-231):
     * the burst in `snap` ended before the poll at `nowUs`. The result is
     * published even for an outlier; an outlier empties the window instead
     * of entering it.
     */
    method EndBurst(snap: Shared, nowUs: U32, nowMs: U32)
      requires Valid()
      modifies this`burstActive, this`lastBurstEndTimeUs, this`result, this`previousBurstEnd, this`wasActive
      modifies window, this`avgIndex, this`validBursts, this`history
      modifies this`haveFirstReading, this`first, this`firstReadingTimestamp, this`slot
      ensures Valid()
      ensures !burstActive && lastBurstEndTimeUs == nowUs && previousBurstEnd == nowUs && !wasActive
      ensures result == Completed(snap, nowUs, nowMs, old(previousBurstEnd))
      ensures slot == if queueCreated then Some(result) else old(slot)
      ensures IsOutlier(result) ==>
                && history == [] && validBursts == 0 && avgIndex == 0
                && haveFirstReading == (old(haveFirstReading) && !BaselineExpired(firstReadingTimestamp, nowMs))
                && first == old(first) && firstReadingTimestamp == old(firstReadingTimestamp)
      ensures !IsOutlier(result) ==>
                && history == old(history) + [SampleOf(result)]
                && haveFirstReading
                && (old(haveFirstReading) ==> first == old(first) && firstReadingTimestamp == old(firstReadingTimestamp))
                && (!old(haveFirstReading) ==> first == SampleOf(result) && firstReadingTimestamp == nowMs)
    {
      burstActive, lastBurstEndTimeUs := false, nowUs;
      result := Completed(snap, nowUs, nowMs, previousBurstEnd);
      if IsOutlier(result) {
        DropOutlier(nowMs);
      } else {
        Accept(SampleOf(result), nowMs);
      }
      Conclude(nowUs);
    }

    /** The end of the burst-end branch (src/pulse_tasks.cpp:225-230): remember the end, publish, clear `wasActive`. */
    method Conclude(nowUs: U32)
      requires LifecycleValid()
      modifies this`previousBurstEnd, this`slot, this`wasActive
      ensures LifecycleValid()
      ensures previousBurstEnd == nowUs && !wasActive
      ensures slot == if queueCreated then Some(result) else old(slot)
    {
      previousBurstEnd := nowUs;
      Publish(result);
      wasActive := false;
    }

    /** The burst-start branch (src/pulse_tasks.cpp:233-245): republish the last result marked active. */
    method NoticeStart()
      requires LifecycleValid()
      modifies this`result, this`slot, this`wasActive
      ensures LifecycleValid()
      ensures result == Started(old(result)) && wasActive
      ensures slot == if queueCreated then Some(result) else old(slot)
    {
      result := Started(result);
      Publish(result);
      wasActive := true;
    }

    /** The averaging loop over slots 0..validBursts-1 (src/pulse_tasks.cpp:259-265). */
    method RollingSums() returns (total: Sample)
      requires WindowValid()
      ensures total == Sum(Recent(history))
    {
      WindowSum(window[..], avgIndex, validBursts, history);
      total := ZeroSample;
      var i := 0;
      while i < validBursts
        invariant 0 <= i <= validBursts
        invariant total == Sum(window[..i])
      {
        assert window[..i + 1][..i] == window[..i];
        total := Add(total, window[i]);
        i := i + 1;
      }
      assert window[..validBursts] == window[..][..validBursts];
    }

    /**
     * The reporting step (src/pulse_tasks.cpp:248-323): once a report
     * interval has passed and the window is not empty, the means of the most
     * recent bursts since the last reset and the baseline, if one is held.
     */
    method MaybeReport(nowTicks: U32) returns (report: Option<Report>)
      requires WindowValid()
      modifies this`lastReportTime
      ensures report.Some? <==> Sub32(nowTicks, old(lastReportTime)) >= REPORT_INTERVAL_TICKS && validBursts > 0
      ensures report.Some? ==> lastReportTime == nowTicks
      ensures report.None? ==> lastReportTime == old(lastReportTime)
      ensures report.Some? ==>
                && report.value.current == Mean(Sum(Recent(history)), |Recent(history)|)
                && report.value.baseline == (if haveFirstReading then Some(first) else None)
                && report.value.bursts == validBursts
    {
      if Sub32(nowTicks, lastReportTime) >= REPORT_INTERVAL_TICKS && validBursts > 0 {
        lastReportTime := nowTicks;
        var total := RollingSums();
        report := Some(Report(Mean(total, validBursts), if haveFirstReading then Some(first) else None, validBursts));
      } else {
        report := None;
      }
    }

    /**
     * One pass of the task loop (src/pulse_tasks.cpp:104-327) at the clock
     * readings `nowUs`, `nowMs` and `nowTicks`. A burst end takes precedence
     * over a pending start notice, which the snapshot consumes either way.
     */
    method Tick(nowUs: U32, nowMs: U32, nowTicks: U32) returns (report: Option<Report>)
      requires Valid() && taskRunning
      modifies this`notifyTask, this`burstActive, this`lastBurstEndTimeUs, this`result, this`previousBurstEnd
      modifies this`wasActive, window, this`avgIndex, this`validBursts, this`history
      modifies this`haveFirstReading, this`first, this`firstReadingTimestamp, this`slot, this`lastReportTime
      ensures Valid()
      ensures !notifyTask
      ensures EndsBurst(old(SharedState()), nowUs) ==>
                && !burstActive && lastBurstEndTimeUs == nowUs && previousBurstEnd == nowUs && !wasActive
                && result == Completed(old(SharedState()), nowUs, nowMs, old(previousBurstEnd))
                && slot == (if queueCreated then Some(result) else old(slot))
      ensures EndsBurst(old(SharedState()), nowUs) && IsOutlier(result) ==>
                && history == [] && validBursts == 0 && avgIndex == 0
                && haveFirstReading == (old(haveFirstReading) && !BaselineExpired(old(firstReadingTimestamp), nowMs))
                && first == old(first) && firstReadingTimestamp == old(firstReadingTimestamp)
      ensures EndsBurst(old(SharedState()), nowUs) && !IsOutlier(result) ==>
                && history == old(history) + [SampleOf(result)]
                && haveFirstReading
                && (old(haveFirstReading) ==> first == old(first) && firstReadingTimestamp == old(firstReadingTimestamp))
                && (!old(haveFirstReading) ==> first == SampleOf(result) && firstReadingTimestamp == nowMs)
      ensures !EndsBurst(old(SharedState()), nowUs) ==>
                && burstActive == old(burstActive) && lastBurstEndTimeUs == old(lastBurstEndTimeUs)
                && previousBurstEnd == old(previousBurstEnd)
                && window[..] == old(window[..]) && avgIndex == old(avgIndex) && validBursts == old(validBursts)
                && history == old(history)
                && haveFirstReading == old(haveFirstReading) && first == old(first)
                && firstReadingTimestamp == old(firstReadingTimestamp)
      ensures !EndsBurst(old(SharedState()), nowUs) && old(notifyTask) && !old(wasActive) ==>
                && result == Started(old(result)) && wasActive
                && slot == (if queueCreated then Some(result) else old(slot))
      ensures !EndsBurst(old(SharedState()), nowUs) && !(old(notifyTask) && !old(wasActive)) ==>
                && result == old(result) && wasActive == old(wasActive) && slot == old(slot)
      ensures report.Some? <==> Sub32(nowTicks, old(lastReportTime)) >= REPORT_INTERVAL_TICKS && validBursts > 0
      ensures lastReportTime == if report.Some? then nowTicks else old(lastReportTime)
      ensures report.Some? ==>
                && |Recent(history)| > 0
                && report.value.current == Mean(Sum(Recent(history)), |Recent(history)|)
                && report.value.baseline == (if haveFirstReading then Some(first) else None)
                && report.value.bursts == validBursts
    {
      var snap := Snapshot();
      if EndsBurst(snap, nowUs) {
        EndBurst(snap, nowUs, nowMs);
      } else if snap.notifyTask && !wasActive {
        NoticeStart();
      }
      report := MaybeReport(nowTicks);
    }

    /**
     * initPulseBurstModule (src/pulse_tasks.cpp:334-372). `queueOk` is
     * whether the queue allocation succeeds and `pinHasInterrupt` whether the
     * pin maps to an interrupt.
     */
    method Init(queueOk: bool, pinHasInterrupt: bool) returns (ok: bool)
      requires LifecycleValid()
      modifies this`queueCreated, this`slot, this`interruptAttached
      modifies this`lastEdgeTimeUs, this`firstPulseTimeUs, this`burstStartTimeUs, this`lastBurstEndTimeUs
      modifies this`edgeCount, this`burstActive, this`notifyTask
      ensures LifecycleValid()
      ensures ok <==> queueOk && pinHasInterrupt
      ensures queueCreated == ok && slot == None
      ensures ok ==> SharedState() == ResetShared && lastBurstEndTimeUs == 0 && interruptAttached
      ensures !ok ==> SharedState() == old(SharedState()) && lastBurstEndTimeUs == old(lastBurstEndTimeUs)
                      && interruptAttached == old(interruptAttached)
    {
      if !queueOk {
        queueCreated, slot := false, None;
        return false;
      }
      queueCreated, slot := true, None;
      if !pinHasInterrupt {
        queueCreated, slot := false, None;
        return false;
      }
      lastEdgeTimeUs, firstPulseTimeUs, burstStartTimeUs, lastBurstEndTimeUs := 0, 0, 0, 0;
      edgeCount, burstActive, notifyTask := 0, false, false;
      interruptAttached := true;
      return true;
    }

    /**
     * createPulseBurstTask (src/pulse_tasks.cpp:374-403). A new task starts
     * with the initial locals of pulseBurstTask (lines 62-101); `createOk` is
     * whether xTaskCreate succeeds and `nowTicks` the tick count the new task reads.
     */
    method CreateTask(createOk: bool, nowTicks: U32) returns (ok: bool)
      requires Valid()
      modifies this`taskRunning, this`result, this`previousBurstEnd, this`wasActive
      modifies window, this`avgIndex, this`validBursts, this`history
      modifies this`haveFirstReading, this`first, this`firstReadingTimestamp, this`lastReportTime
      ensures Valid()
      ensures !old(queueCreated) ==> !ok && unchanged(this, window)
      ensures old(queueCreated) && old(taskRunning) ==> ok && unchanged(this, window)
      ensures old(queueCreated) && !old(taskRunning) ==> (ok <==> createOk) && taskRunning == createOk
      ensures old(queueCreated) && !old(taskRunning) && createOk ==>
                && result == InitialResult && previousBurstEnd == 0 && !wasActive
                && history == [] && validBursts == 0 && avgIndex == 0 && !haveFirstReading
                && lastReportTime == nowTicks
    {
      if !queueCreated {
        return false;
      }
      if taskRunning {
        return true;
      }
      if !createOk {
        return false;
      }
      taskRunning := true;
      StartTask(nowTicks);
      return true;
    }

    /** The locals a new pulseBurstTask starts with (src/pulse_tasks.cpp:62-101). */
    method StartTask(nowTicks: U32)
      requires window.Length == AVG_WINDOW
      modifies this`result, this`previousBurstEnd, this`wasActive
      modifies window, this`avgIndex, this`validBursts, this`history
      modifies this`haveFirstReading, this`first, this`firstReadingTimestamp, this`lastReportTime
      ensures WindowValid()
      ensures result == InitialResult && previousBurstEnd == 0 && !wasActive
      ensures history == [] && validBursts == 0 && avgIndex == 0 && !haveFirstReading
      ensures lastReportTime == nowTicks
    {
      result, previousBurstEnd, wasActive := InitialResult, 0, false;
      ResetWindow();
      haveFirstReading, first, firstReadingTimestamp, lastReportTime := false, ZeroSample, 0, nowTicks;
    }

    /**
     * receivePulseBurstResults (src/pulse_tasks.cpp:405-423): peek the
     * latest result without removing it; on failure the caller's buffer
     * `into` is returned untouched.
     */
    method Receive(into: BurstResult) returns (ok: bool, r: BurstResult)
      ensures ok <==> queueCreated && slot.Some?
      ensures ok ==> r == slot.value
      ensures !ok ==> r == into
    {
      if !queueCreated || slot.None? {
        return false, into;
      }
      return true, slot.value;
    }

    /** stopPulseBurstTask (src/pulse_tasks.cpp:425-446): always succeeds; a stopped module is left as it is. */
    method Stop() returns (ok: bool)
      requires LifecycleValid()
      modifies this`interruptAttached, this`taskRunning, this`queueCreated, this`slot
      ensures LifecycleValid() && ok
      ensures !old(taskRunning) ==> unchanged(this)
      ensures old(taskRunning) ==> !taskRunning && !interruptAttached && !queueCreated && slot == None
    {
      if !taskRunning {
        return true;
      }
      interruptAttached := false;
      taskRunning := false;
      if queueCreated {
        queueCreated, slot := false, None;
      }
      return true;
    }
  }
}
