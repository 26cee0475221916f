/**
  `ModelStatsViewModel`: the runtime statistics (fps every 10th inference, its
  running average, UI refresh count, inference times from the timer), the
  once-per-second stats tick, and the snapshot recording with its states
  NOT_RECORDING, RECORDING and PROCESSING.

  Clock readings are `now` parameters. LiveData counters are plain fields; a
  `postValue` made outside the tick takes effect at once, while the tick,
  which runs on the main thread, sees its own posts only after it finishes.
  The chart drawn after a recording stops is not modelled; its completion is
  the method `FinishProcessing`.
 */
module ModelStats {
  import opened Numeric
  import opened InferenceTimer

  /** `frameCount` in `updateFpsCounter`: fps is measured over windows of 10 inferences. */
  const FrameCount: int := 10
  /** The default `maxSnapshots` of a recording. */
  const MaxSnapshots: int := 10

  datatype ModelStatsState = ModelStatsState(
    totalTime: int,
    fps: int,
    modelInferenceTime: int,
    avgFps: int,
    avgModelInferenceTime: int,
    uiRefreshRate: int,
    confidence: real)

  /** The data class defaults: every statistic 0, threshold 0.5. */
  function DefaultStatsState(): (s: ModelStatsState)
    ensures s.totalTime == 0 && s.fps == 0 && s.modelInferenceTime == 0
    ensures s.avgFps == 0 && s.avgModelInferenceTime == 0 && s.uiRefreshRate == 0
    ensures s.confidence == 0.5
  {
    ModelStatsState(0, 0, 0, 0, 0, 0, 0.5)
  }

  datatype RecordingStatus = NotRecording | Recording | Processing

  datatype ModelStatsSnapshot = ModelStatsSnapshot(fps: int, modelInferenceTime: int)

  datatype SnapshotsRecordState = SnapshotsRecordState(
    recordingStatus: RecordingStatus,
    maxSnapshots: int,
    startTime: int,
    endTime: int,
    totalTime: int,
    avgFps: int,
    avgModelInferenceTime: int,
    snapshotsRecord: seq<ModelStatsSnapshot>)

  /** The data class defaults: not recording, room for 10 snapshots, no times, no snapshots. */
  function DefaultRecordState(): (r: SnapshotsRecordState)
    ensures r.recordingStatus == NotRecording && r.maxSnapshots == MaxSnapshots
    ensures r.startTime == 0 && r.endTime == 0 && r.totalTime == 0
    ensures r.avgFps == 0 && r.avgModelInferenceTime == 0 && r.snapshotsRecord == []
  {
    SnapshotsRecordState(NotRecording, MaxSnapshots, 0, 0, 0, 0, 0, [])
  }

  /**
    The fps of one window of 10 inferences that took `delta` milliseconds:
    `1000 * frameCount / delta` truncated toward zero by `toInt`, and 1 when
    no time passed. For a positive delta it is the floor of 10000 / delta,
    between 0 and 10000; for a negative one (the wall clock went back) it is
    that of -delta negated.
   */
  function WindowFps(delta: int): (fps: int)
    ensures delta == 0 ==> fps == 1
    ensures delta > 0 ==> && 0 <= fps <= 1000 * FrameCount
                          && fps * delta <= 1000 * FrameCount < fps * delta + delta
    ensures delta > 0 ==> fps == (1000 * FrameCount) / delta
    ensures delta < 0 ==> fps == -((1000 * FrameCount) / -delta)
  {
    if delta == 0 then 1
    else if delta > 0 then
      TruncDivBrackets(1000 * FrameCount, delta);
      TruncDivNonNegative(1000 * FrameCount, delta);
      MulCancel(TruncDiv(1000 * FrameCount, delta), 1000 * FrameCount, delta);
      TruncDiv(1000 * FrameCount, delta)
    else TruncDiv(1000 * FrameCount, delta)
  }

  /** The fps values of the snapshots, in order. */
  function FpsValues(snapshots: seq<ModelStatsSnapshot>): (xs: seq<int>)
    ensures |xs| == |snapshots| && forall i :: 0 <= i < |xs| ==> xs[i] == snapshots[i].fps
  {
    seq(|snapshots|, i requires 0 <= i < |snapshots| => snapshots[i].fps)
  }

  /** The inference times of the snapshots, in order. */
  function InferenceValues(snapshots: seq<ModelStatsSnapshot>): (xs: seq<int>)
    ensures |xs| == |snapshots| && forall i :: 0 <= i < |xs| ==> xs[i] == snapshots[i].modelInferenceTime
  {
    seq(|snapshots|, i requires 0 <= i < |snapshots| => snapshots[i].modelInferenceTime)
  }

  /** `resetRecording`: not recording, no snapshots, every time and average 0; the capacity stays. */
  function ResetRecord(r: SnapshotsRecordState): (s: SnapshotsRecordState)
    ensures s.recordingStatus == NotRecording && s.snapshotsRecord == []
    ensures s.startTime == 0 && s.endTime == 0 && s.totalTime == 0
    ensures s.avgFps == 0 && s.avgModelInferenceTime == 0
    ensures s.maxSnapshots == r.maxSnapshots
  {
    r.(recordingStatus := NotRecording, startTime := 0, endTime := 0, totalTime := 0,
       avgFps := 0, avgModelInferenceTime := 0, snapshotsRecord := [])
  }

  /** Whether `stopSnapshotsRecording` on this record computes the averages and launches the chart job. */
  predicate LaunchesChart(r: SnapshotsRecordState)
  {
    r.recordingStatus != Processing && r.snapshotsRecord != []
  }

  /**
    `stopSnapshotsRecording`: nothing while PROCESSING; with no snapshots the
    record only goes back to NOT_RECORDING; otherwise the end time, the
    recording's duration and the two integer means are filled in and the
    record becomes PROCESSING until the chart job completes.
   */
  function StopRecord(r: SnapshotsRecordState, now: int): (s: SnapshotsRecordState)
    ensures r.recordingStatus == Processing ==> s == r
    ensures r.recordingStatus != Processing && r.snapshotsRecord == [] ==> s == r.(recordingStatus := NotRecording)
    ensures LaunchesChart(r) ==>
      && s.recordingStatus == Processing
      && s.endTime == now && s.totalTime == now - r.startTime
      && s.avgFps == TruncDiv(Sum(FpsValues(r.snapshotsRecord)), |r.snapshotsRecord|)
      && s.avgModelInferenceTime == TruncDiv(Sum(InferenceValues(r.snapshotsRecord)), |r.snapshotsRecord|)
      && s.snapshotsRecord == r.snapshotsRecord && s.startTime == r.startTime && s.maxSnapshots == r.maxSnapshots
  {
    if r.recordingStatus == Processing then r
    else if r.snapshotsRecord != [] then
      var snaps := r.snapshotsRecord;
      r.(endTime := now,
         avgFps := TruncDiv(Sum(FpsValues(snaps)), |snaps|),
         avgModelInferenceTime := TruncDiv(Sum(InferenceValues(snaps)), |snaps|),
         totalTime := now - r.startTime)
       .(recordingStatus := Processing)
    else r.(recordingStatus := NotRecording)
  }

  /**
    `startSnapshotsRecording`: nothing while PROCESSING; otherwise a running
    recording is stopped first, and the record starts afresh: RECORDING, no
    snapshots, every time and average 0, the same capacity.
   */
  function StartRecord(r: SnapshotsRecordState, now: int): (s: SnapshotsRecordState)
    ensures r.recordingStatus == Processing ==> s == r
    ensures r.recordingStatus != Processing ==>
      && s.recordingStatus == Recording && s.snapshotsRecord == []
      && s.startTime == 0 && s.endTime == 0 && s.totalTime == 0
      && s.avgFps == 0 && s.avgModelInferenceTime == 0
      && s.maxSnapshots == r.maxSnapshots
  {
    if r.recordingStatus == Processing then r
    else
      var stopped := if r.recordingStatus == Recording then StopRecord(r, now) else r;
      ResetRecord(stopped).(recordingStatus := Recording, startTime := 0, endTime := 0, snapshotsRecord := [])
  }

  /**
    `addSnapshotToRecord`: a full record is stopped first, the start time is
    set when it is still 0, and the snapshot is appended in every case.
   */
  function WithSnapshot(r: SnapshotsRecordState, snapshot: ModelStatsSnapshot, now: int): (s: SnapshotsRecordState)
    ensures s.snapshotsRecord == r.snapshotsRecord + [snapshot]
    ensures s.maxSnapshots == r.maxSnapshots
    ensures s.startTime == (if r.startTime == 0 then now else r.startTime)
    ensures |r.snapshotsRecord| < r.maxSnapshots ==>
      s == r.(startTime := s.startTime, snapshotsRecord := s.snapshotsRecord)
    ensures |r.snapshotsRecord| >= r.maxSnapshots ==>
      s == StopRecord(r, now).(startTime := s.startTime, snapshotsRecord := s.snapshotsRecord)
  {
    var checked := if |r.snapshotsRecord| >= r.maxSnapshots then StopRecord(r, now) else r;
    var started := if checked.startTime == 0 then checked.(startTime := now) else checked;
    started.(snapshotsRecord := started.snapshotsRecord + [snapshot])
  }

  /**
    Adding to a recording that holds at most `maxSnapshots` keeps it so while
    it stays RECORDING; adding to a full one stops it, and the appended
    snapshot lands after the stop, so the stopped record holds
    `maxSnapshots + 1` snapshots.
   */
  lemma RecordingStaysBounded(r: SnapshotsRecordState, snapshot: ModelStatsSnapshot, now: int)
    requires r.recordingStatus == Recording && |r.snapshotsRecord| <= r.maxSnapshots
    ensures var s := WithSnapshot(r, snapshot, now);
      && |s.snapshotsRecord| <= s.maxSnapshots + 1
      && (s.recordingStatus == Recording ==> |s.snapshotsRecord| <= s.maxSnapshots)
      && (|r.snapshotsRecord| == r.maxSnapshots && 0 < r.maxSnapshots ==>
            s.recordingStatus == Processing && |s.snapshotsRecord| == s.maxSnapshots + 1)
  {
  }

  /**
    The averages a stop computes lie between the smallest and the largest
    recorded value: integer truncation never leaves the range of the snapshots.
   */
  lemma StopAveragesWithin(r: SnapshotsRecordState, now: int, fpsLo: int, fpsHi: int, timeLo: int, timeHi: int)
    requires LaunchesChart(r)
    requires forall i :: 0 <= i < |r.snapshotsRecord| ==> fpsLo <= r.snapshotsRecord[i].fps <= fpsHi
    requires forall i :: 0 <= i < |r.snapshotsRecord| ==> timeLo <= r.snapshotsRecord[i].modelInferenceTime <= timeHi
    ensures fpsLo <= StopRecord(r, now).avgFps <= fpsHi
    ensures timeLo <= StopRecord(r, now).avgModelInferenceTime <= timeHi
  {
    MeanWithin(FpsValues(r.snapshotsRecord), fpsLo, fpsHi);
    MeanWithin(InferenceValues(r.snapshotsRecord), timeLo, timeHi);
  }

  /** Starting a recording that has not received a snapshot yet changes nothing. */
  lemma {:induction false} RestartEmptyRecording(r: SnapshotsRecordState, first: int, second: int)
    requires r.recordingStatus != Processing
    ensures StartRecord(StartRecord(r, first), second) == StartRecord(r, first)
  {
  }

  class ModelStatsViewModel {
    var modelStatsState: ModelStatsState
    var recordState: SnapshotsRecordState
    const timer: Timer
    var inferenceTime: int
    var avgInferenceTime: int
    var totalTime: int
    var fpsCounter: int
    var avgFps: int
    var frameCounter: int
    var totalFrameCounter: int
    var totalFpsCounter: int
    var lastFpsTimestamp: int
    var updatedUiFramesCounter: int
    /** Chart jobs launched by `stopSnapshotsRecording` that have not completed yet. */
    var pendingChartJobs: nat
    /** The fps of every window measured since the fps counters were last stopped. */
    ghost var windowFps: seq<int>

    /**
      The frame counter stays below the window size; the running totals are
      the count and the sum of the window fps values, and `avgFps` is their
      truncated mean once a window was measured; a RECORDING record holds at
      most `maxSnapshots`, and a PROCESSING one has a chart job pending.
     */
    ghost predicate Valid()
      reads this, timer
    {
      && timer.Valid()
      && 0 <= frameCounter < FrameCount
      && FpsTotals()
      && recordState.maxSnapshots == MaxSnapshots
      && (recordState.recordingStatus == Recording ==> |recordState.snapshotsRecord| <= recordState.maxSnapshots)
      && (recordState.recordingStatus == Processing ==> pendingChartJobs > 0)
    }

    /** The running fps totals are the count and the sum of the window fps values, and `avgFps` their truncated mean. */
    ghost predicate FpsTotals()
      reads this
    {
      && totalFrameCounter == |windowFps| && totalFpsCounter == Sum(windowFps)
      && (windowFps != [] ==> avgFps == TruncDiv(totalFpsCounter, totalFrameCounter))
    }

    constructor (now: int)
      ensures Valid() && fresh(timer)
      ensures modelStatsState == DefaultStatsState() && recordState == DefaultRecordState()
      ensures inferenceTime == 0 && avgInferenceTime == 0 && totalTime == 0
      ensures fpsCounter == 0 && avgFps == 0 && frameCounter == 0 && totalFrameCounter == 0 && totalFpsCounter == 0
      ensures lastFpsTimestamp == now && updatedUiFramesCounter == 0 && pendingChartJobs == 0
      ensures windowFps == [] && timer.durations == [] && !timer.hasStarted
    {
      modelStatsState := DefaultStatsState();
      recordState := DefaultRecordState();
      timer := new Timer();
      inferenceTime, avgInferenceTime, totalTime := 0, 0, 0;
      fpsCounter, avgFps, frameCounter, totalFrameCounter, totalFpsCounter := 0, 0, 0, 0, 0;
      lastFpsTimestamp := now;
      updatedUiFramesCounter := 0;
      pendingChartJobs := 0;
      windowFps := [];
    }

    /**
      `updateFpsCounter`, called after every inference: every 10th call closes
      a window, publishes its fps, adds it to the running total and publishes
      the running average; the other calls only count.
     */
    method UpdateFpsCounter(now: int)
      requires Valid()
      modifies this
      ensures Valid()
      ensures old(frameCounter) < FrameCount - 1 ==>
        && frameCounter == old(frameCounter) + 1
        && totalFrameCounter == old(totalFrameCounter) && totalFpsCounter == old(totalFpsCounter)
        && lastFpsTimestamp == old(lastFpsTimestamp) && fpsCounter == old(fpsCounter) && avgFps == old(avgFps)
        && windowFps == old(windowFps)
      ensures old(frameCounter) == FrameCount - 1 ==>
        && frameCounter == 0
        && totalFrameCounter == old(totalFrameCounter) + 1
        && lastFpsTimestamp == now
        && fpsCounter == WindowFps(now - old(lastFpsTimestamp))
        && totalFpsCounter == old(totalFpsCounter) + fpsCounter
        && avgFps == TruncDiv(totalFpsCounter, totalFrameCounter)
        && windowFps == old(windowFps) + [fpsCounter]
      ensures modelStatsState == old(modelStatsState) && recordState == old(recordState)
      ensures inferenceTime == old(inferenceTime) && avgInferenceTime == old(avgInferenceTime) && totalTime == old(totalTime)
      ensures updatedUiFramesCounter == old(updatedUiFramesCounter) && pendingChartJobs == old(pendingChartJobs)
    {
      frameCounter := frameCounter + 1;
      assert frameCounter % FrameCount == 0 <==> frameCounter == FrameCount;
      if frameCounter % FrameCount == 0 {
        totalFrameCounter := totalFrameCounter + 1;
        frameCounter := 0;
        var delta := now - lastFpsTimestamp;
        var fps := WindowFps(delta);
        lastFpsTimestamp := now;
        fpsCounter := fps;
        SumAppend(windowFps, fps);
        windowFps, totalFpsCounter := windowFps + [fps], totalFpsCounter + fps;
        avgFps := TruncDiv(totalFpsCounter, totalFrameCounter);
      }
    }

    /** `incrementUpdatedUiFramesCounter`: one more UI frame in this second. */
    method IncrementUpdatedUiFramesCounter()
      requires Valid()
      modifies this
      ensures Valid()
      ensures updatedUiFramesCounter == old(updatedUiFramesCounter) + 1
      ensures modelStatsState == old(modelStatsState) && recordState == old(recordState)
      ensures inferenceTime == old(inferenceTime) && avgInferenceTime == old(avgInferenceTime) && totalTime == old(totalTime)
      ensures fpsCounter == old(fpsCounter) && avgFps == old(avgFps) && frameCounter == old(frameCounter)
      ensures totalFrameCounter == old(totalFrameCounter) && totalFpsCounter == old(totalFpsCounter)
      ensures lastFpsTimestamp == old(lastFpsTimestamp) && pendingChartJobs == old(pendingChartJobs)
      ensures windowFps == old(windowFps)
    {
      updatedUiFramesCounter := updatedUiFramesCounter + 1;
    }

    /** `startModelInferenceTimeMeasurement`. */
    method StartModelInferenceTimeMeasurement(now: int)
      requires Valid()
      modifies timer
      ensures Valid()
      ensures timer.hasStarted && timer.startTime == now
      ensures timer.durations == old(timer.durations)
    {
      timer.StartMeasurement(now);
    }

    /** `stopModelInferenceTimeMeasurement`: publishes the measured time, or 0 when no measurement was pending. */
    method StopModelInferenceTimeMeasurement(now: int)
      requires Valid()
      modifies this, timer
      ensures Valid()
      ensures inferenceTime == (if old(timer.hasStarted) then now - old(timer.startTime) else 0)
      ensures timer.durations == (if old(timer.hasStarted) then old(timer.durations) + [inferenceTime] else old(timer.durations))
      ensures !timer.hasStarted
      ensures modelStatsState == old(modelStatsState) && recordState == old(recordState)
      ensures avgInferenceTime == old(avgInferenceTime) && totalTime == old(totalTime)
      ensures fpsCounter == old(fpsCounter) && avgFps == old(avgFps) && frameCounter == old(frameCounter)
      ensures totalFrameCounter == old(totalFrameCounter) && totalFpsCounter == old(totalFpsCounter)
      ensures lastFpsTimestamp == old(lastFpsTimestamp) && updatedUiFramesCounter == old(updatedUiFramesCounter)
      ensures pendingChartJobs == old(pendingChartJobs) && windowFps == old(windowFps)
    {
      var measured := timer.StopMeasurement(now);
      inferenceTime := measured;
    }

    /**
      `stopFpsCounter`: zeroes the fps and UI counters, the running totals and
      the three fps fields of the state. The `avgFps` LiveData keeps its value.
     */
    method StopFpsCounter()
      requires Valid()
      modifies this
      ensures Valid()
      ensures fpsCounter == 0 && totalFrameCounter == 0 && totalFpsCounter == 0 && updatedUiFramesCounter == 0
      ensures windowFps == []
      ensures modelStatsState == old(modelStatsState).(fps := 0, uiRefreshRate := 0, avgFps := 0)
      ensures avgFps == old(avgFps) && frameCounter == old(frameCounter) && lastFpsTimestamp == old(lastFpsTimestamp)
      ensures inferenceTime == old(inferenceTime) && avgInferenceTime == old(avgInferenceTime) && totalTime == old(totalTime)
      ensures recordState == old(recordState) && pendingChartJobs == old(pendingChartJobs)
    {
      fpsCounter := 0;
      totalFrameCounter := 0;
      totalFpsCounter := 0;
      windowFps := [];
      updatedUiFramesCounter := 0;
      modelStatsState := modelStatsState.(fps := 0, uiRefreshRate := 0, avgFps := 0);
    }

    /** `reset`: `stopFpsCounter`, a timer reset, and every inference statistic and state field zeroed. */
    method Reset()
      requires Valid()
      modifies this, timer
      ensures Valid()
      ensures fpsCounter == 0 && totalFrameCounter == 0 && totalFpsCounter == 0 && updatedUiFramesCounter == 0
      ensures inferenceTime == 0 && avgInferenceTime == 0 && totalTime == 0
      ensures windowFps == [] && timer.durations == [] && timer.startTime == 0 && timer.endTime == 0
      ensures timer.hasStarted == old(timer.hasStarted)
      ensures modelStatsState == old(modelStatsState).(fps := 0, uiRefreshRate := 0, avgFps := 0,
                                                        modelInferenceTime := 0, avgModelInferenceTime := 0, totalTime := 0)
      ensures avgFps == old(avgFps) && frameCounter == old(frameCounter) && lastFpsTimestamp == old(lastFpsTimestamp)
      ensures recordState == old(recordState) && pendingChartJobs == old(pendingChartJobs)
    {
      StopFpsCounter();
      timer.Reset();
      inferenceTime := 0;
      avgInferenceTime := 0;
      totalTime := 0;
      modelStatsState := modelStatsState.(fps := 0, uiRefreshRate := 0, avgFps := 0,
                                          modelInferenceTime := 0, avgModelInferenceTime := 0, totalTime := 0);
    }

    /**
      One iteration of the `startUpdateStatsJob` loop: the state takes the
      published statistics; then the fps and UI counters are zeroed and the
      timer's average and total are published; while RECORDING a snapshot of
      the second's fps and the last inference time is added to the record.
     */
    method Tick(now: int)
      requires Valid()
      modifies this
      ensures Valid()
      ensures modelStatsState == old(modelStatsState).(
        avgFps := old(avgFps), uiRefreshRate := old(updatedUiFramesCounter), fps := old(fpsCounter),
        modelInferenceTime := old(inferenceTime), avgModelInferenceTime := old(avgInferenceTime),
        totalTime := old(totalTime))
      ensures fpsCounter == 0 && updatedUiFramesCounter == 0
      ensures avgInferenceTime == timer.AvgInferenceTime() && totalTime == timer.TotalTime()
      ensures old(recordState.recordingStatus) == Recording ==>
        && recordState == WithSnapshot(old(recordState), ModelStatsSnapshot(old(fpsCounter), old(inferenceTime)), now)
        && pendingChartJobs == old(pendingChartJobs)
             + (if |old(recordState.snapshotsRecord)| >= old(recordState.maxSnapshots) && LaunchesChart(old(recordState))
                then 1 else 0)
      ensures old(recordState.recordingStatus) != Recording ==>
        recordState == old(recordState) && pendingChartJobs == old(pendingChartJobs)
      ensures inferenceTime == old(inferenceTime) && avgFps == old(avgFps) && frameCounter == old(frameCounter)
      ensures totalFrameCounter == old(totalFrameCounter) && totalFpsCounter == old(totalFpsCounter)
      ensures lastFpsTimestamp == old(lastFpsTimestamp) && windowFps == old(windowFps)
    {
      var secondFps := fpsCounter;
      modelStatsState := modelStatsState.(
        avgFps := avgFps, uiRefreshRate := updatedUiFramesCounter, fps := fpsCounter,
        modelInferenceTime := inferenceTime, avgModelInferenceTime := avgInferenceTime,
        totalTime := totalTime);
      if recordState.recordingStatus == Recording {
        AddSnapshotToRecord(ModelStatsSnapshot(secondFps, inferenceTime), now);
      }
      avgInferenceTime := timer.AvgInferenceTime();
      totalTime := timer.TotalTime();
      fpsCounter := 0;
      updatedUiFramesCounter := 0;
    }

    /** `addSnapshotToRecord`. */
    method AddSnapshotToRecord(snapshot: ModelStatsSnapshot, now: int)
      requires Valid()
      modifies this
      ensures Valid()
      ensures recordState == WithSnapshot(old(recordState), snapshot, now)
      ensures pendingChartJobs == old(pendingChartJobs)
        + (if |old(recordState.snapshotsRecord)| >= old(recordState.maxSnapshots) && LaunchesChart(old(recordState))
           then 1 else 0)
      ensures modelStatsState == old(modelStatsState)
      ensures inferenceTime == old(inferenceTime) && avgInferenceTime == old(avgInferenceTime) && totalTime == old(totalTime)
      ensures fpsCounter == old(fpsCounter) && avgFps == old(avgFps) && frameCounter == old(frameCounter)
      ensures totalFrameCounter == old(totalFrameCounter) && totalFpsCounter == old(totalFpsCounter)
      ensures lastFpsTimestamp == old(lastFpsTimestamp) && updatedUiFramesCounter == old(updatedUiFramesCounter)
      ensures windowFps == old(windowFps)
    {
      if |recordState.snapshotsRecord| >= recordState.maxSnapshots {
        StopSnapshotsRecording(now);
      }
      if recordState.startTime == 0 {
        recordState := recordState.(startTime := now);
      }
      recordState := recordState.(snapshotsRecord := recordState.snapshotsRecord + [snapshot]);
    }

    /** `startSnapshotsRecording`. */
    method StartSnapshotsRecording(now: int)
      requires Valid()
      modifies this
      ensures Valid()
      ensures recordState == StartRecord(old(recordState), now)
      ensures pendingChartJobs == old(pendingChartJobs)
        + (if old(recordState.recordingStatus) == Recording && LaunchesChart(old(recordState)) then 1 else 0)
      ensures modelStatsState == old(modelStatsState)
      ensures inferenceTime == old(inferenceTime) && avgInferenceTime == old(avgInferenceTime) && totalTime == old(totalTime)
      ensures fpsCounter == old(fpsCounter) && avgFps == old(avgFps) && frameCounter == old(frameCounter)
      ensures totalFrameCounter == old(totalFrameCounter) && totalFpsCounter == old(totalFpsCounter)
      ensures lastFpsTimestamp == old(lastFpsTimestamp) && updatedUiFramesCounter == old(updatedUiFramesCounter)
      ensures windowFps == old(windowFps)
    {
      if recordState.recordingStatus == Processing {
        return;
      } else if recordState.recordingStatus == Recording {
        StopSnapshotsRecording(now);
      }
      ResetRecording();
      recordState := recordState.(recordingStatus := Recording, startTime := 0, endTime := 0, snapshotsRecord := []);
    }

    /** `resetRecording`. */
    method ResetRecording()
      requires Valid()
      modifies this
      ensures Valid()
      ensures recordState == ResetRecord(old(recordState))
      ensures pendingChartJobs == old(pendingChartJobs) && modelStatsState == old(modelStatsState)
      ensures inferenceTime == old(inferenceTime) && avgInferenceTime == old(avgInferenceTime) && totalTime == old(totalTime)
      ensures fpsCounter == old(fpsCounter) && avgFps == old(avgFps) && frameCounter == old(frameCounter)
      ensures totalFrameCounter == old(totalFrameCounter) && totalFpsCounter == old(totalFpsCounter)
      ensures lastFpsTimestamp == old(lastFpsTimestamp) && updatedUiFramesCounter == old(updatedUiFramesCounter)
      ensures windowFps == old(windowFps)
    {
      recordState := recordState.(recordingStatus := NotRecording, startTime := 0, endTime := 0, totalTime := 0,
                                  avgFps := 0, avgModelInferenceTime := 0, snapshotsRecord := []);
    }

    /** `stopSnapshotsRecording`; a stop that computes the averages launches one chart job. */
    method StopSnapshotsRecording(now: int)
      requires Valid()
      modifies this
      ensures Valid()
      ensures recordState == StopRecord(old(recordState), now)
      ensures pendingChartJobs == old(pendingChartJobs) + (if LaunchesChart(old(recordState)) then 1 else 0)
      ensures modelStatsState == old(modelStatsState)
      ensures inferenceTime == old(inferenceTime) && avgInferenceTime == old(avgInferenceTime) && totalTime == old(totalTime)
      ensures fpsCounter == old(fpsCounter) && avgFps == old(avgFps) && frameCounter == old(frameCounter)
      ensures totalFrameCounter == old(totalFrameCounter) && totalFpsCounter == old(totalFpsCounter)
      ensures lastFpsTimestamp == old(lastFpsTimestamp) && updatedUiFramesCounter == old(updatedUiFramesCounter)
      ensures windowFps == old(windowFps)
    {
      if recordState.recordingStatus == Processing {
        return;
      }
      if recordState.snapshotsRecord != [] {
        var snaps := recordState.snapshotsRecord;
        recordState := recordState.(endTime := now,
                                    avgFps := TruncDiv(Sum(FpsValues(snaps)), |snaps|),
                                    avgModelInferenceTime := TruncDiv(Sum(InferenceValues(snaps)), |snaps|),
                                    totalTime := now - recordState.startTime);
        recordState := recordState.(recordingStatus := Processing);
        pendingChartJobs := pendingChartJobs + 1;
      } else {
        recordState := recordState.(recordingStatus := NotRecording);
      }
    }

    /** The completion of a chart job launched by a stop: the record goes back to NOT_RECORDING, whatever it was. */
    method FinishProcessing()
      requires Valid() && pendingChartJobs > 0
      modifies this
      ensures Valid()
      ensures recordState == old(recordState).(recordingStatus := NotRecording)
      ensures pendingChartJobs == old(pendingChartJobs) - 1
      ensures modelStatsState == old(modelStatsState)
      ensures inferenceTime == old(inferenceTime) && avgInferenceTime == old(avgInferenceTime) && totalTime == old(totalTime)
      ensures fpsCounter == old(fpsCounter) && avgFps == old(avgFps) && frameCounter == old(frameCounter)
      ensures totalFrameCounter == old(totalFrameCounter) && totalFpsCounter == old(totalFpsCounter)
      ensures lastFpsTimestamp == old(lastFpsTimestamp) && updatedUiFramesCounter == old(updatedUiFramesCounter)
      ensures windowFps == old(windowFps)
    {
      recordState := recordState.(recordingStatus := NotRecording);
      pendingChartJobs := pendingChartJobs - 1;
    }
  }

  /**
    With a clock that never runs backwards every window fps lies in
    [0, 10000] (1 for a window that took no time), and so does the running
    average the view model publishes.
   */
  lemma AverageFpsInRange(vm: ModelStatsViewModel)
    requires vm.Valid() && vm.windowFps != []
    requires forall i :: 0 <= i < |vm.windowFps| ==> 0 <= vm.windowFps[i] <= 1000 * FrameCount
    ensures 0 <= vm.avgFps <= 1000 * FrameCount
  {
    MeanWithin(vm.windowFps, 0, 1000 * FrameCount);
  }

  /**
    The stats job: `Tick` once per second for as long as it runs. Started on a
    fresh recording, the record holds one snapshot per tick and keeps
    RECORDING for `maxSnapshots` ticks.
   */
  method RunStatsJob(vm: ModelStatsViewModel, times: seq<int>)
    requires vm.Valid() && vm.recordState.recordingStatus == Recording && vm.recordState.snapshotsRecord == []
    requires |times| <= MaxSnapshots
    modifies vm
    ensures vm.Valid()
    ensures vm.recordState.recordingStatus == Recording && |vm.recordState.snapshotsRecord| == |times|
  {
    var i := 0;
    while i < |times|
      invariant 0 <= i <= |times|
      invariant vm.Valid()
      invariant vm.recordState.recordingStatus == Recording && |vm.recordState.snapshotsRecord| == i
    {
      vm.Tick(times[i]);
      i := i + 1;
    }
  }

  /**
    A stop as the app runs it: the chart job launched by the stop runs on the
    main thread without suspending, so it completes before the stop returns.
    The record then holds the stop's end time, duration and averages, and is
    NOT_RECORDING again unless it was PROCESSING.
   */
  method StopAndDrawChart(vm: ModelStatsViewModel, now: int)
    requires vm.Valid()
    modifies vm
    ensures vm.Valid()
    ensures vm.recordState == (if LaunchesChart(old(vm.recordState))
                               then StopRecord(old(vm.recordState), now).(recordingStatus := NotRecording)
                               else StopRecord(old(vm.recordState), now))
    ensures old(vm.recordState.recordingStatus) != Processing ==> vm.recordState.recordingStatus == NotRecording
    ensures vm.pendingChartJobs == old(vm.pendingChartJobs)
  {
    var launches := LaunchesChart(vm.recordState);
    vm.StopSnapshotsRecording(now);
    if launches {
      vm.FinishProcessing();
    }
  }

  /**
    Restarting while RECORDING stops the running recording, which launches a
    chart job, and then starts a new one. If that job completes only after the
    restart, it sets NOT_RECORDING and so ends the new recording as well.
   */
  method RestartIsCutShortByChartJob(vm: ModelStatsViewModel, now: int)
    requires vm.Valid() && vm.recordState.recordingStatus == Recording && vm.recordState.snapshotsRecord != []
    modifies vm
    ensures vm.Valid()
    ensures vm.recordState.recordingStatus == NotRecording && vm.recordState.snapshotsRecord == []
  {
    vm.StartSnapshotsRecording(now);
    assert vm.recordState.recordingStatus == Recording && vm.pendingChartJobs > 0;
    vm.FinishProcessing();
  }

  /**
    After `stopFpsCounter` the `avgFps` LiveData still holds the last average,
    so the next tick publishes it again in the state.
   */
  method StaleAverageAfterStop(vm: ModelStatsViewModel, now: int)
    requires vm.Valid()
    modifies vm
    ensures vm.Valid()
    ensures vm.modelStatsState.avgFps == old(vm.avgFps) && vm.modelStatsState.fps == 0
  {
    vm.StopFpsCounter();
    vm.Tick(now);
  }
}
