/**
  `InferenceTimer`: a start/stop stopwatch over the elapsed-realtime clock that
  accumulates the measured durations and their count. The clock reading is
  the `now` parameter of the operations that read it.
 */
module InferenceTimer {
  import opened Numeric

  /** `getAvgInferenceTime` over a total and a count: 0 when nothing was measured, else the truncated quotient. */
  function Average(totalTime: int, count: nat): (avg: int)
    ensures count == 0 ==> avg == 0
    ensures count > 0 && totalTime >= 0 ==> 0 <= avg && avg * count <= totalTime < avg * count + count
  {
    if count == 0 then 0
    else
      TruncDivBrackets(totalTime, count);
      TruncDiv(totalTime, count)
  }

  /** The durations a clock that never runs backwards can produce. */
  ghost predicate AllNonNegative(durations: seq<int>)
  {
    forall i :: 0 <= i < |durations| ==> 0 <= durations[i]
  }

  /**
    With non-negative durations the total is non-negative, and the average
    times the count never exceeds the total.
   */
  lemma AverageOfNonNegative(durations: seq<int>)
    requires AllNonNegative(durations)
    ensures 0 <= Sum(durations)
    ensures 0 <= Average(Sum(durations), |durations|)
    ensures Average(Sum(durations), |durations|) * |durations| <= Sum(durations)
  {
  }

  /** The average of durations that all lie in [lo, hi] lies in [lo, hi] too. */
  lemma AverageWithin(durations: seq<int>, lo: int, hi: int)
    requires durations != [] && AllWithin(durations, lo, hi)
    ensures lo <= Average(Sum(durations), |durations|) <= hi
  {
    MeanWithin(durations, lo, hi);
  }

  class Timer {
    var hasStarted: bool
    var startTime: int
    var endTime: int
    var totalTime: int
    var count: int
    /** The durations returned by the stops that measured something since the last reset. */
    ghost var durations: seq<int>

    /** `totalTime` is the sum of the recorded durations and `count` their number. */
    ghost predicate Valid()
      reads this
    {
      totalTime == Sum(durations) && count == |durations|
    }

    constructor ()
      ensures Valid()
      ensures !hasStarted && startTime == 0 && endTime == 0 && totalTime == 0 && count == 0
      ensures durations == []
    {
      hasStarted, startTime, endTime, totalTime, count := false, 0, 0, 0, 0;
      durations := [];
    }

    /** `startMeasurement`: remember the clock reading and arm the stop. */
    method StartMeasurement(now: int)
      requires Valid()
      modifies this
      ensures Valid()
      ensures hasStarted && startTime == now
      ensures endTime == old(endTime) && totalTime == old(totalTime) && count == old(count)
      ensures durations == old(durations)
    {
      startTime := now;
      hasStarted := true;
    }

    /**
      `stopMeasurement`: without a pending start it returns 0 and changes
      nothing; otherwise it returns the elapsed time, adds it to the total,
      counts it and disarms the stop.
     */
    method StopMeasurement(now: int) returns (inferenceTime: int)
      requires Valid()
      modifies this
      ensures Valid()
      ensures !old(hasStarted) ==> inferenceTime == 0
      ensures !old(hasStarted) ==> unchanged(this)
      ensures old(hasStarted) ==> && inferenceTime == now - old(startTime)
                                  && !hasStarted && endTime == now && startTime == old(startTime)
                                  && totalTime == old(totalTime) + inferenceTime && count == old(count) + 1
                                  && durations == old(durations) + [inferenceTime]
    {
      if hasStarted {
        endTime := now;
        inferenceTime := endTime - startTime;
        SumAppend(durations, inferenceTime);
        totalTime, count, durations := totalTime + inferenceTime, count + 1, durations + [inferenceTime];
        hasStarted := false;
      } else {
        inferenceTime := 0;
      }
    }

    /** `getAvgInferenceTime`: the truncated mean of the recorded durations, 0 before the first one. */
    function AvgInferenceTime(): (avg: int)
      requires Valid()
      reads this
      ensures durations == [] ==> avg == 0
      ensures durations != [] ==> avg == TruncDiv(Sum(durations), |durations|)
    {
      Average(totalTime, count)
    }

    /** `getTotalTime`: the sum of the recorded durations. */
    function TotalTime(): (t: int)
      requires Valid()
      reads this
      ensures t == Sum(durations)
    {
      totalTime
    }

    /** `reset`: clears the readings, the total and the count, but not a pending start. */
    method Reset()
      modifies this
      ensures Valid()
      ensures startTime == 0 && endTime == 0 && totalTime == 0 && count == 0 && durations == []
      ensures hasStarted == old(hasStarted)
    {
      startTime, endTime, totalTime, count := 0, 0, 0, 0;
      durations := [];
    }
  }

  /**
    With a clock that never runs backwards every recorded duration is
    non-negative; then the total is non-negative and the average times the
    count does not exceed it.
   */
  lemma MonotonicClockBounds(timer: Timer)
    requires timer.Valid() && AllNonNegative(timer.durations)
    ensures 0 <= timer.TotalTime()
    ensures 0 <= timer.AvgInferenceTime() && timer.AvgInferenceTime() * timer.count <= timer.TotalTime()
  {
    AverageOfNonNegative(timer.durations);
  }

  /** A second stop after a stop measures nothing: it returns 0 and the timer keeps its state. */
  method SecondStopReturnsZero(timer: Timer, first: int, second: int) returns (d: int)
    requires timer.Valid()
    modifies timer
    ensures d == 0
    ensures timer.Valid() && !timer.hasStarted
  {
    var _ := timer.StopMeasurement(first);
    d := timer.StopMeasurement(second);
  }

  /**
    Start and stop with a clock that does not run backwards: the duration is
    non-negative, so a timer whose durations were non-negative keeps them so,
    and its total and average stay non-negative.
   */
  method MeasureOnce(timer: Timer, start: int, stop: int) returns (d: int)
    requires timer.Valid() && AllNonNegative(timer.durations) && start <= stop
    modifies timer
    ensures d == stop - start && timer.durations == old(timer.durations) + [d]
    ensures timer.Valid() && AllNonNegative(timer.durations)
    ensures 0 <= timer.TotalTime() && 0 <= timer.AvgInferenceTime()
  {
    timer.StartMeasurement(start);
    d := timer.StopMeasurement(stop);
    MonotonicClockBounds(timer);
  }
}
