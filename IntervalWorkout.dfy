/** A completed workout rebuilt as a sequence of intervals. The platform
    stores only the workout's start and end and the configuration it was
    recorded with; the intervals are recomputed from those every time. */
module Intervals {
  import opened Wrappers
  import opened HealthKit
  import opened Configuration

  /** `IntervalWorkoutInterval`: one active phase followed by one rest phase,
      with the statistics later fetched for it (absent until then). */
  datatype Interval = Interval(
    activeStartTime: real,
    restStartTime: real,
    duration: real,
    endTime: real,
    distanceStats: Option<Statistics>,
    hrStats: Option<Statistics>,
    caloriesStats: Option<Statistics>)
  {
    /** `distance`: the summed distance, absent when no statistics were
        fetched or they hold no sum. */
    function Distance(): (r: Option<Quantity>)
      ensures distanceStats.None? ==> r.None?
      ensures distanceStats.Some? ==> r == distanceStats.value.sumQuantity
    {
      match distanceStats
      case None => None
      case Some(s) => s.sumQuantity
    }

    /** `averageHeartRate`: the average heart rate, absent when no
        statistics were fetched or they hold no average. */
    function AverageHeartRate(): (r: Option<Quantity>)
      ensures hrStats.None? ==> r.None?
      ensures hrStats.Some? ==> r == hrStats.value.averageQuantity
    {
      match hrStats
      case None => None
      case Some(s) => s.averageQuantity
    }

    /** `calories`: the summed energy, absent when no statistics were
        fetched or they hold no sum. */
    function Calories(): (r: Option<Quantity>)
      ensures caloriesStats.None? ==> r.None?
      ensures caloriesStats.Some? ==> r == caloriesStats.value.sumQuantity
    {
      match caloriesStats
      case None => None
      case Some(s) => s.sumQuantity
    }
  }

  /** `IntervalWorkoutInterval.init`: the statistics start out unset. */
  function NewInterval(activeStartTime: real, restStartTime: real, duration: real, endTime: real): (i: Interval)
    ensures i.Distance().None? && i.AverageHeartRate().None? && i.Calories().None?
  {
    Interval(activeStartTime, restStartTime, duration, endTime, None, None, None)
  }

  /** The loop in `IntervalWorkout.init` ends only if the recording is empty
      or each interval moves time forward. */
  predicate Reconstructible(w: Workout, c: WorkoutConfiguration) {
    w.endDate <= w.startDate || c.IntervalDuration() > 0.0
  }

  /** The smallest integer not below `x`. */
  function Ceil(x: real): (n: int)
    ensures n as real - 1.0 < x <= n as real
  {
    -((-x).Floor)
  }

  /** How many intervals fit: enough to reach the end of the recording. */
  function IntervalCount(w: Workout, c: WorkoutConfiguration): nat
    requires Reconstructible(w, c)
  {
    if w.endDate <= w.startDate then 0
    else Ceil((w.endDate - w.startDate) / c.IntervalDuration())
  }

  /** The k-th interval: it starts k whole intervals after the workout. */
  function IntervalAt(w: Workout, c: WorkoutConfiguration, k: nat): Interval {
    var activeStart := w.startDate + k as real * c.IntervalDuration();
    NewInterval(activeStart, activeStart + c.activeTime, c.activeTime, activeStart + c.activeTime + c.restTime)
  }

  /** The intervals `IntervalWorkout.init` builds for a workout. */
  function Tiling(w: Workout, c: WorkoutConfiguration): (ints: seq<Interval>)
    requires Reconstructible(w, c)
  {
    seq(IntervalCount(w, c), k requires 0 <= k => IntervalAt(w, c, k))
  }

  /** `IntervalWorkout`: a workout, the configuration it was recorded with,
      and the intervals rebuilt from the two. */
  datatype IntervalWorkout = IntervalWorkout(
    workout: Workout,
    configuration: WorkoutConfiguration,
    intervals: seq<Interval>)
  {
    /** `distanceType`: cycling distance for a cycling workout, walking and
        running distance for anything else. */
    function DistanceType(): (t: QuantityType)
      ensures t == DistanceCycling <==> workout.workoutActivityType == CyclingActivity
      ensures t == DistanceWalkingRunning <==> workout.workoutActivityType != CyclingActivity
    {
      if workout.workoutActivityType == CyclingActivity then DistanceCycling else DistanceWalkingRunning
    }

    function StartDate(): (d: real)
      ensures d == workout.startDate
    {
      workout.startDate
    }

    function EndDate(): (d: real)
      ensures d == workout.endDate
    {
      workout.endDate
    }

    function Duration(): (d: real)
      ensures d == workout.endDate - workout.startDate
    {
      workout.Duration()
    }

    /** `calories`: the workout's total energy, 0 when it has none. */
    function Calories(): (r: Quantity)
      ensures workout.totalEnergyBurned.None? ==> r == 0.0
      ensures workout.totalEnergyBurned.Some? ==> r == workout.totalEnergyBurned.value
    {
      workout.totalEnergyBurned.GetOr(0.0)
    }

    /** `distance`: the workout's total distance, 0 when it has none. */
    function Distance(): (r: Quantity)
      ensures workout.totalDistance.None? ==> r == 0.0
      ensures workout.totalDistance.Some? ==> r == workout.totalDistance.value
    {
      workout.totalDistance.GetOr(0.0)
    }
  }

  /** `k` whole intervals after the start is still before the end exactly
      when `k` is below the interval count. */
  lemma StartBeforeEndIff(w: Workout, c: WorkoutConfiguration, k: nat)
    requires Reconstructible(w, c)
    requires c.IntervalDuration() > 0.0 || k == 0
    ensures w.startDate + k as real * c.IntervalDuration() < w.endDate <==> k < IntervalCount(w, c)
  {
    var p := c.IntervalDuration();
    if w.startDate < w.endDate {
      var d := w.endDate - w.startDate;
      var x := d / p;
      assert x * p == d;
      var n := Ceil(x);
      if k < n {
        assert k as real <= n as real - 1.0;
        assert k as real < x;
        assert k as real * p < x * p;
      } else {
        assert x <= k as real;
        assert x * p <= k as real * p;
      }
    }
  }

  /** `IntervalWorkout.init(withWorkout:configuration:)`: starting at the
      workout's start, append one interval and advance by one interval's
      length for as long as the start is before the workout's end. */
  method NewIntervalWorkout(w: Workout, c: WorkoutConfiguration) returns (iw: IntervalWorkout)
    requires Reconstructible(w, c)
    ensures iw.workout == w && iw.configuration == c
    ensures iw.intervals == Tiling(w, c)
  {
    var ints: seq<Interval> := [];
    var activeLength := c.activeTime;
    var restLength := c.restTime;
    var intervalStart := w.startDate;
    while intervalStart < w.endDate
      invariant |ints| <= IntervalCount(w, c)
      invariant intervalStart == w.startDate + |ints| as real * c.IntervalDuration()
      invariant forall k :: 0 <= k < |ints| ==> ints[k] == IntervalAt(w, c, k)
      decreases IntervalCount(w, c) - |ints|
    {
      StartBeforeEndIff(w, c, |ints|);
      var restStart := intervalStart + activeLength;
      var interval := NewInterval(intervalStart, restStart, activeLength, restStart + restLength);
      ints := ints + [interval];
      intervalStart := intervalStart + (activeLength + restLength);
    }
    StartBeforeEndIff(w, c, |ints|);
    iw := IntervalWorkout(w, c, ints);
  }

  /** Every interval is an active phase of the configured length followed by
      a rest phase of the configured length. */
  lemma IntervalShape(w: Workout, c: WorkoutConfiguration, k: nat)
    requires Reconstructible(w, c)
    requires k < |Tiling(w, c)|
    ensures var i := Tiling(w, c)[k];
      && i.restStartTime == i.activeStartTime + c.activeTime
      && i.endTime == i.restStartTime + c.restTime
      && i.duration == c.activeTime
      && i.endTime - i.activeStartTime == c.IntervalDuration()
  {
  }

  /** A non-empty recording's first interval starts when the workout does. */
  lemma FirstIntervalStartsWithWorkout(w: Workout, c: WorkoutConfiguration)
    requires Reconstructible(w, c)
    requires w.startDate < w.endDate
    ensures |Tiling(w, c)| > 0 && Tiling(w, c)[0].activeStartTime == w.startDate
  {
  }

  /** Each interval starts where the previous one ends: no gaps, no overlaps
      between neighbours. */
  lemma Contiguous(w: Workout, c: WorkoutConfiguration, k: nat)
    requires Reconstructible(w, c)
    requires 0 < k < |Tiling(w, c)|
    ensures Tiling(w, c)[k].activeStartTime == Tiling(w, c)[k - 1].endTime
  {
  }

  /** Every interval starts before the workout ends, and there are no
      intervals at all exactly when the recording is empty. */
  lemma StartsBeforeEnd(w: Workout, c: WorkoutConfiguration)
    requires Reconstructible(w, c)
    ensures forall k :: 0 <= k < |Tiling(w, c)| ==> Tiling(w, c)[k].activeStartTime < w.endDate
    ensures |Tiling(w, c)| == 0 <==> w.endDate <= w.startDate
  {
    forall k | 0 <= k < |Tiling(w, c)|
      ensures Tiling(w, c)[k].activeStartTime < w.endDate
    {
      StartBeforeEndIff(w, c, k);
    }
    if w.startDate < w.endDate {
      FirstIntervalStartsWithWorkout(w, c);
    }
  }

  /** The interval count is the ceiling of the recording's length over one
      interval's length: the fewest whole intervals that reach the end. */
  lemma CountIsFewestThatReachEnd(w: Workout, c: WorkoutConfiguration)
    requires c.IntervalDuration() > 0.0
    requires w.startDate < w.endDate
    ensures |Tiling(w, c)| == Ceil(w.Duration() / c.IntervalDuration())
    ensures w.startDate + |Tiling(w, c)| as real * c.IntervalDuration() >= w.endDate
    ensures w.startDate + (|Tiling(w, c)| - 1) as real * c.IntervalDuration() < w.endDate
  {
    var n := |Tiling(w, c)|;
    StartBeforeEndIff(w, c, n);
    StartBeforeEndIff(w, c, n - 1);
  }

  /** The interval's span, from its active start up to its end, holds `t`. */
  predicate Spans(i: Interval, t: real) {
    i.activeStartTime <= t < i.endTime
  }

  /** The intervals cover the whole recording: every instant of it lies in
      exactly one interval. */
  lemma EveryInstantInOneInterval(w: Workout, c: WorkoutConfiguration, t: real)
    requires Reconstructible(w, c)
    requires w.startDate <= t < w.endDate
    ensures exists k :: 0 <= k < |Tiling(w, c)| && Spans(Tiling(w, c)[k], t)
    ensures forall j, k ::
      (0 <= j < k < |Tiling(w, c)| && Spans(Tiling(w, c)[j], t)) ==> !Spans(Tiling(w, c)[k], t)
  {
    var p := c.IntervalDuration();
    var k := ((t - w.startDate) / p).Floor;
    WholeStepsBelow(t - w.startDate, p);
    StartBeforeEndIff(w, c, k);
    assert Tiling(w, c)[k] == IntervalAt(w, c, k);
    assert Spans(Tiling(w, c)[k], t);
    forall j, k' | 0 <= j < k' < |Tiling(w, c)| && Spans(Tiling(w, c)[j], t)
      ensures !Spans(Tiling(w, c)[k'], t)
    {
      LaterStartsAfterEnd(w, c, j, k');
    }
  }

  /** The whole number of steps of length `p` that fit in `d`. */
  lemma WholeStepsBelow(d: real, p: real)
    requires d >= 0.0 && p > 0.0
    ensures var k := (d / p).Floor;
      0 <= k && k as real * p <= d < k as real * p + p
  {
    var x := d / p;
    var k := x.Floor;
    assert x * p == d;
    assert k as real * p <= x * p;
    assert x * p < (k + 1) as real * p;
    assert (k + 1) as real * p == k as real * p + p;
    assert d < k as real * p + p;
  }

  /** An earlier interval ends no later than a later one starts. */
  lemma LaterStartsAfterEnd(w: Workout, c: WorkoutConfiguration, j: nat, k: nat)
    requires c.IntervalDuration() > 0.0
    requires j < k
    ensures IntervalAt(w, c, j).endTime <= IntervalAt(w, c, k).activeStartTime
  {
    var p := c.IntervalDuration();
    assert (j + 1) as real * p == j as real * p + p;
    assert (j + 1) as real * p <= k as real * p;
  }

  /** The last interval is not cut at the workout's end: it ends at or after
      the end, by less than one interval's length. */
  lemma LastIntervalOvershoots(w: Workout, c: WorkoutConfiguration)
    requires Reconstructible(w, c)
    requires w.startDate < w.endDate
    ensures var ints := Tiling(w, c);
      |ints| > 0 &&
      w.endDate <= ints[|ints| - 1].endTime < w.endDate + c.IntervalDuration()
  {
    CountIsFewestThatReachEnd(w, c);
    var n := |Tiling(w, c)|;
    assert n as real * c.IntervalDuration() == (n - 1) as real * c.IntervalDuration() + c.IntervalDuration();
  }

  /** A 100 s recording of 30 s active and 30 s rest gives two intervals, the
      second ending at 120 s, past the end of the recording. */
  lemma LastIntervalNotClamped()
    ensures var w := Workout(0.0, 100.0, None, None, None, OtherActivity);
      var c := WorkoutConfiguration(activeTime := 30.0, restTime := 30.0);
      |Tiling(w, c)| == 2 && Tiling(w, c)[1].endTime == 120.0 > w.endDate
  {
  }
}
