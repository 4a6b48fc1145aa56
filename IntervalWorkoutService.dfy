/** Turning the workouts read from the health store into interval workouts,
    using the metadata the watch saved with each one. */
module Service {
  import opened Wrappers
  import opened HealthKit
  import opened Configuration
  import opened Exercise
  import opened Intervals

  /** A workout without metadata was not recorded by the watch app. */
  predicate HasMetadata(w: Workout) {
    w.metadata.Some? && |w.metadata.value| > 0
  }

  /** The configuration a workout is rebuilt with: one interval as long as
      the whole workout when it has no metadata, otherwise whatever its
      metadata says (which may trap). */
  function ConfigurationFor(w: Workout): Result<WorkoutConfiguration, ConfigError> {
    if !HasMetadata(w) then Success(WorkoutConfiguration(Other, w.Duration(), 0.0))
    else FromDictionary(w.metadata.value)
  }

  /** No workout before the i-th traps. */
  predicate NoTrapBefore(workouts: seq<Workout>, i: nat)
    requires i <= |workouts|
  {
    forall j :: 0 <= j < i ==> ConfigurationFor(workouts[j]).Success?
  }

  /** The interval workout built for `w` with its configuration. */
  function Converted(w: Workout, c: WorkoutConfiguration): IntervalWorkout
    requires Reconstructible(w, c)
  {
    IntervalWorkout(w, c, Tiling(w, c))
  }

  /** The conversion loop of `readIntervalWorkouts`: one interval workout per
      workout, appended in order, until a workout's metadata traps. Every
      workout the loop reaches and configures must let its interval loop end. */
  method ReadIntervalWorkouts(workouts: seq<Workout>) returns (r: Result<seq<IntervalWorkout>, ConfigError>)
    requires forall i :: 0 <= i < |workouts| && NoTrapBefore(workouts, i) && ConfigurationFor(workouts[i]).Success? ==>
      Reconstructible(workouts[i], ConfigurationFor(workouts[i]).value)
    ensures r.Success? <==> NoTrapBefore(workouts, |workouts|)
    ensures r.Success? ==> |r.value| == |workouts|
    ensures r.Success? ==> forall i :: 0 <= i < |workouts| ==>
      && ConfigurationFor(workouts[i]).Success?
      && Reconstructible(workouts[i], ConfigurationFor(workouts[i]).value)
      && r.value[i] == Converted(workouts[i], ConfigurationFor(workouts[i]).value)
    ensures r.Failure? ==> exists i ::
      0 <= i < |workouts| && NoTrapBefore(workouts, i) && ConfigurationFor(workouts[i]) == Failure(r.error)
  {
    var intervalWorkouts: seq<IntervalWorkout> := [];
    for i := 0 to |workouts|
      invariant |intervalWorkouts| == i
      invariant NoTrapBefore(workouts, i)
      invariant forall j :: 0 <= j < i ==>
        && Reconstructible(workouts[j], ConfigurationFor(workouts[j]).value)
        && intervalWorkouts[j] == Converted(workouts[j], ConfigurationFor(workouts[j]).value)
    {
      var workout := workouts[i];
      if !HasMetadata(workout) {
        var basicConfiguration := WorkoutConfiguration(Other, workout.Duration(), 0.0);
        var basicIntervalWorkout := NewIntervalWorkout(workout, basicConfiguration);
        intervalWorkouts := intervalWorkouts + [basicIntervalWorkout];
      } else {
        var parsed := FromDictionary(workout.metadata.value);
        if parsed.Failure? {
          return Failure(parsed.error);
        }
        var intervalWorkout := NewIntervalWorkout(workout, parsed.value);
        intervalWorkouts := intervalWorkouts + [intervalWorkout];
      }
    }
    r := Success(intervalWorkouts);
  }

  /** A workout without metadata is rebuilt as an "other" workout whose one
      active phase lasts the whole workout, with no rest. */
  lemma FallbackConfiguration(w: Workout)
    requires w.metadata.None? || w.metadata == Some(map[])
    ensures ConfigurationFor(w) == Success(WorkoutConfiguration(Other, w.Duration(), 0.0))
    ensures Reconstructible(w, ConfigurationFor(w).value)
  {
  }

  /** A workout with metadata is rebuilt with the configuration that
      metadata describes. */
  lemma MetadataConfiguration(w: Workout)
    requires w.metadata.Some? && w.metadata.value != map[]
    ensures ConfigurationFor(w) == FromDictionary(w.metadata.value)
  {
  }

  /** A workout without metadata that lasted any time at all becomes exactly
      one interval spanning the whole workout, whose rest starts as it ends. */
  lemma FallbackSingleInterval(w: Workout)
    requires !HasMetadata(w)
    requires w.Duration() > 0.0
    ensures var ints := Tiling(w, ConfigurationFor(w).value);
      && |ints| == 1
      && ints[0].activeStartTime == w.startDate
      && ints[0].restStartTime == w.endDate
      && ints[0].endTime == w.endDate
      && ints[0].duration == w.Duration()
  {
    var c := ConfigurationFor(w).value;
    assert (w.endDate - w.startDate) / c.IntervalDuration() == 1.0;
  }

  /** The phone rebuilds a workout the watch saved with a configuration's
      dictionary using that same configuration. */
  lemma SavedConfigurationRecovered(w: Workout, c: WorkoutConfiguration)
    requires w.metadata == Some(DictionaryRepresentation(c))
    ensures ConfigurationFor(w) == Success(c)
  {
  }
}
