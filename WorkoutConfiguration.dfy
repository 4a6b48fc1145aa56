/** The configuration of an interval workout: what exercise it is, how long
    each active phase lasts and how long each rest phase lasts. It travels
    between the watch and the phone as the workout's metadata dictionary. */
module Configuration {
  import opened Wrappers
  import opened Exercise
  import opened HealthKit

  const ExerciseTypeKey: string := "com.raywenderlich.config.exerciseType"
  const ActiveTimeKey: string := "com.raywenderlich.config.activeTime"
  const RestTimeKey: string := "com.raywenderlich.config.restTime"

  const DefaultActiveTime: real := 120.0
  const DefaultRestTime: real := 30.0

  /** `WorkoutConfiguration(exerciseType:activeTime:restTime:)`; each argument
      left out takes the initialiser's default. */
  datatype WorkoutConfiguration = WorkoutConfiguration(
    exerciseType: ExerciseType := Other,
    activeTime: real := DefaultActiveTime,
    restTime: real := DefaultRestTime)
  {
    /** `intervalDuration()`: one active phase followed by one rest phase. */
    function IntervalDuration(): (d: real)
      ensures d == activeTime + restTime
    {
      activeTime + restTime
    }
  }

  /** Why building a configuration from a dictionary traps: the exercise-type
      entry is an integer that names no exercise type (the force unwrap). */
  datatype ConfigError = UnknownExerciseType(raw: int)

  /** Swift's integer conversion of a Double (toward zero). */
  function TruncateToInt(x: real): (n: int)
    ensures x >= 0.0 ==> n as real <= x < n as real + 1.0
    ensures x < 0.0 ==> n as real - 1.0 < x <= n as real
  {
    if x >= 0.0 then x.Floor else -((-x).Floor)
  }

  /** `value as? Int` on a bridged metadata value. */
  function AsInt(v: MetaValue): (r: Option<int>)
    ensures r.None? <==> v.OtherValue?
    ensures v.IntValue? ==> r == Some(v.i)
    ensures v.RealValue? ==> r == Some(TruncateToInt(v.x))
  {
    match v
    case IntValue(i) => Some(i)
    case RealValue(x) => Some(TruncateToInt(x))
    case OtherValue => None
  }

  /** `value as? NSTimeInterval` on a bridged metadata value. */
  function AsTimeInterval(v: MetaValue): (r: Option<real>)
    ensures r.None? <==> v.OtherValue?
    ensures v.RealValue? ==> r == Some(v.x)
    ensures v.IntValue? ==> r == Some(v.i as real)
  {
    match v
    case IntValue(i) => Some(i as real)
    case RealValue(x) => Some(x)
    case OtherValue => None
  }

  /** The integer under `key`, if there is one and it converts. */
  function IntEntry(raw: Metadata, key: string): Option<int> {
    if key in raw then AsInt(raw[key]) else None
  }

  /** The time interval under `key`, if there is one and it converts. */
  function TimeEntry(raw: Metadata, key: string): Option<real> {
    if key in raw then AsTimeInterval(raw[key]) else None
  }

  /** The exercise-type field of `init(withDictionary:)`: `Other` when the
      entry is missing or not an integer, a trap when it is an integer that
      names no case. */
  function ParseExerciseType(raw: Metadata): (r: Result<ExerciseType, ConfigError>)
    ensures IntEntry(raw, ExerciseTypeKey).None? ==> r == Success(Other)
    ensures r.Success? && IntEntry(raw, ExerciseTypeKey).Some? ==>
      RawValue(r.value) == IntEntry(raw, ExerciseTypeKey).value
    ensures r.Failure? <==>
      IntEntry(raw, ExerciseTypeKey).Some? && FromRaw(IntEntry(raw, ExerciseTypeKey).value).None?
    ensures r.Failure? ==> r.error == UnknownExerciseType(IntEntry(raw, ExerciseTypeKey).value)
  {
    match IntEntry(raw, ExerciseTypeKey)
    case None => Success(Other)
    case Some(n) =>
      match FromRaw(n)
      case Some(e) => Success(e)
      case None => Failure(UnknownExerciseType(n))
  }

  /** `init(withDictionary:)`: each of the three fields is read from its own
      key and falls back to its default on its own; only an unknown exercise
      type makes the construction fail. */
  function FromDictionary(raw: Metadata): (r: Result<WorkoutConfiguration, ConfigError>)
    ensures r.Failure? <==> ParseExerciseType(raw).Failure?
    ensures r.Success? ==> r.value.exerciseType == ParseExerciseType(raw).value
    ensures r.Success? ==> r.value.activeTime == TimeEntry(raw, ActiveTimeKey).GetOr(DefaultActiveTime)
    ensures r.Success? ==> r.value.restTime == TimeEntry(raw, RestTimeKey).GetOr(DefaultRestTime)
  {
    var exerciseType :- ParseExerciseType(raw);
    Success(WorkoutConfiguration(
      exerciseType,
      TimeEntry(raw, ActiveTimeKey).GetOr(DefaultActiveTime),
      TimeEntry(raw, RestTimeKey).GetOr(DefaultRestTime)))
  }

  /** `dictionaryRepresentation()`: the metadata the watch saves with a
      workout. */
  function DictionaryRepresentation(c: WorkoutConfiguration): (m: Metadata)
    ensures m.Keys == {ExerciseTypeKey, ActiveTimeKey, RestTimeKey}
    ensures AsInt(m[ExerciseTypeKey]) == Some(RawValue(c.exerciseType))
    ensures AsTimeInterval(m[ActiveTimeKey]) == Some(c.activeTime)
    ensures AsTimeInterval(m[RestTimeKey]) == Some(c.restTime)
  {
    map[ExerciseTypeKey := IntValue(RawValue(c.exerciseType)),
        ActiveTimeKey := RealValue(c.activeTime),
        RestTimeKey := RealValue(c.restTime)]
  }

  /** The default initialiser gives an "other" workout of 120 s active and
      30 s rest. */
  lemma DefaultConfiguration()
    ensures WorkoutConfiguration() == WorkoutConfiguration(Other, 120.0, 30.0)
    ensures WorkoutConfiguration().IntervalDuration() == 150.0
  {
  }

  /** Reading back the dictionary a configuration writes gives the same
      configuration. */
  lemma RoundTrip(c: WorkoutConfiguration)
    ensures FromDictionary(DictionaryRepresentation(c)) == Success(c)
  {
  }

  /** A dictionary with none of the three keys gives the default
      configuration. */
  lemma EmptyDictionaryGivesDefault(raw: Metadata)
    requires ExerciseTypeKey !in raw && ActiveTimeKey !in raw && RestTimeKey !in raw
    ensures FromDictionary(raw) == Success(WorkoutConfiguration())
  {
  }

  /** Changing what is stored under the active-time key changes nothing but
      the active time; a value of the wrong type there gives 120 s. */
  lemma ActiveTimeFallsBackAlone(raw: Metadata, v: MetaValue)
    ensures var r := FromDictionary(raw[ActiveTimeKey := v]);
      && (r.Failure? <==> FromDictionary(raw).Failure?)
      && (r.Success? ==> r.value.exerciseType == FromDictionary(raw).value.exerciseType)
      && (r.Success? ==> r.value.restTime == FromDictionary(raw).value.restTime)
      && (r.Success? && v.OtherValue? ==> r.value.activeTime == DefaultActiveTime)
  {
  }

  /** Changing what is stored under the rest-time key changes nothing but the
      rest time; a value of the wrong type there gives 30 s. */
  lemma RestTimeFallsBackAlone(raw: Metadata, v: MetaValue)
    ensures var r := FromDictionary(raw[RestTimeKey := v]);
      && (r.Failure? <==> FromDictionary(raw).Failure?)
      && (r.Success? ==> r.value.exerciseType == FromDictionary(raw).value.exerciseType)
      && (r.Success? ==> r.value.activeTime == FromDictionary(raw).value.activeTime)
      && (r.Success? && v.OtherValue? ==> r.value.restTime == DefaultRestTime)
  {
  }

  /** Removing the exercise-type entry gives `Other` and never traps, and
      leaves both times as they were. */
  lemma MissingExerciseTypeGivesOther(raw: Metadata)
    ensures var r := FromDictionary(raw - {ExerciseTypeKey});
      && r.Success?
      && r.value.exerciseType == Other
      && r.value.activeTime == TimeEntry(raw, ActiveTimeKey).GetOr(DefaultActiveTime)
      && r.value.restTime == TimeEntry(raw, RestTimeKey).GetOr(DefaultRestTime)
  {
  }

  /** An integer exercise type outside the enumeration makes the
      construction trap, whatever the other entries hold. */
  lemma UnknownExerciseTypeTraps(raw: Metadata, n: int)
    requires n < 0 || n >= |AllValues|
    ensures FromDictionary(raw[ExerciseTypeKey := IntValue(n)]) == Failure(UnknownExerciseType(n))
  {
  }
}
