# Groundhog interval workouts, modelled in Dafny

Groundhog is a watch-and-phone interval-timer app. The watch records a
workout. According to the comment on `readIntervalWorkouts`
(Shared/Workout/Services/IntervalWorkoutService.swift:31), the watch writes
the workout's configuration (exercise type, active time, rest time) into the
workout's metadata. The code that would write it is not part of this model:
the watch's `saveSession()` is empty, and nothing calls
`dictionaryRepresentation()`. The phone reads completed workouts back from the
health store and rebuilds each one as a sequence of intervals. Each interval
is an active phase followed by a rest phase. The intervals are tiled from
the workout's start for as long as an interval's start is still before the
workout's end.

This project models that core:

- `Configuration` (`WorkoutConfiguration.dfy`): the configuration value,
  its default initialiser, its dictionary form and the parse back from a
  dictionary. Each key falls back to its default on its own. An integer
  exercise type that names no case traps in the source; here it is a
  `Failure`.
- `Intervals` (`IntervalWorkout.dfy`): the interval-building loop of
  `IntervalWorkout.init`, as a method proved equal to the specification
  function `Tiling`. Lemmas cover the interval shape, contiguity, the count
  (the ceiling of duration over interval length), coverage of every instant
  of the recording by exactly one interval, and the overshoot of the last
  interval. The module also holds the read-only accessors of a workout and
  of an interval.
- `Service` (`IntervalWorkoutService.dfy`): the conversion loop of
  `readIntervalWorkouts`. It gives one interval workout per workout, in
  order. A workout without metadata is rebuilt with one active phase as long
  as the whole workout and no rest. When that duration is positive, this
  gives a single interval. A zero-length workout gets no interval at all.
- `QuantityArithmetic` (`QuantityArithmetic.dfy`): the `HKQuantity`
  extension that adds quantities and samples onto a total.
- `Exercise`, `HealthKit`, `Wrappers`: the exercise-type enumeration, the
  platform records (workout, statistics, sample), and `Option`/`Result`.

Times are exact `real` seconds on one time line. Quantities are exact
`real` values in one fixed unit per kind.

Assumptions where the source is not part of this model:

- The `ExerciseType` declaration is not part of this model. Its cases are
  those listed in `Groundhog WatchKit Extension/Workout/ExerciseType_Watch.swift`.
  Its raw values are taken to be the declaration order, 0 to 12.
- Metadata values are bridged `NSNumber`s, modelled as `IntValue`,
  `RealValue` or `OtherValue`. Swift 2 bridging lets `as? Int` accept any
  number, truncating toward zero. It lets `as? NSTimeInterval` accept any
  number too.

The code does not clamp the final interval to the recording's end, and
the model follows the code. `Intervals.LastIntervalOvershoots`
proves the last interval ends at or after the workout's end, by less than
one interval length. `Intervals.LastIntervalNotClamped` gives a 100 s
workout whose second interval ends at 120 s.

## Model

| member | source | states |
|---|---|---|
| `Exercise.FromRaw` | Shared/Workout/WorkoutConfiguration.swift:43 | `ExerciseType(rawValue:)` succeeds exactly for the 13 raw values, and the case it gives has that raw value |
| `Exercise.FromRawOfRawValue` | Shared/Workout/WorkoutConfiguration.swift:67 | the raw value written for a case parses back to the same case |
| `Configuration.WorkoutConfiguration.IntervalDuration` | Shared/Workout/WorkoutConfiguration.swift:61-63 | one interval lasts the active time plus the rest time |
| `Configuration.DefaultConfiguration` | Shared/Workout/WorkoutConfiguration.swift:35-39 | the default initialiser gives `Other`, 120 s active, 30 s rest |
| `Configuration.AsInt` | Shared/Workout/WorkoutConfiguration.swift:42 | `as? Int` fails only on non-numbers, keeps an integer unchanged and truncates a real toward zero |
| `Configuration.AsTimeInterval` | Shared/Workout/WorkoutConfiguration.swift:48 | `as? NSTimeInterval` fails only on non-numbers and keeps a number's value |
| `Configuration.ParseExerciseType` | Shared/Workout/WorkoutConfiguration.swift:42-46 | a missing or non-numeric type gives `Other`; an integer gives the case with that raw value; it traps exactly when the integer names no case |
| `Configuration.FromDictionary` | Shared/Workout/WorkoutConfiguration.swift:41-59 | traps exactly when the type entry traps; otherwise each field comes from its own key, or its default 120 s / 30 s when that key is missing or not a number |
| `Configuration.DictionaryRepresentation` | Shared/Workout/WorkoutConfiguration.swift:65-71 | exactly the three fixed keys, holding the raw exercise type, the active time and the rest time |
| `Configuration.RoundTrip` | Shared/Workout/WorkoutConfiguration.swift:41-71 | parsing a configuration's dictionary gives back that configuration |
| `Configuration.EmptyDictionaryGivesDefault` | Shared/Workout/WorkoutConfiguration.swift:41-59 | a dictionary with none of the keys gives the default configuration |
| `Configuration.ActiveTimeFallsBackAlone` | Shared/Workout/WorkoutConfiguration.swift:48-52 | rewriting the active-time entry changes only the active time; a non-number there gives 120 s |
| `Configuration.RestTimeFallsBackAlone` | Shared/Workout/WorkoutConfiguration.swift:54-58 | rewriting the rest-time entry changes only the rest time; a non-number there gives 30 s |
| `Configuration.MissingExerciseTypeGivesOther` | Shared/Workout/WorkoutConfiguration.swift:42-46 | without a type entry the parse never traps, gives `Other` and keeps both times |
| `Configuration.UnknownExerciseTypeTraps` | Shared/Workout/WorkoutConfiguration.swift:43 | an integer type outside the enumeration traps, whatever else the dictionary holds |
| `Intervals.Interval.Distance` | Shared/Workout/IntervalWorkout.swift:110-113 | nil without distance statistics, otherwise their sum (itself possibly nil) |
| `Intervals.Interval.AverageHeartRate` | Shared/Workout/IntervalWorkout.swift:115-118 | nil without heart-rate statistics, otherwise their average |
| `Intervals.Interval.Calories` | Shared/Workout/IntervalWorkout.swift:120-123 | nil without energy statistics, otherwise their sum |
| `Intervals.NewInterval` | Shared/Workout/IntervalWorkout.swift:99-108 | a new interval has all three statistics accessors nil |
| `Intervals.IntervalWorkout.DistanceType` | Shared/Workout/IntervalWorkout.swift:60-66 | cycling distance exactly for a cycling workout, walking/running distance exactly otherwise |
| `Intervals.IntervalWorkout.StartDate` | Shared/Workout/IntervalWorkout.swift:68-70 | the workout's start |
| `Intervals.IntervalWorkout.EndDate` | Shared/Workout/IntervalWorkout.swift:72-74 | the workout's end |
| `Intervals.IntervalWorkout.Duration` | Shared/Workout/IntervalWorkout.swift:76-78 | the span from start date to end date |
| `Intervals.IntervalWorkout.Calories` | Shared/Workout/IntervalWorkout.swift:80-84 | 0 without a total energy, otherwise the total |
| `Intervals.IntervalWorkout.Distance` | Shared/Workout/IntervalWorkout.swift:86-90 | 0 without a total distance, otherwise the total |
| `Intervals.StartBeforeEndIff` | Shared/Workout/IntervalWorkout.swift:44 | the loop condition holds after k steps exactly when k is below the interval count |
| `Intervals.NewIntervalWorkout` | Shared/Workout/IntervalWorkout.swift:33-56 | the loop ends when the recording is empty or an interval has positive length, and builds exactly `Tiling`, keeping the workout and configuration |
| `Intervals.IntervalShape` | Shared/Workout/IntervalWorkout.swift:45-50 | rest start = active start + active time, end = rest start + rest time, duration = active time |
| `Intervals.FirstIntervalStartsWithWorkout` | Shared/Workout/IntervalWorkout.swift:42-46 | a non-empty recording has a first interval, and it starts at the workout's start |
| `Intervals.Contiguous` | Shared/Workout/IntervalWorkout.swift:52 | each interval starts where the previous one ends |
| `Intervals.StartsBeforeEnd` | Shared/Workout/IntervalWorkout.swift:44 | every interval starts before the workout's end; there are none exactly when end <= start |
| `Intervals.CountIsFewestThatReachEnd` | Shared/Workout/IntervalWorkout.swift:44-53 | the count is ceil(duration / interval length): the fewest whole intervals reaching the end |
| `Intervals.EveryInstantInOneInterval` | Shared/Workout/IntervalWorkout.swift:44-53 | every instant of the recording lies in some interval, and in no two |
| `Intervals.LaterStartsAfterEnd` | Shared/Workout/IntervalWorkout.swift:45-52 | an earlier interval ends no later than any later one starts |
| `Intervals.LastIntervalOvershoots` | Shared/Workout/IntervalWorkout.swift:45-50 | the last interval ends at or after the workout's end, by less than one interval length (no clamping) |
| `Intervals.LastIntervalNotClamped` | Shared/Workout/IntervalWorkout.swift:44-53 | 100 s with 30 s + 30 s gives 2 intervals, the last ending at 120 s |
| `Service.ReadIntervalWorkouts` | Shared/Workout/Services/IntervalWorkoutService.swift:36-54 | succeeds exactly when no workout traps; then one result per workout, in input order, each wrapping that workout with its configuration and `Tiling`; otherwise the error of a workout before which none trapped |
| `Service.FallbackConfiguration` | Shared/Workout/Services/IntervalWorkoutService.swift:41-42 | nil or empty metadata gives `Other`, active = workout duration, rest = 0, and the interval loop ends |
| `Service.MetadataConfiguration` | Shared/Workout/Services/IntervalWorkoutService.swift:49-52 | non-empty metadata gives the configuration parsed from it |
| `Service.FallbackSingleInterval` | Shared/Workout/Services/IntervalWorkoutService.swift:41-44 | a metadata-less workout of positive duration becomes one interval from start to end, rest starting at the end |
| `Service.SavedConfigurationRecovered` | Shared/Workout/Services/IntervalWorkoutService.swift:48-52 | a workout saved with a configuration's dictionary is rebuilt with that configuration |
| `QuantityArithmetic.AddQuantity` | Shared/HealthKit/HKQuanity_AddQuantities.swift:28-35 | nil leaves `self` unchanged; otherwise the result exceeds `self` by the quantity |
| `QuantityArithmetic.AddQuantities` | Shared/HealthKit/HKQuanity_AddQuantities.swift:37-45 | the loop as written returns `AddedLast`: `self` for nil or empty, else `self` + last element |
| `QuantityArithmetic.AddedLastOfNoneOrEmpty` | Shared/HealthKit/HKQuanity_AddQuantities.swift:38-44 | nil and the empty list both give `self` |
| `QuantityArithmetic.AddedLastKeepsOnlyLast` | Shared/HealthKit/HKQuanity_AddQuantities.swift:40-44 | a non-empty list gives `self` + last element; replacing any element but the last by any value does not change the result |
| `QuantityArithmetic.AddedLastIsSumIff` | Shared/HealthKit/HKQuanity_AddQuantities.swift:40-44 | the as-written result equals the true sum exactly when all but the last element sum to 0 |
| `QuantityArithmetic.AddQuantitiesDropsEarlierElements` | Shared/HealthKit/HKQuanity_AddQuantities.swift:42 | adding [1, 2] onto 0 gives 2, while the sum is 3 |
| `QuantityArithmetic.AddQuantitiesSummed` | Shared/HealthKit/HKQuanity_AddQuantities.swift:40-44 | the corrected loop returns `self` plus the sum of all elements |
| `QuantityArithmetic.SampleQuantities` | Shared/HealthKit/HKQuanity_AddQuantities.swift:50-52 | the samples' quantities, same length and order |
| `QuantityArithmetic.AddSamples` | Shared/HealthKit/HKQuanity_AddQuantities.swift:47-53 | nil gives `self`; otherwise `addQuantities` over the samples' quantities in order |

## Findings

| source | as written | input that shows it | evidently intended | confidence | as-written member | corrected member |
|---|---|---|---|---|---|---|
| Shared/HealthKit/HKQuanity_AddQuantities.swift:42 | each pass sets the accumulator to `self.addQuantity(element)`, so only the last element is added | `self` = 0, quantities [1, 2]: returns 2 (`AddQuantitiesDropsEarlierElements`) | `self` plus the sum of all quantities (3), as the name `accumulatedQuantity` says | high; not executed | `QuantityArithmetic.AddQuantities` | `QuantityArithmetic.AddQuantitiesSummed` |

`QuantityArithmetic.AddSamples` calls the as-written `AddQuantities`,
because that is what the code returns. The watch's running totals therefore
add only the last sample of each batch. Its callers are not part of this
model.

## Left out

- `readWorkoutDetail` and `statisticsForInterval` are not modelled. They are asynchronous dispatch-group fan-outs over health-store statistics queries. An interval's statistics therefore stay unset in the model.
- `Intervals.Interval`: the source's interval is an object whose statistics fields are later set in place. The model treats it as a value, so aliasing between the interval list and those later updates is not captured.
- The health store itself (`HealthDataService`) is not modelled: authorization, the workout, sample and statistics queries, and the locale-dependent unit constants. `Service.ReadIntervalWorkouts` takes the fetched workouts as its input. It does not rely on the store's filter that returns only workouts longer than 0 s.
- `readIntervalWorkouts`'s completion callback is not modelled. The callback only passes the store's success flag and error through.
- Unit conversions (`HKUnit`, `doubleValueForUnit`) are not modelled. Every quantity is a number in one fixed unit, and the `unit` parameters of the quantity extension are dropped.
- Floating-point rounding of `NSTimeInterval` and `Double` is not modelled. Arithmetic is exact, so the drift from advancing `intervalStart` by repeated addition is not captured.
- `HealthKit.Workout.Duration` is end minus start. The platform's own `duration` may exclude paused time, which is not modelled. In the source, a paused workout without metadata has a duration shorter than its span, so lines 42-44 of IntervalWorkoutService.swift build several intervals for it. `Service.FallbackSingleInterval` therefore holds only for workouts that were never paused.
- A trap (the force unwrap at `WorkoutConfiguration.swift:43`) is a `Failure` result. A loop that would never end (an interval length of 0 or less on a non-empty recording) is excluded by a precondition.
- `WorkoutConfiguration`'s `activeTime` and `restTime` are mutable in the source, but nothing in this core changes them. They are fields of an immutable value here.
- User-interface code is not modelled: the phone's list and detail view controllers, the cell, the app delegate, and the watch interface controllers. So is the live watch session with its phase timer. These are bindings to platform UI and sensor callbacks.
