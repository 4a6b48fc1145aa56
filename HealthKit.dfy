/** The health-data platform's records as this model sees them. Quantities
    are plain numbers in one fixed unit per kind (kilocalories for energy,
    the locale's distance unit for distance, beats per minute for heart
    rate); dates are seconds on one time line. */
module HealthKit {
  import opened Wrappers

  /** A value stored in a workout's metadata dictionary. Numbers arrive as
      bridged NSNumber objects; anything else (strings, dates) is
      `OtherValue`. */
  datatype MetaValue = IntValue(i: int) | RealValue(x: real) | OtherValue

  type Metadata = map<string, MetaValue>

  /** An `HKQuantity`, as its value in the unit its kind is read in. */
  type Quantity = real

  /** The activity types the model distinguishes; the platform has many
      more, and only cycling is ever compared against. */
  datatype WorkoutActivityType = CyclingActivity | RunningActivity | WalkingActivity | OtherActivity

  /** The quantity types the core queries. */
  datatype QuantityType = DistanceCycling | DistanceWalkingRunning | ActiveEnergyBurned | HeartRate

  /** An `HKStatistics` result: a sum and an average, either of which may be
      absent. */
  datatype Statistics = Statistics(sumQuantity: Option<Quantity>, averageQuantity: Option<Quantity>)

  /** An `HKQuantitySample`; only its quantity matters here. */
  datatype QuantitySample = QuantitySample(quantity: Quantity)

  /** A completed `HKWorkout`. */
  datatype Workout = Workout(
    startDate: real,
    endDate: real,
    metadata: Option<Metadata>,
    totalEnergyBurned: Option<Quantity>,
    totalDistance: Option<Quantity>,
    workoutActivityType: WorkoutActivityType)
  {
    /** The recorded duration: the whole span from start to end. */
    function Duration(): (d: real)
      ensures d == endDate - startDate
    {
      endDate - startDate
    }
  }
}
