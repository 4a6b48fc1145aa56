/** The kinds of exercise a workout can be configured for. The enumeration's
    declaration is not part of this model; its cases are those the watch
    extension switches over, and its integer raw values are taken to be the
    declaration order, starting at 0. */
module Exercise {
  import opened Wrappers

  datatype ExerciseType =
    | Cycling
    | StationaryBike
    | Elliptical
    | FunctionalStrengthTraining
    | Rowing
    | RowingMachine
    | Running
    | Treadmill
    | StairClimbing
    | Swimming
    | Stretching
    | Walking
    | Other

  /** Every case, in declaration order (the index of a case is its raw value). */
  const AllValues: seq<ExerciseType> := [
    Cycling, StationaryBike, Elliptical, FunctionalStrengthTraining, Rowing,
    RowingMachine, Running, Treadmill, StairClimbing, Swimming, Stretching,
    Walking, Other
  ]

  /** `rawValue`: the integer stored in workout metadata. */
  function RawValue(e: ExerciseType): (n: int)
    ensures 0 <= n < |AllValues| && AllValues[n] == e
  {
    match e
    case Cycling => 0
    case StationaryBike => 1
    case Elliptical => 2
    case FunctionalStrengthTraining => 3
    case Rowing => 4
    case RowingMachine => 5
    case Running => 6
    case Treadmill => 7
    case StairClimbing => 8
    case Swimming => 9
    case Stretching => 10
    case Walking => 11
    case Other => 12
  }

  /** `ExerciseType(rawValue:)`: the failable initialiser, `None` for an
      integer that names no case. */
  function FromRaw(n: int): (r: Option<ExerciseType>)
    ensures r.Some? <==> 0 <= n < |AllValues|
    ensures r.Some? ==> RawValue(r.value) == n
  {
    if 0 <= n < |AllValues| then
      Some(AllValues[n])
    else
      None
  }

  /** Converting a case to its raw value and back gives the same case. */
  lemma FromRawOfRawValue(e: ExerciseType)
    ensures FromRaw(RawValue(e)) == Some(e)
  {
  }
}
