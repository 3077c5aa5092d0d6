/**
 Reading a sensor package: a three-letter workout code and the positional
 parameters of that kind of workout, turned into a `Training`.
 */
module Packages {
  import opened Workouts

  /** The workout kinds a package can name. */
  datatype TrainingClass = SwimmingClass | RunningClass | SportsWalkingClass

  /** Why a package cannot be read: the lookup of the code or the constructor call failed. */
  datatype PackageError =
    | KeyError(code: string)
    | TypeError(expected: nat, given: nat)

  datatype Result<T> = Success(value: T) | Failure(error: PackageError)

  /** The table from workout codes to kinds. */
  const TrainDict: map<string, TrainingClass> :=
    map["SWM" := SwimmingClass, "RUN" := RunningClass, "WLK" := SportsWalkingClass]

  /** Number of positional parameters each kind's constructor takes. */
  function Arity(c: TrainingClass): nat
  {
    match c
    case SwimmingClass => 5
    case RunningClass => 3
    case SportsWalkingClass => 4
  }

  /** The constructor call with the parameters in their positional order. */
  function Construct(c: TrainingClass, data: seq<real>): Training
    requires |data| == Arity(c)
  {
    match c
    case SwimmingClass => Swimming(data[0], data[1], data[2], data[3], data[4])
    case RunningClass => Running(data[0], data[1], data[2])
    case SportsWalkingClass => SportsWalking(data[0], data[1], data[2], data[3])
  }

  /** The code under which a workout is read: the inverse of the table. */
  function WorkoutType(t: Training): string
  {
    match t
    case Swimming(_, _, _, _, _) => "SWM"
    case Running(_, _, _) => "RUN"
    case SportsWalking(_, _, _, _) => "WLK"
  }

  /** The package parameters of a workout, in constructor order. */
  function Params(t: Training): seq<real>
  {
    match t
    case Swimming(action, duration, weight, lengthPool, countPool) =>
      [action, duration, weight, lengthPool, countPool]
    case Running(action, duration, weight) =>
      [action, duration, weight]
    case SportsWalking(action, duration, weight, height) =>
      [action, duration, weight, height]
  }

  /**
   Look the code up in the table, then call that kind's constructor with
   the parameters. Reading succeeds exactly for the three codes with 5, 3
   and 4 parameters, and then yields a workout of the named kind holding
   the package's parameters in order. Any other code fails the lookup with
   an error naming it; a known code with another count fails the call with
   an error giving the expected and the given counts.
   */
  function ReadPackage(workoutType: string, data: seq<real>): (r: Result<Training>)
    ensures r.Success? <==>
      || (workoutType == "SWM" && |data| == 5)
      || (workoutType == "RUN" && |data| == 3)
      || (workoutType == "WLK" && |data| == 4)
    ensures r.Success? ==> WorkoutType(r.value) == workoutType && Params(r.value) == data
    ensures r == Failure(KeyError(workoutType)) <==> workoutType !in {"SWM", "RUN", "WLK"}
    ensures workoutType == "SWM" && |data| != 5 ==> r == Failure(TypeError(5, |data|))
    ensures workoutType == "RUN" && |data| != 3 ==> r == Failure(TypeError(3, |data|))
    ensures workoutType == "WLK" && |data| != 4 ==> r == Failure(TypeError(4, |data|))
  {
    if workoutType !in TrainDict then
      Failure(KeyError(workoutType))
    else
      var c := TrainDict[workoutType];
      if |data| != Arity(c) then Failure(TypeError(Arity(c), |data|))
      else Success(Construct(c, data))
  }

  /** Every workout is read back from its own code and parameters. */
  lemma PackageRoundTrip(t: Training)
    ensures ReadPackage(WorkoutType(t), Params(t)) == Success(t)
  {
  }
}
