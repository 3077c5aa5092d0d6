/**
 The three kinds of workout of the fitness tracker and the values derived
 from their sensor readings: distance (km), mean speed (km/h) and calories.

 Every parameter is an exact `real`: the tracker's floats are modelled
 without rounding, and its integer parameters (steps, pool laps) are the
 reals they denote. The floor division of the walking formula is `.Floor`.
 */
module Workouts {

  /** Metres in a kilometre (`M_IN_KM`). */
  const MInKm: real := 1000.0
  /** Length of one step of running or walking (`LEN_STEP` of the base kind). */
  const StepLength: real := 0.65
  /** Length of one swimming stroke (`LEN_STEP` overridden by swimming). */
  const StrokeLength: real := 1.38
  /** Minutes in an hour, used to turn a duration in hours into minutes. */
  const MinInHour: real := 60.0

  /** Running calorie coefficients: 18 per km/h of speed, minus 20. */
  const RunSpeedFactor: real := 18.0
  const RunSpeedShift: real := 20.0
  /** Walking calorie coefficients: 0.035 per kg, 0.029 per kg and speed unit. */
  const WalkWeightFactor: real := 0.035
  const WalkSpeedFactor: real := 0.029
  /** Swimming calorie coefficients: speed plus 1.1, times 2 per kg. */
  const SwimSpeedShift: real := 1.1
  const SwimWeightFactor: real := 2.0

  /**
   One workout, as built from a sensor package. `action` counts steps or
   strokes, `duration` is in hours, `weight` in kg, `height` in cm,
   `lengthPool` in metres and `countPool` counts laps of the pool.
   The fields are set once and never change.
   */
  datatype Training =
    | Running(action: real, duration: real, weight: real)
    | SportsWalking(action: real, duration: real, weight: real, height: real)
    | Swimming(action: real, duration: real, weight: real, lengthPool: real, countPool: real)

  /**
   The label a workout reports in its summary (`TRAINIG_TYPE`): each kind
   has its own, so the label tells the kind.
   */
  function TrainingType(t: Training): (r: string)
    ensures r == "Running" <==> t.Running?
    ensures r == "SportsWalking" <==> t.SportsWalking?
    ensures r == "Swimming" <==> t.Swimming?
  {
    match t
    case Running(_, _, _) => "Running"
    case SportsWalking(_, _, _, _) => "SportsWalking"
    case Swimming(_, _, _, _, _) => "Swimming"
  }

  /** The same workout with its action count replaced by `a`. */
  function WithAction(t: Training, a: real): Training
  {
    match t
    case Running(_, duration, weight) => Running(a, duration, weight)
    case SportsWalking(_, duration, weight, height) => SportsWalking(a, duration, weight, height)
    case Swimming(_, duration, weight, lengthPool, countPool) => Swimming(a, duration, weight, lengthPool, countPool)
  }

  /** Distance covered by one action: swimming overrides the base step length. */
  function LenStep(t: Training): real
  {
    if t.Swimming? then StrokeLength else StepLength
  }

  /**
   Distance in km: actions times the length of one action, over metres per
   km. It has the sign of the action count.
   */
  function Distance(t: Training): (r: real)
    ensures r >= 0.0 <==> t.action >= 0.0
    ensures r > 0.0 <==> t.action > 0.0
  {
    t.action * LenStep(t) / MInKm
  }

  /** Every getter divides by the duration; walking calories also divide by the height. */
  predicate CanComputeSpeed(t: Training)
  {
    t.duration != 0.0
  }

  predicate CanComputeCalories(t: Training)
  {
    CanComputeSpeed(t) && (t.SportsWalking? ==> t.height != 0.0)
  }

  /**
   Mean speed in km/h. Running and walking inherit the base formula
   (distance over duration); swimming overrides it with the pool distance.
   Speed times duration gives back the distance covered: the distance of
   the actions for running and walking, the pool length times the lap
   count, in km, for swimming.
   */
  function MeanSpeed(t: Training): (r: real)
    requires CanComputeSpeed(t)
    ensures !t.Swimming? ==> r * t.duration == Distance(t)
    ensures t.Swimming? ==> r * t.duration * MInKm == t.lengthPool * t.countPool
  {
    match t
    case Swimming(_, duration, _, lengthPool, countPool) =>
      lengthPool * countPool / MInKm / duration
    case _ =>
      Distance(t) / t.duration
  }

  /** Squared mean speed over height, the quotient inside the walking formula. */
  function WalkingSpeedRatio(t: Training): real
    requires t.SportsWalking? && CanComputeCalories(t)
  {
    MeanSpeed(t) * MeanSpeed(t) / t.height
  }

  /**
   The whole-number term `speed ** 2 // height` of the walking formula: the
   greatest whole number not above speed squared over height, never
   negative for a positive height.
   */
  function WalkingSpeedTerm(t: Training): (k: int)
    requires t.SportsWalking? && CanComputeCalories(t)
    ensures k as real <= WalkingSpeedRatio(t) < k as real + 1.0
    ensures t.height > 0.0 ==> k >= 0
  {
    WalkingSpeedRatio(t).Floor
  }

  /**
   Calories spent, by the formula of each kind. Gathering the coefficients:
   running spends 1.08 kcal per kg and km covered, minus 1.2 kcal per kg and
   hour; walking spends 2.1 kcal per kg and hour, plus 1.74 per kg and hour
   for each whole unit of the speed term; swimming spends 2.2 kcal per kg,
   plus 2 per kg and km/h of speed.
   */
  function SpentCalories(t: Training): (r: real)
    requires CanComputeCalories(t)
    ensures t.Running? ==> r == 1.08 * t.weight * Distance(t) - 1.2 * t.weight * t.duration
    ensures t.SportsWalking? ==>
      r == (2.1 + 1.74 * WalkingSpeedTerm(t) as real) * t.weight * t.duration
    ensures t.Swimming? ==> r == 2.2 * t.weight + 2.0 * MeanSpeed(t) * t.weight
  {
    match t
    case Running(_, duration, weight) =>
      (RunSpeedFactor * MeanSpeed(t) - RunSpeedShift) * weight / MInKm * (duration * MinInHour)
    case SportsWalking(_, duration, weight, _) =>
      (WalkWeightFactor * weight + WalkingSpeedTerm(t) as real * WalkSpeedFactor * weight)
        * (duration * MinInHour)
    case Swimming(_, _, weight, _, _) =>
      (MeanSpeed(t) + SwimSpeedShift) * SwimWeightFactor * weight
  }

  // ---------------------------------------------------------------------
  // Distance

  /** Distance per action in km: 0.00065 for running and walking, 0.00138 for swimming. */
  lemma DistancePerAction(t: Training)
    ensures !t.Swimming? ==> Distance(t) == 0.00065 * t.action
    ensures t.Swimming? ==> Distance(t) == 0.00138 * t.action
  {
  }

  /** Distance is linear in the action count: additive and homogeneous. */
  lemma DistanceLinear(t: Training, a: real, b: real, k: real)
    ensures Distance(WithAction(t, a + b)) == Distance(WithAction(t, a)) + Distance(WithAction(t, b))
    ensures Distance(WithAction(t, k * a)) == k * Distance(WithAction(t, a))
  {
  }

  // ---------------------------------------------------------------------
  // Mean speed

  /** Running and walking share the base distance and speed: the height plays no part. */
  lemma WalkingInheritsSpeed(action: real, duration: real, weight: real, height: real)
    requires duration != 0.0
    ensures Distance(SportsWalking(action, duration, weight, height)) == Distance(Running(action, duration, weight))
    ensures MeanSpeed(SportsWalking(action, duration, weight, height)) == MeanSpeed(Running(action, duration, weight))
    ensures MeanSpeed(Running(action, duration, weight)) * duration == Distance(Running(action, duration, weight))
  {
  }

  /**
   Swimming speed and calories are independent of the stroke count:
   replacing `action` leaves both unchanged, while the distance scales with it.
   */
  lemma SwimmingIgnoresAction(t: Training, a: real)
    requires t.Swimming? && CanComputeSpeed(t)
    ensures MeanSpeed(WithAction(t, a)) == MeanSpeed(t)
    ensures SpentCalories(WithAction(t, a)) == SpentCalories(t)
    ensures Distance(WithAction(t, a)) == 0.00138 * a
  {
  }

  // ---------------------------------------------------------------------
  // Running calories

  /**
   With positive weight and duration, running calories are non-negative
   exactly when the mean speed reaches 20/18 km/h, and positive exactly
   when it exceeds it.
   */
  lemma RunningCaloriesSign(t: Training)
    requires t.Running? && t.weight > 0.0 && t.duration > 0.0
    ensures SpentCalories(t) >= 0.0 <==> MeanSpeed(t) >= 20.0 / 18.0
    ensures SpentCalories(t) > 0.0 <==> MeanSpeed(t) > 20.0 / 18.0
  {
    var s, d, w := MeanSpeed(t), t.duration, t.weight;
    var k := w * d * 0.06;
    assert k > 0.0 by {
      assert w * d > 0.0;
    }
    var x := 18.0 * s - 20.0;
    assert SpentCalories(t) == x * k;
    ProductSign(x, k);
    assert x >= 0.0 <==> s >= 20.0 / 18.0;
    assert x > 0.0 <==> s > 20.0 / 18.0;
  }

  /** Multiplying by a positive factor keeps the sign. */
  lemma ProductSign(x: real, k: real)
    requires k > 0.0
    ensures x * k >= 0.0 <==> x >= 0.0
    ensures x * k > 0.0 <==> x > 0.0
  {
  }

  /**
   With positive weight, more steps over the same duration never lower the
   running calories: calories grow by 1.08 kcal per kg and km.
   */
  lemma RunningCaloriesMonotone(t: Training, a: real)
    requires t.Running? && CanComputeSpeed(t) && t.weight > 0.0 && t.action <= a
    ensures SpentCalories(t) <= SpentCalories(WithAction(t, a))
  {
  }

  // ---------------------------------------------------------------------
  // Walking calories

  /**
   When the squared speed is below a positive height, the speed term is 0
   and walking calories collapse to the weight term: 2.1 kcal per kg and hour.
   */
  lemma WalkingCaloriesSlow(t: Training)
    requires t.SportsWalking? && CanComputeSpeed(t) && t.height > 0.0
    requires MeanSpeed(t) * MeanSpeed(t) < t.height
    ensures WalkingSpeedTerm(t) == 0
    ensures SpentCalories(t) == 2.1 * t.weight * t.duration
  {
    var s, h := MeanSpeed(t), t.height;
    assert WalkingSpeedRatio(t) == s * s / h;
    assert s * s / h < 1.0 by {
      assert s * s / h * h == s * s;
      if s * s / h >= 1.0 {
        ProductSign(s * s / h - 1.0, h);
        assert false;
      }
    }
  }

  /**
   Walking calories are at least the weight term: with positive weight,
   duration and height the speed term only adds.
   */
  lemma WalkingCaloriesLowerBound(t: Training)
    requires t.SportsWalking? && CanComputeSpeed(t) && t.height > 0.0
    requires t.weight > 0.0 && t.duration > 0.0
    ensures SpentCalories(t) >= 2.1 * t.weight * t.duration
  {
  }

  // ---------------------------------------------------------------------
  // Swimming calories

  /** Swimming speed is non-negative when the pool distance is and the duration is positive. */
  lemma SwimmingSpeedNonNegative(t: Training)
    requires t.Swimming? && t.duration > 0.0
    requires t.lengthPool >= 0.0 && t.countPool >= 0.0
    ensures MeanSpeed(t) >= 0.0
  {
  }

  /** Swimming calories are positive for a positive weight and a non-negative speed. */
  lemma SwimmingCaloriesPositive(t: Training)
    requires t.Swimming? && CanComputeSpeed(t) && t.weight > 0.0 && MeanSpeed(t) >= 0.0
    ensures SpentCalories(t) > 0.0
    ensures SpentCalories(t) >= 2.2 * t.weight
  {
  }
}
