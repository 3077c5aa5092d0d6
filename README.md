# Workout statistics calculator — Dafny model

This project models `homework.py`, a fitness-tracker exercise that turns raw
sensor packages into workout summaries. A package is a three-letter code
(`SWM`, `RUN`, `WLK`) with a list of positional numbers. `read_package` looks
the code up and builds one of three workout kinds: `Running`,
`SportsWalking` or `Swimming`. Each kind derives three values from the fields
it was built with:

- the distance in km;
- the mean speed in km/h;
- the calories spent, by a formula specific to that kind.

`show_training_info` gathers the kind's label, the duration and these three
values into an `InfoMessage` record.

The model is purely functional, as the source is. Fields are set once by a
constructor and only read afterwards.

- `Workouts` (`workouts.dfy`): the `Training` datatype, one constructor per
  kind, and the getters `Distance`, `MeanSpeed` and `SpentCalories`. It also
  holds the lemmas about their formulas.
- `Packages` (`packages.dfy`): the code table, `ReadPackage` with its two
  failure modes, and the inverse encoding `WorkoutType`/`Params` used to state
  a round trip.
- `Info` (`info.dfy`): the `InfoMessage` record, `ShowTrainingInfo`, and the
  driver's three packages used as concrete vectors.

Numbers are exact `real`s. The source's `float` arithmetic is modelled
without rounding. Its integer parameters (steps, strokes, pool laps) are the
reals they denote: `read_package` passes whatever numbers it is given, and
nothing in the core uses integer-only operations. Python's floor division
`speed ** 2 // height` is the floor of the real quotient (`.Floor`), so that
term is a whole number by construction.

Two facts about the source that the model relies on:

- The driver's running package (15000 steps, 1 h, 75 kg) gives exactly
  699.75 kcal by the formula at homework.py:73-80; `Info.DriverPackages`
  proves it.
- The base `get_spent_calories` (homework.py:52-54) is a bare `pass` and
  returns `None`. `read_package` never builds the base kind, so it is not
  modelled.

## Model

| member | source | states |
|---|---|---|
| `Workouts.TrainingType` | homework.py:71-113 | the label is "Running", "SportsWalking" or "Swimming" exactly for that kind (`TRAINIG_TYPE` at lines 71, 86 and 113) |
| `Workouts.DistancePerAction` | homework.py:41-44 | distance is 0.00065 km per action for running and walking (step 0.65 m) and 0.00138 km per stroke for swimming (1.38 m), over 1000 m per km |
| `Workouts.Distance` | homework.py:41-44 | distance is non-negative exactly when the action count is, and positive exactly when it is |
| `Workouts.DistanceLinear` | homework.py:41-44 | distance is additive and homogeneous in the action count, for every kind |
| `Workouts.MeanSpeed` | homework.py:46-50 | mean speed times duration gives back the distance for running and walking; for swimming (override at homework.py:134-138) it gives the pool length times the lap count, in km |
| `Workouts.WalkingInheritsSpeed` | homework.py:83-95 | walking inherits distance and speed from the base kind unchanged: they equal running's for the same action, duration and weight, whatever the height |
| `Workouts.SwimmingIgnoresAction` | homework.py:126-138 | changing the stroke count leaves swimming speed and calories unchanged, while distance follows the new count |
| `Workouts.SwimmingSpeedNonNegative` | homework.py:134-138 | swimming speed is non-negative for a positive duration and non-negative pool length and lap count |
| `Workouts.SpentCalories` | homework.py:73-132 | the three calorie overrides with their coefficients gathered: running gives 1.08 × weight × distance − 1.2 × weight × duration; walking gives (2.1 + 1.74 × the floor term) × weight × duration; swimming gives 2.2 × weight + 2 × speed × weight |
| `Workouts.RunningCaloriesSign` | homework.py:73-80 | with positive weight and duration, running calories are ≥ 0 exactly when speed ≥ 20/18 km/h, and > 0 exactly when speed > 20/18 |
| `Workouts.RunningCaloriesMonotone` | homework.py:73-80 | with positive weight, more steps in the same duration never lower running calories |
| `Workouts.WalkingSpeedTerm` | homework.py:103 | the walking term `speed ** 2 // height` is the greatest whole number not above speed²/height, and is ≥ 0 for a positive height |
| `Workouts.WalkingCaloriesSlow` | homework.py:97-106 | when speed² is below a positive height, the floor term is 0 and walking calories collapse to 0.035 × weight × duration × 60 |
| `Workouts.WalkingCaloriesLowerBound` | homework.py:97-106 | with positive weight, duration and height, walking calories are never below 0.035 × weight × duration × 60 |
| `Workouts.SwimmingCaloriesPositive` | homework.py:126-132 | with positive weight and non-negative speed, swimming calories are positive and at least 2.2 × weight |
| `Packages.ReadPackage` | homework.py:141-150 | reading succeeds exactly for SWM with 5, RUN with 3 and WLK with 4 parameters, and then builds the kind the code names with the package's parameters in constructor order; any other code fails with a lookup error carrying that code; a known code with another count fails with a constructor error carrying that kind's parameter count (5, 3 or 4) and the given count |
| `Packages.PackageRoundTrip` | homework.py:144-149 | every workout is read back unchanged from its own code and parameter list |
| `Info.ShowTrainingInfo` | homework.py:56-65 | the record carries the input duration and exactly the getters' distance, speed and calories; its label is "Running", "SportsWalking" or "Swimming" exactly for that kind; its speed times duration is its distance for running and walking and the pool distance for swimming |
| `Info.TrainingTypeIdentifiesKind` | homework.py:71-113 | two records share a label exactly when their workouts are read under the same code |
| `Info.DriverPackages` | homework.py:160-164 | the driver's three packages read to the expected kinds, and summarise to 0.9936 km, 1.0 km/h, 336 kcal (swimming), 9.75 km, 9.75 km/h, 699.75 kcal (running) and 5.85 km, 5.85 km/h, 157.5 kcal (walking), in exact arithmetic |

## Left out

- `InfoMessage.get_message` (homework.py:17-22): it renders the four numbers with `.3f`. That is float-to-decimal rounding, which has no faithful statement over exact reals.
- `main` and the `__main__` driver (homework.py:153-168): printing to standard output and a fixed list of packages. The three packages appear only as concrete vectors in `Info.DriverPackages`.
- IEEE-754 rounding of the `float` arithmetic: all values are exact reals, and no claim is made about bit-exact agreement with Python's results.
- The base `Training.get_spent_calories` (homework.py:52-54): it returns `None`, and `read_package` never builds the base kind. Calories are defined only for the three concrete kinds.
- Python's general `*data` unpacking and argument binding: reduced to a check of the parameter count, with positional binding in order. Keyword arguments and non-numeric values are not modelled.
- Division by zero: the source does not handle a zero duration, or a zero height for walking; Python raises `ZeroDivisionError`. The getters therefore require a non-zero divisor (`CanComputeSpeed`, `CanComputeCalories`) rather than modelling the exception.
- `Packages.ReadPackage`: the constructor error's payload is an abstraction. It carries the expected and the given parameter counts, without `self`. Python's own `TypeError` message counts `self` ("takes 4 positional arguments but 5 were given"), and for too few arguments it names the missing parameters instead of giving counts.
