/**
 The summary record of one workout: its label, its duration and the three
 derived values, assembled from a `Training`.
 */
module Info {
  import opened Workouts
  import opened Packages

  /** The summary record (`InfoMessage`); its text rendering is not modelled. */
  datatype InfoMessage = InfoMessage(
    trainingType: string,
    duration: real,
    distance: real,
    speed: real,
    calories: real)

  /**
   Build the summary from the workout's label and getters. The record
   carries the input duration and exactly the getters' values; its label
   names the kind; for running and walking its speed times its duration is
   its distance, for swimming the pool distance in km.
   */
  function ShowTrainingInfo(t: Training): (r: InfoMessage)
    requires CanComputeCalories(t)
    ensures r.duration == t.duration
    ensures r.distance == Distance(t) && r.speed == MeanSpeed(t) && r.calories == SpentCalories(t)
    ensures r.trainingType == "Running" <==> t.Running?
    ensures r.trainingType == "SportsWalking" <==> t.SportsWalking?
    ensures r.trainingType == "Swimming" <==> t.Swimming?
    ensures !t.Swimming? ==> r.speed * r.duration == r.distance
    ensures t.Swimming? ==> r.speed * r.duration * MInKm == t.lengthPool * t.countPool
  {
    InfoMessage(TrainingType(t), t.duration, Distance(t), MeanSpeed(t), SpentCalories(t))
  }

  /** The summary's label identifies the kind: two workouts share it exactly when they are of one kind. */
  lemma TrainingTypeIdentifiesKind(t: Training, u: Training)
    requires CanComputeCalories(t) && CanComputeCalories(u)
    ensures ShowTrainingInfo(t).trainingType == ShowTrainingInfo(u).trainingType <==> WorkoutType(t) == WorkoutType(u)
  {
  }

  /** The driver's three packages, read and summarised in exact arithmetic. */
  lemma DriverPackages()
    ensures ReadPackage("SWM", [720.0, 1.0, 80.0, 25.0, 40.0]) == Success(Swimming(720.0, 1.0, 80.0, 25.0, 40.0))
    ensures ShowTrainingInfo(Swimming(720.0, 1.0, 80.0, 25.0, 40.0)) == InfoMessage("Swimming", 1.0, 0.9936, 1.0, 336.0)
    ensures ReadPackage("RUN", [15000.0, 1.0, 75.0]) == Success(Running(15000.0, 1.0, 75.0))
    ensures ShowTrainingInfo(Running(15000.0, 1.0, 75.0)) == InfoMessage("Running", 1.0, 9.75, 9.75, 699.75)
    ensures ReadPackage("WLK", [9000.0, 1.0, 75.0, 180.0]) == Success(SportsWalking(9000.0, 1.0, 75.0, 180.0))
    ensures ShowTrainingInfo(SportsWalking(9000.0, 1.0, 75.0, 180.0)) == InfoMessage("SportsWalking", 1.0, 5.85, 5.85, 157.5)
  {
  }
}
