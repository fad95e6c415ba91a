/** The three packages the program's driver runs, each read and summarised. The
    driver's printing is not part of this model; these lemmas give the exact
    values its summaries carry (the program rounds them to three decimals). */
module Samples {
  import opened Results
  import opened Trainings
  import opened Dispatch
  import opened Info

  /** The swimming package: 40 lengths of a 25 m pool in one hour give 1 km/h and
      336 kcal, while the 720 strokes give a distance of 0.9936 km that the speed ignores. */
  lemma SwimmingSample()
    ensures ReadPackage("SWM", [720.0, 1.0, 80.0, 25.0, 40.0]) == Ok(Swimming(720.0, 1.0, 80.0, 25.0, 40.0))
    ensures ShowTrainingInfo(Swimming(720.0, 1.0, 80.0, 25.0, 40.0))
              == Ok(InfoMessage("Swimming", 1.0, 0.9936, 1.0, 336.0))
  {
  }

  /** The running package: 15000 steps in one hour give 9.75 km at 9.75 km/h and 699.75 kcal. */
  lemma RunningSample()
    ensures ReadPackage("RUN", [15000.0, 1.0, 75.0]) == Ok(Running(15000.0, 1.0, 75.0))
    ensures ShowTrainingInfo(Running(15000.0, 1.0, 75.0))
              == Ok(InfoMessage("Running", 1.0, 9.75, 9.75, 699.75))
  {
  }

  /** The walking package: 9000 steps in one hour give 5.85 km at 5.85 km/h; the squared
      speed 34.2225 floor-divided by the height 180 is 0, leaving 157.5 kcal. */
  lemma WalkingSample()
    ensures ReadPackage("WLK", [9000.0, 1.0, 75.0, 180.0]) == Ok(SportsWalking(9000.0, 1.0, 75.0, 180.0))
    ensures ShowTrainingInfo(SportsWalking(9000.0, 1.0, 75.0, 180.0))
              == Ok(InfoMessage("SportsWalking", 1.0, 5.85, 5.85, 157.5))
  {
  }

  /** Codes outside the table are refused and a wrong number of parameters is refused. */
  lemma RejectedSamples()
    ensures ReadPackage("XYZ", [1.0, 1.0, 1.0]) == Err(UnknownWorkoutType)
    ensures ReadPackage("run", [15000.0, 1.0, 75.0]) == Err(UnknownWorkoutType)
    ensures ReadPackage("RUN", [15000.0, 1.0]) == Err(WrongParameterCount(3, 2))
    ensures ReadPackage("SWM", [720.0, 1.0, 80.0, 25.0]) == Err(WrongParameterCount(5, 4))
  {
  }

  /** A session of zero duration is read without complaint but cannot be summarised. */
  lemma ZeroDurationSample()
    ensures ReadPackage("RUN", [15000.0, 0.0, 75.0]) == Ok(Running(15000.0, 0.0, 75.0))
    ensures ShowTrainingInfo(Running(15000.0, 0.0, 75.0)) == Err(DivisionByZero)
  {
  }
}
