/** The summary record of a session (`InfoMessage`) and the operation that fills it
    (`show_training_info`). Rendering the record as text is not part of this model. */
module Info {
  import opened Results
  import opened Trainings

  /** The fields of the summary, in the order the program stores them. */
  datatype InfoMessage = InfoMessage(
    trainingType: string,
    duration: real,
    distance: real,
    speed: real,
    calories: real)

  /** The name of the training's class, as the summary reports it. */
  function TrainingType(t: Training): (name: string)
    ensures name == "Running" <==> t.Running?
    ensures name == "SportsWalking" <==> t.SportsWalking?
    ensures name == "Swimming" <==> t.Swimming?
  {
    match t
    case Running(_, _, _) => "Running"
    case SportsWalking(_, _, _, _) => "SportsWalking"
    case Swimming(_, _, _, _, _) => "Swimming"
  }

  /** `show_training_info`: the class name, the duration as given, and the training's
      own distance, mean speed and calories. Computing them divides by the duration
      (and, for walking, by the height); a zero divisor fails the whole summary. */
  function ShowTrainingInfo(t: Training): (r: Result<InfoMessage>)
    ensures r.Ok? <==> CaloriesDefined(t)
    ensures r.Err? ==> r.error == DivisionByZero
    ensures r.Ok? ==> r.value.trainingType == TrainingType(t) && r.value.duration == t.duration
    ensures r.Ok? ==> r.value.distance == Distance(t) && r.value.speed == MeanSpeed(t)
                      && r.value.calories == Calories(t)
  {
    if !CaloriesDefined(t) then
      Err(DivisionByZero)
    else
      Ok(InfoMessage(TrainingType(t), t.duration, Distance(t), MeanSpeed(t), Calories(t)))
  }

  /** In a running or walking summary the speed is the distance over the duration;
      in a swimming summary it is the pool distance over the duration instead, and
      the reported distance plays no part in it. */
  lemma SummaryIsConsistent(t: Training)
    requires ShowTrainingInfo(t).Ok?
    ensures var m := ShowTrainingInfo(t).value;
            (!t.Swimming? ==> m.speed * m.duration == m.distance) &&
            (t.Swimming? ==> m.speed * m.duration * MetresPerKm == t.lengthPool * t.countPool)
  {
  }
}
