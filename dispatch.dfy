/** The dispatcher `read_package`: a table from three-letter workout codes to the
    kinds of training, and positional construction of the chosen kind from a
    parameter list. */
module Dispatch {
  import opened Results
  import opened Trainings

  /** The training classes the dispatch table can hold. */
  datatype Kind = RunningKind | WalkingKind | SwimmingKind

  /** The dispatch table of `read_package`: exactly the three codes, each naming a
      different kind, and each kind held under the code `Code` gives its trainings. */
  function WorkoutTypes(): (table: map<string, Kind>)
    ensures table.Keys == {"RUN", "WLK", "SWM"}
    ensures forall c, d | c in table && d in table :: table[c] == table[d] ==> c == d
    ensures forall t: Training :: Code(t) in table && table[Code(t)] == KindOf(t)
  {
    map["RUN" := RunningKind, "WLK" := WalkingKind, "SWM" := SwimmingKind]
  }

  /** The number of positional parameters each kind's constructor takes. */
  function ParameterCount(k: Kind): (n: nat)
  {
    match k
    case RunningKind => 3
    case WalkingKind => 4
    case SwimmingKind => 5
  }

  /** The kind a training was built as. */
  function KindOf(t: Training): (k: Kind)
  {
    match t
    case Running(_, _, _) => RunningKind
    case SportsWalking(_, _, _, _) => WalkingKind
    case Swimming(_, _, _, _, _) => SwimmingKind
  }

  /** The code under which the dispatch table holds a training's kind. */
  function Code(t: Training): (code: string)
  {
    match t
    case Running(_, _, _) => "RUN"
    case SportsWalking(_, _, _, _) => "WLK"
    case Swimming(_, _, _, _, _) => "SWM"
  }

  /** A training's inputs in its constructor's parameter order. */
  function Parameters(t: Training): (data: seq<real>)
    ensures |data| == ParameterCount(KindOf(t))
    ensures data[0] == t.action && data[1] == t.duration && data[2] == t.weight
  {
    match t
    case Running(action, duration, weight) => [action, duration, weight]
    case SportsWalking(action, duration, weight, height) => [action, duration, weight, height]
    case Swimming(action, duration, weight, lengthPool, countPool) =>
      [action, duration, weight, lengthPool, countPool]
  }

  /** Calling a kind's constructor with the list spread into positional arguments
      (`cls(*data)`): it succeeds exactly when the list has as many entries as the
      constructor has parameters, and then stores them in order. */
  function Construct(k: Kind, data: seq<real>): (r: Result<Training>)
    ensures r.Ok? <==> |data| == ParameterCount(k)
    ensures r.Err? ==> r.error == WrongParameterCount(ParameterCount(k), |data|)
    ensures r.Ok? ==> KindOf(r.value) == k && Parameters(r.value) == data
  {
    if |data| != ParameterCount(k) then
      Err(WrongParameterCount(ParameterCount(k), |data|))
    else
      match k
      case RunningKind => Ok(Running(data[0], data[1], data[2]))
      case WalkingKind => Ok(SportsWalking(data[0], data[1], data[2], data[3]))
      case SwimmingKind => Ok(Swimming(data[0], data[1], data[2], data[3], data[4]))
  }

  /** `read_package`: looks the code up in the table and fails with an unknown-type
      error when it is absent, whatever the parameters; otherwise builds the training
      from the parameters, failing when their number is wrong. A training it returns
      has exactly the given code and parameters. */
  function ReadPackage(workoutType: string, data: seq<real>): (r: Result<Training>)
    ensures workoutType !in {"RUN", "WLK", "SWM"} ==> r == Err(UnknownWorkoutType)
    ensures r.Ok? <==> workoutType in WorkoutTypes() && |data| == ParameterCount(WorkoutTypes()[workoutType])
    ensures workoutType in WorkoutTypes() && |data| != ParameterCount(WorkoutTypes()[workoutType]) ==>
              r == Err(WrongParameterCount(ParameterCount(WorkoutTypes()[workoutType]), |data|))
    ensures r.Ok? ==> Code(r.value) == workoutType && Parameters(r.value) == data
  {
    var table := WorkoutTypes();
    if workoutType in table then
      Construct(table[workoutType], data)
    else
      Err(UnknownWorkoutType)
  }

  /** Reading back a training's own code and parameter list rebuilds that training;
      with the postcondition of `ReadPackage`, a package is accepted exactly when it
      is the code and parameter list of some training. */
  lemma ReadPackageRoundTrip(t: Training)
    ensures ReadPackage(Code(t), Parameters(t)) == Ok(t)
  {
  }

  /** Two trainings of the same kind with the same parameter list are the same training. */
  lemma ParametersInjective(t: Training, u: Training)
    requires KindOf(t) == KindOf(u) && Parameters(t) == Parameters(u)
    ensures t == u
  {
  }
}
