/** The formula hierarchy of the workout calculator: one training value per
    session and, per quantity, one function that pattern-matches on the
    kind of training (the base class and its overrides in the program).
    All quantities are exact reals; the program's floats are not modelled. */
module Trainings {

  /** Metres in a kilometre (`M_IN_KM`). */
  const MetresPerKm: real := 1000.0
  /** Minutes in an hour (`MIN_H`). */
  const MinutesPerHour: real := 60.0
  /** Metres covered by one step; shared by running and walking (`Training.LEN_STEP`). */
  const StepLengthOnFoot: real := 0.65
  /** Metres covered by one stroke (`Swimming.LEN_STEP`, an override). */
  const StrokeLength: real := 1.38

  /** Running calibration constants (`FIRST_NUM`, `SECOND_NUM`). */
  const RunSpeedFactor: real := 18.0
  const RunSpeedShift: real := 20.0

  /** Walking calibration constants (`TRITD_NUM`, `FIFTH_NUM`). */
  const WalkWeightFactor: real := 0.035
  const WalkSpeedFactor: real := 0.029

  /** Swimming calibration constants (`SIXTH_NUM`, and `FOURTH_NUM` as a factor;
      the same class constant 2 is the exponent of the walking formula). */
  const SwimSpeedShift: real := 1.1
  const SwimWeightFactor: real := 2.0

  /** One workout session: the raw inputs, stored once and never changed.
      `action` counts steps (running, walking) or strokes (swimming),
      `duration` is in hours, `weight` in kilograms, `height` in centimetres,
      `lengthPool` in metres and `countPool` is the number of pool lengths. */
  datatype Training =
    | Running(action: real, duration: real, weight: real)
    | SportsWalking(action: real, duration: real, weight: real, height: real)
    | Swimming(action: real, duration: real, weight: real, lengthPool: real, countPool: real)

  /** The length in metres of one action unit for this kind of training. */
  function StepLength(t: Training): (m: real)
    ensures m > 0.0
  {
    if t.Swimming? then StrokeLength else StepLengthOnFoot
  }

  /** Distance in kilometres: the action count times the step length, in metres, converted. */
  function Distance(t: Training): (km: real)
    ensures km * MetresPerKm == t.action * StepLength(t)
    ensures t.action >= 0.0 ==> km >= 0.0
  {
    t.action * StepLength(t) / MetresPerKm
  }

  /** Mean speed in km/h. Running and walking divide the distance by the duration;
      swimming overrides this with the pool lengths swum and ignores the action count.
      Every variant divides by the duration, which the program does not guard. */
  function MeanSpeed(t: Training): (kmh: real)
    requires t.duration != 0.0
    ensures !t.Swimming? ==> kmh * t.duration == Distance(t)
    ensures t.Swimming? ==> kmh * t.duration * MetresPerKm == t.lengthPool * t.countPool
  {
    match t
    case Swimming(_, duration, _, lengthPool, countPool) =>
      lengthPool * countPool / MetresPerKm / duration
    case _ => Distance(t) / t.duration
  }

  /** The divisions of the calorie formula are defined: all variants divide by the
      duration (through the mean speed), and walking also floor-divides by the height. */
  predicate CaloriesDefined(t: Training)
  {
    t.duration != 0.0 && (t.SportsWalking? ==> t.height != 0.0)
  }

  /** Running calories from the mean speed (`Running.get_spent_calories`). For a positive
      weight and duration they are non-negative exactly from 20/18 km/h upwards. */
  function RunningCalories(speed: real, duration: real, weight: real): (kcal: real)
    ensures weight > 0.0 && duration > 0.0 ==> (kcal >= 0.0 <==> speed >= 10.0 / 9.0)
  {
    (RunSpeedFactor * speed - RunSpeedShift) * weight / MetresPerKm * duration * MinutesPerHour
  }

  /** Walking calories from the mean speed (`SportsWalking.get_spent_calories`): the
      squared speed is floor-divided by the height, which must not be zero. Per hour and
      kilogram this is 2.1 kcal plus 1.74 kcal for each unit of the floored term. */
  function WalkingCalories(speed: real, duration: real, weight: real, height: real): (kcal: real)
    requires height != 0.0
    ensures kcal == 2.1 * (weight * duration)
                    + 1.74 * (weight * duration) * ((speed * speed / height).Floor as real)
  {
    (WalkWeightFactor * weight + ((speed * speed) / height).Floor as real * WalkSpeedFactor * weight)
      * duration * MinutesPerHour
  }

  /** Swimming calories from the mean speed (`Swimming.get_spent_calories`): 2.2 kcal per
      kilogram at rest plus 2 kcal per kilogram and km/h; for a positive weight they reach
      that resting value exactly when the speed is not negative. */
  function SwimmingCalories(speed: real, weight: real): (kcal: real)
    ensures kcal == 2.2 * weight + 2.0 * weight * speed
    ensures weight > 0.0 ==> (kcal >= 2.2 * weight <==> speed >= 0.0)
  {
    (speed + SwimSpeedShift) * SwimWeightFactor * weight
  }

  /** Calories in kilocalories: each variant applies its own formula to its own mean
      speed. For running the speed cancels against the duration, leaving 0.000702 kcal
      per step and kilogram less 1.2 kcal per hour and kilogram. */
  function Calories(t: Training): (kcal: real)
    requires CaloriesDefined(t)
    ensures t.Running? ==> kcal == 0.000702 * t.action * t.weight - 1.2 * t.duration * t.weight
  {
    match t
    case Running(_, duration, weight) => RunningCalories(MeanSpeed(t), duration, weight)
    case SportsWalking(_, duration, weight, height) => WalkingCalories(MeanSpeed(t), duration, weight, height)
    case Swimming(_, _, weight, _, _) => SwimmingCalories(MeanSpeed(t), weight)
  }

  /** Running and walking share the step length, hence the same distance and speed
      for the same steps and duration. */
  lemma WalkingSharesRunningStride(action: real, duration: real, weight: real, height: real)
    requires duration != 0.0
    ensures Distance(SportsWalking(action, duration, weight, height)) == Distance(Running(action, duration, weight))
    ensures MeanSpeed(SportsWalking(action, duration, weight, height)) == MeanSpeed(Running(action, duration, weight))
  {
  }

  /** The floored speed term of the walking formula is zero exactly when the squared
      speed is below the (positive) height. */
  lemma WalkingFloorZero(speed: real, height: real)
    requires height > 0.0
    ensures (speed * speed / height).Floor == 0 <==> speed * speed < height
    ensures (speed * speed / height).Floor >= 0
  {
    var q := speed * speed / height;
    assert q * height == speed * speed;
    if speed * speed < height {
      assert q < 1.0;
      assert q >= 0.0;
    } else {
      assert q >= 1.0;
    }
  }

  /** For a positive height, weight and duration, walking burns exactly the weight term
      (2.1 kcal per hour and kilogram) while the squared speed is below the height, and at
      least one floor step (1.74 kcal per hour and kilogram) more once it is not. */
  lemma WalkingCaloriesBaseline(speed: real, duration: real, weight: real, height: real)
    requires height > 0.0 && duration > 0.0 && weight > 0.0
    ensures speed * speed < height ==> WalkingCalories(speed, duration, weight, height) == 2.1 * (weight * duration)
    ensures speed * speed >= height ==>
              WalkingCalories(speed, duration, weight, height) >= 2.1 * (weight * duration) + 1.74 * (weight * duration)
  {
    var f := (speed * speed / height).Floor;
    var wd := weight * duration;
    assert wd > 0.0;
    WalkingFloorZero(speed, height);
    if speed * speed >= height {
      assert f >= 1;
      assert 1.74 * wd * (f as real) >= 1.74 * wd;
    }
  }

  /** Swimming speed and calories do not depend on the stroke count, while its
      distance does (the override breaks distance = speed * duration). */
  lemma SwimmingIgnoresAction(action: real, action': real, duration: real, weight: real,
                              lengthPool: real, countPool: real)
    requires duration != 0.0
    ensures var t, u := Swimming(action, duration, weight, lengthPool, countPool),
                        Swimming(action', duration, weight, lengthPool, countPool);
            MeanSpeed(u) == MeanSpeed(t) && Calories(u) == Calories(t) &&
            (Distance(u) == Distance(t) <==> action' == action)
  {
  }

  /** For a positive weight and duration and a non-negative swum length, swimming
      burns at least 2.2 kcal per kilogram, with equality exactly when nothing was swum. */
  lemma SwimmingCaloriesLowerBound(t: Training)
    requires t.Swimming? && t.duration > 0.0 && t.weight > 0.0 && t.lengthPool * t.countPool >= 0.0
    ensures Calories(t) >= 2.2 * t.weight
    ensures Calories(t) == 2.2 * t.weight <==> t.lengthPool * t.countPool == 0.0
  {
  }
}
