# Workout calculator

A model of the workout statistics module `homework.py`. The program turns a few raw
inputs per session into distance (km), mean speed (km/h) and calories (kcal). The
inputs are a step or stroke count, a duration in hours, a weight in kilograms, and
the height or the pool data for some kinds. There are three kinds of training:
running, sports walking and swimming. A dispatcher, `read_package`, maps a
three-letter code (`RUN`, `WLK`, `SWM`) to the kind and builds it from a positional
parameter list. `show_training_info` packs the results into a summary record.

The modules are:

- `Results` (`results.dfy`): the failures the program raises, as values. An unknown
  code (`KeyError`), a wrong number of constructor arguments (`TypeError`) and a
  division by zero (`ZeroDivisionError`).
- `Trainings` (`training.dfy`): the training classes. They are one datatype with a
  constructor per class, plus one function per quantity that pattern-matches where
  a subclass overrides the base class. This covers the shared step length and the
  swimming override of the mean speed. It also holds the calibration constants and
  lemmas about each calorie formula.
- `Dispatch` (`dispatch.dfy`): the dispatch table, positional construction and
  `read_package`, with the round trip between a training and its package.
- `Info` (`info.dfy`): the summary record and `show_training_info`.
- `Samples` (`samples.dfy`): the three packages of the program's driver. Each one
  is read and summarised to exact values.

All quantities are exact `real`s. Python's `//` on floats is the floor of the exact
quotient (`.Floor`), and `** 2` is a product of the speed with itself.

For the running sample, (18 · 9.75 − 20) · 75 / 1000 · 1 · 60 = 699.75 kcal
(homework.py:66-68); see `Samples.RunningSample`.

## Model

| member | source | states |
|---|---|---|
| `Trainings.StepLength` | homework.py:26 | one action unit covers a positive length: 0.65 m on foot and 1.38 m swimming (the `LEN_STEP` override at line 91) |
| `Trainings.Distance` | homework.py:39-41 | the distance in km, times 1000, is the action count times the kind's step length; non-negative counts give non-negative distances |
| `Trainings.MeanSpeed` | homework.py:43-45 | defined only for a non-zero duration. For running and walking, speed times duration is the distance. For swimming (the override at lines 104-106), speed times duration times 1000 is pool length times pool count |
| `Trainings.CaloriesDefined` | homework.py:43-45 | the calorie formulas divide by the duration, through the mean speed, and walking also floor-divides by the height (line 85). `Info.ShowTrainingInfo` turns a zero divisor into a division-by-zero error |
| `Trainings.RunningCalories` | homework.py:66-68 | for a positive weight and duration, running calories are non-negative exactly when the mean speed is at least 10/9 km/h |
| `Trainings.WalkingCalories` | homework.py:83-86 | walking calories are 2.1 kcal per hour and kilogram, plus 1.74 kcal per hour and kilogram for each unit of the floor of speed² / height; the height must not be zero |
| `Trainings.SwimmingCalories` | homework.py:108-110 | swimming calories are 2.2 kcal per kilogram plus 2 kcal per kilogram and km/h; for a positive weight they are at least 2.2 kcal per kilogram exactly when the speed is not negative |
| `Trainings.Calories` | homework.py:63-68 | each kind applies its own override to its own mean speed (walking at lines 83-86, swimming at 108-110). For running the speed cancels against the duration: 0.000702 · steps · weight − 1.2 · duration · weight |
| `Trainings.WalkingSharesRunningStride` | homework.py:39-45 | walking inherits the base step length, so the same steps and duration give the same distance and speed as running |
| `Trainings.WalkingFloorZero` | homework.py:85 | for a positive height, the floored term is never negative, and it is zero exactly when speed² is below the height |
| `Trainings.WalkingCaloriesBaseline` | homework.py:83-86 | for a positive height, weight and duration, walking calories are exactly 2.1 · weight · duration while speed² is below the height, and at least 1.74 · weight · duration more once it is not |
| `Trainings.SwimmingIgnoresAction` | homework.py:104-110 | swimming speed and calories do not depend on the stroke count, while the distance does (two counts give equal distances exactly when they are equal) |
| `Trainings.SwimmingCaloriesLowerBound` | homework.py:108-110 | for a positive weight and duration and a non-negative pool distance, swimming burns at least 2.2 kcal per kg, with equality exactly when the pool distance is zero |
| `Dispatch.WorkoutTypes` | homework.py:116-119 | the table has exactly the keys `RUN`, `WLK`, `SWM`; they name three different kinds, and each kind is held under its own code |
| `Dispatch.Parameters` | homework.py:30-102 | a training's parameter list has its constructor's arity (3, 4 or 5) and starts with action, duration and weight in that order |
| `Dispatch.Construct` | homework.py:121 | spreading a list into a constructor succeeds exactly when its length is the arity. It then builds that kind with the list as its parameters; otherwise it fails with the expected and given counts |
| `Dispatch.ReadPackage` | homework.py:113-123 | any code other than `RUN`, `WLK`, `SWM` fails with the unknown-type error whatever the data. A known code with a list of the wrong length fails with the wrong-count error, carrying the expected and given counts. A result is returned exactly for a known code whose arity the list matches; it has that code and exactly that parameter list |
| `Dispatch.ReadPackageRoundTrip` | homework.py:116-121 | reading a training's own code and parameter list rebuilds that training (the inverse of the postcondition of `ReadPackage`) |
| `Dispatch.ParametersInjective` | homework.py:30-102 | constructors store their arguments unchanged, so kind and parameter list determine the training |
| `Info.TrainingType` | homework.py:53 | the summary names the class: `Running`, `SportsWalking` or `Swimming`, each exactly for its own kind |
| `Info.ShowTrainingInfo` | homework.py:51-57 | the summary fails with a division by zero exactly when the duration (or the walking height) is zero. Otherwise it carries the class name, the duration unchanged, and the kind's own distance, speed and calories |
| `Info.SummaryIsConsistent` | homework.py:51-57 | in a running or walking summary, speed times duration is the reported distance; in a swimming summary it is the pool distance instead |
| `Samples.SwimmingSample` | homework.py:135 | the `SWM` package `[720, 1, 80, 25, 40]` reads as that swim and summarises to distance 0.9936 km, speed 1 km/h and 336 kcal |
| `Samples.RunningSample` | homework.py:136 | the `RUN` package `[15000, 1, 75]` summarises to distance 9.75 km, speed 9.75 km/h and 699.75 kcal |
| `Samples.WalkingSample` | homework.py:137 | the `WLK` package `[9000, 1, 75, 180]` summarises to distance 5.85 km, speed 5.85 km/h and 157.5 kcal (the floored term is 0) |
| `Samples.RejectedSamples` | homework.py:120-123 | an unknown or lower-case code is refused as unknown, and a short list is refused with its counts |
| `Samples.ZeroDurationSample` | homework.py:43-45 | a zero-duration package is read without complaint, but its summary fails with a division by zero |

## Left out

- Text rendering of the summary (`InfoMessage.get_message`, homework.py:15-20). It is float-to-decimal formatting with fixed labels; the model keeps the record's fields only.
- The driver (`main` and the `__main__` loop, homework.py:126-142). It is console output; its three packages appear as the concrete inputs of the `Samples` lemmas.
- IEEE-754 floating point. The program computes in floats; the model uses exact rationals, so every stated value is the exact one, before rounding.
- The base class's `get_spent_calories` (homework.py:47-49). It only raises `NotImplementedError`, and no training the dispatcher can build reaches it.
- Parameter types. The dispatcher takes a list of reals. A list holding non-numbers, which Python would reject only when it computes a quantity, is not modelled. The step count, annotated `int`, is a real like the other inputs.
- Exception classes. The three failures are constructors of `Results.Error`, not Python exception types, and carry no message text.
- The default value `float` of `read_package`'s `data` parameter (homework.py:113). It is a placeholder annotation that no call uses.
