# ev3basicbot numeric core in Dafny

A Dafny model of the numeric and estimation engine of the ev3basicbot robot
project. It covers five parts:

- `SysfsReader`, the byte-level number reader for sysfs value files (module `Sysfs`);
- `DoubleExponentialSmoothing`, the level/trend smoother (module `Smoothing`);
- the smoothing-factor calibration objective of `DESCalibration.kt` (module `Calibration`);
- the particle swarm optimiser: `Vector` (module `Vectors`), `OptimizableFunction`
  (module `Objectives`), `Particle` (module `Particles`), `PSOSwarm` (module `Swarms`),
  and the test objectives of `SampleFunctions` (module `SampleFunctions`);
- the sampling side of `SmoothSensor` (module `Sensors`).

Code that changes state in place is modelled as classes whose methods state
their new state. `SysfsReader`, the smoother, `Vector`, `Particle`,
`PSOSwarm` and `SmoothSensor` are classes; vector components live in an
`array<real>`. Each imperative method is tied to a specification function,
and the properties are proved as lemmas about those functions.

Floating-point numbers (`Float`, `Double`) are modelled as exact reals. A NaN
value, and a sample that is not finite, is `None` of an `Option`. Kotlin
`Long` arithmetic in the reader wraps around at 64 bits, and so does the
model (`Sysfs.Wrap64`). Random draws, file contents and sensor readings are
parameters.

## Model

| member | source | states |
|---|---|---|
| Sysfs.Wrap64 | ev3/src/main/kotlin/info/benjaminhill/basicbot/ev3/SysfsReader.kt:46-54 | the `Long` a value wraps to lies in [-2^63, 2^63) and equals the value when that already fits |
| Sysfs.NumericPrefixLength | ev3/src/main/kotlin/info/benjaminhill/basicbot/ev3/SysfsReader.kt:41-51 | the scan consumes a prefix made only of `-`, `.` and digits, and stops at the first other byte |
| Sysfs.Step | ev3/src/main/kotlin/info/benjaminhill/basicbot/ev3/SysfsReader.kt:42-49 | the sign turns negative exactly at a `-` and never back; the numeric fields stay `Long` values |
| Sysfs.Fold | ev3/src/main/kotlin/info/benjaminhill/basicbot/ev3/SysfsReader.kt:38-52 | the loop over no bytes leaves the reset fields (0, 0, positive); after any bytes both numeric fields are `Long` values |
| Sysfs.Parse | ev3/src/main/kotlin/info/benjaminhill/basicbot/ev3/SysfsReader.kt:38-55 | after the sign is applied both numeric fields are `Long` values, and the result is positive exactly when no `-` occurs in the scanned prefix |
| Sysfs.LongOf | ev3/src/main/kotlin/info/benjaminhill/basicbot/ev3/SysfsReader.kt:64-68 | without a scale the value itself; with one, a truncated quotient between 0 and the value, so always a `Long` |
| Sysfs.FloatOf | ev3/src/main/kotlin/info/benjaminhill/basicbot/ev3/SysfsReader.kt:78 | the result times `max(1, floatExp)` is the value; with a scale of at most 1 it is the value itself |
| Sysfs.LongRead | ev3/src/main/kotlin/info/benjaminhill/basicbot/ev3/SysfsReader.kt:59-69 | null exactly when the read returned 0 or fewer bytes, otherwise a `Long` |
| Sysfs.FloatRead | ev3/src/main/kotlin/info/benjaminhill/basicbot/ev3/SysfsReader.kt:73-79 | null exactly when the read returned 0 or fewer bytes, otherwise the parsed value divided by `max(1, floatExp)` |
| Sysfs.SysfsReader.constructor | ev3/src/main/kotlin/info/benjaminhill/basicbot/ev3/SysfsReader.kt:22-28 | a 512-byte buffer and the initial field values (nothing read, not valid, positive) |
| Sysfs.SysfsReader.ReadNumber | ev3/src/main/kotlin/info/benjaminhill/basicbot/ev3/SysfsReader.kt:30-56 | a read of 0 or fewer bytes leaves the read invalid and the fields untouched; otherwise the read is valid and the fields are the scan of the delivered bytes, whatever they held before |
| Sysfs.SysfsReader.ReadLong | ev3/src/main/kotlin/info/benjaminhill/basicbot/ev3/SysfsReader.kt:59-69 | null for an empty read; otherwise the value, divided by the scale and truncated toward zero when there is a scale |
| Sysfs.SysfsReader.ReadFloat | ev3/src/main/kotlin/info/benjaminhill/basicbot/ev3/SysfsReader.kt:73-79 | null for an empty read; otherwise `value / max(1, floatExp)` |
| Sysfs.PrefixLengthIs | ev3/src/main/kotlin/info/benjaminhill/basicbot/ev3/SysfsReader.kt:41-51 | the loop's exit point is exactly the first byte that is not `-`, `.` or a digit |
| Sysfs.EmptyReadIsNull | ev3/src/main/kotlin/info/benjaminhill/basicbot/ev3/SysfsReader.kt:31-36 | when the read returns 0 or fewer bytes, both readers return null |
| Sysfs.NonNumericStartReadsZero | ev3/src/main/kotlin/info/benjaminhill/basicbot/ev3/SysfsReader.kt:37-50 | content that starts with a non-numeric byte is a valid read of 0 for both readers |
| Sysfs.LaterBytesIgnored | ev3/src/main/kotlin/info/benjaminhill/basicbot/ev3/SysfsReader.kt:41-51 | two contents that agree up to and including the first stopping byte parse the same |
| Sysfs.FoldValue | ev3/src/main/kotlin/info/benjaminhill/basicbot/ev3/SysfsReader.kt:45-49 | `value` is the decimal number of the scanned digits in buffer order, wrapped to 64 bits |
| Sysfs.FoldSign | ev3/src/main/kotlin/info/benjaminhill/basicbot/ev3/SysfsReader.kt:43 | the scan ends negative exactly when a `-` occurs anywhere in the scanned prefix |
| Sysfs.FloatExpWithoutPeriod | ev3/src/main/kotlin/info/benjaminhill/basicbot/ev3/SysfsReader.kt:39-48 | without a `.` the scale stays 0 |
| Sysfs.FloatExpAfterLastPeriod | ev3/src/main/kotlin/info/benjaminhill/basicbot/ev3/SysfsReader.kt:44-48 | the scale is 10 to the number of digits after the last `.`: a second `.` resets it to 1 |
| Sysfs.ParseValue | ev3/src/main/kotlin/info/benjaminhill/basicbot/ev3/SysfsReader.kt:41-55 | the final value is the digits' number, negated once after the loop when the prefix holds a `-` |
| Sysfs.LongReadExact | ev3/src/main/kotlin/info/benjaminhill/basicbot/ev3/SysfsReader.kt:64-68 | with no `.` and a magnitude below 2^63, `readLong` returns the signed integer exactly |
| Sysfs.ReadsOneTwoThree | ev3/src/main/kotlin/info/benjaminhill/basicbot/ev3/SysfsReader.kt:59-79 | "123" reads as 123 and 123.0 |
| Sysfs.ReadsMinusFortyFivePointSix | ev3/src/main/kotlin/info/benjaminhill/basicbot/ev3/SysfsReader.kt:59-79 | "-45.6" reads as -45.6, and as -45 after truncation |
| Sysfs.ReadsLettersAsZero | ev3/src/main/kotlin/info/benjaminhill/basicbot/ev3/SysfsReader.kt:37-68 | "abc" is a valid read of 0, not a null |
| Smoothing.Step | src/main/kotlin/info/benjaminhill/stats/DoubleExponentialSmoothing.kt:26-48 | every `add` keeps the fields consistent: `smoothedData` is NaN exactly when `data` is, and a trend implies a level and a sample |
| Smoothing.Feed | src/main/kotlin/info/benjaminhill/stats/DoubleExponentialSmoothing.kt:26-48 | any sequence of `add` calls keeps that consistency |
| Smoothing.SquaredError | src/main/kotlin/info/benjaminhill/stats/DoubleExponentialSmoothing.kt:59 | `getSquaredError` is NaN exactly when `data` is, and never negative otherwise |
| Smoothing.NextPredicted | src/main/kotlin/info/benjaminhill/stats/DoubleExponentialSmoothing.kt:57 | `level + trend`, NaN exactly when the level or the trend is |
| Smoothing.Interpolate | src/main/kotlin/info/benjaminhill/stats/DoubleExponentialSmoothing.kt:54-57 | `smoothedData + pct (level + trend - smoothedData)`, NaN exactly when any of the three fields is |
| Smoothing.DoubleExponentialSmoothing.constructor | src/main/kotlin/info/benjaminhill/stats/DoubleExponentialSmoothing.kt:15-24 | alpha and beta must lie in [0,1]; all four fields start as NaN |
| Smoothing.DoubleExponentialSmoothing.Add | src/main/kotlin/info/benjaminhill/stats/DoubleExponentialSmoothing.kt:26-48 | the new fields are the state machine's step from the old fields and the sample |
| Smoothing.DoubleExponentialSmoothing.Get | src/main/kotlin/info/benjaminhill/stats/DoubleExponentialSmoothing.kt:54-55 | the weighted mix `(1 - pct) smoothedData + pct (level + trend)`, NaN exactly when one of those fields is |
| Smoothing.DoubleExponentialSmoothing.GetNextPredicted | src/main/kotlin/info/benjaminhill/stats/DoubleExponentialSmoothing.kt:57 | `level + trend` of the current fields, NaN exactly when one of the two is |
| Smoothing.DoubleExponentialSmoothing.GetSquaredError | src/main/kotlin/info/benjaminhill/stats/DoubleExponentialSmoothing.kt:59 | NaN exactly when `data` is; otherwise `(smoothedData - data)^2`, never negative |
| Smoothing.PhaseTransitions | src/main/kotlin/info/benjaminhill/stats/DoubleExponentialSmoothing.kt:27-40 | a non-finite sample resets and keeps the level; a finite one moves reset to bootstrapping (trend `sample - data`, level `data`, smoothed value kept) and bootstrapping to steady |
| Smoothing.SteadyStep | src/main/kotlin/info/benjaminhill/stats/DoubleExponentialSmoothing.kt:41-47 | a steady step sets the smoothed value to the old forecast, moves the level a fraction alpha toward the previous sample and the trend a fraction beta toward the level change, then records the sample |
| Smoothing.ResetReboots | src/main/kotlin/info/benjaminhill/stats/DoubleExponentialSmoothing.kt:27-40 | after a non-finite sample, the next two samples give the same state as on a new smoother |
| Smoothing.InterpolateEndpoints | src/main/kotlin/info/benjaminhill/stats/DoubleExponentialSmoothing.kt:54-57 | `get(0)` is the smoothed value, `get(1)` is `level + trend`, `get` is affine in its argument and stays between the two on [0,1] |
| Smoothing.ConstantSeries | src/main/kotlin/info/benjaminhill/stats/DoubleExponentialSmoothing.kt:26-59 | a constant series `c` gives smoothed value `c`, and from the second sample on level `c` and trend 0, with squared error 0 |
| Smoothing.RampLags | src/main/kotlin/info/benjaminhill/stats/DoubleExponentialSmoothing.kt:41-59 | on a linear ramp of slope `k` the trend is exact but the level lags one sample, so the squared error stays `k^2` |
| Calibration.Clamp01 | src/main/kotlin/info/benjaminhill/stats/DESCalibration.kt:22-23 | the clamped factor lies in [0,1]; it equals the input inside [0,1], is 0 below and 1 above |
| Calibration.SumOfSquaredErrors | src/main/kotlin/info/benjaminhill/stats/DESCalibration.kt:25-34 | the sum of the finite squared errors after each `add` is never negative |
| Calibration.ObjectiveValue | src/main/kotlin/info/benjaminhill/stats/DESCalibration.kt:19-35 | the objective value at any point is never negative |
| Calibration.Objective | src/main/kotlin/info/benjaminhill/stats/DESCalibration.kt:19-35 | the `forEach` loop over the data computes the objective value, with clamped factors that always pass the smoother's checks |
| Calibration.CalibrationFunction | src/main/kotlin/info/benjaminhill/stats/DESCalibration.kt:14-35 | the search domain is exactly [0,1] x [0,1], and the function is defined on every two-coordinate point |
| Calibration.ClampedPointScoresSame | src/main/kotlin/info/benjaminhill/stats/DESCalibration.kt:22-24 | a point outside the unit square scores the same as its clamped counterpart |
| Calibration.ConstantDataScoresZero | src/main/kotlin/info/benjaminhill/stats/DESCalibration.kt:24-34 | constant data has objective 0 for any factors |
| Vectors.PlusThenMinus | src/main/kotlin/info/benjaminhill/stats/pso/Vector.kt:29-41 | `v += w` then `v -= w` gives back `v` |
| Vectors.ScaleThenDiv | src/main/kotlin/info/benjaminhill/stats/pso/Vector.kt:43-55 | `v *= s` then `v /= s` gives back `v` for nonzero `s` |
| Vectors.SumOfSquaresOfZeros | src/main/kotlin/info/benjaminhill/stats/pso/Vector.kt:57 | the zero vector's sum of squares is 0 |
| Vectors.Vector.constructor | src/main/kotlin/info/benjaminhill/stats/pso/Vector.kt:8-10 | `Vector(len)` holds `len` zeros in a new array |
| Vectors.Vector.FromValues | src/main/kotlin/info/benjaminhill/stats/pso/Vector.kt:13-15 | the vararg constructor holds exactly the given values in a new array |
| Vectors.Vector.Set | src/main/kotlin/info/benjaminhill/stats/pso/Vector.kt:21-25 | the argument's length must equal the vector's; afterwards the components are the argument |
| Vectors.Vector.SetFrom | src/main/kotlin/info/benjaminhill/stats/pso/Vector.kt:17-19 | the components become those of the other vector |
| Vectors.Vector.GetData | src/main/kotlin/info/benjaminhill/stats/pso/Vector.kt:27 | a new array holding the same components |
| Vectors.Vector.PlusAssign | src/main/kotlin/info/benjaminhill/stats/pso/Vector.kt:29-34 | the componentwise sum, with the length unchanged |
| Vectors.Vector.MinusAssign | src/main/kotlin/info/benjaminhill/stats/pso/Vector.kt:36-41 | the componentwise difference, with the length unchanged |
| Vectors.Vector.TimesAssign | src/main/kotlin/info/benjaminhill/stats/pso/Vector.kt:43-48 | every component multiplied by `s` |
| Vectors.Vector.DivAssign | src/main/kotlin/info/benjaminhill/stats/pso/Vector.kt:50-55 | every component divided by `s` |
| Vectors.Vector.MagnitudeSq | src/main/kotlin/info/benjaminhill/stats/pso/Vector.kt:57 | the sum of squares is never negative, and 0 for the zero vector |
| Vectors.Vector.Clone | src/main/kotlin/info/benjaminhill/stats/pso/Vector.kt:81 | a new vector with its own array holding the same components |
| Objectives.OptimizableFunction.Eval | src/main/kotlin/info/benjaminhill/stats/pso/OptimizableFunction.kt:17-20 | the size check fails exactly when the point's size differs from the number of domains; otherwise `f` of the point, unchanged |
| Objectives.MakeFunction | src/main/kotlin/info/benjaminhill/stats/pso/OptimizableFunction.kt:9-15 | the domains are the custom ones when given, otherwise `numDimensions` copies of [-100,100] |
| Objectives.RandomPoint | src/main/kotlin/info/benjaminhill/stats/pso/OptimizableFunction.kt:24-28 | one coordinate per domain, coordinate `i` being `r_i (end_i - start_i) - start_i` |
| Objectives.NewZeroVector | src/main/kotlin/info/benjaminhill/stats/pso/OptimizableFunction.kt:22 | a new vector of zeros, one per domain |
| Objectives.NewRandomVector | src/main/kotlin/info/benjaminhill/stats/pso/OptimizableFunction.kt:24-28 | a new vector holding the random point of the draws, one coordinate per domain |
| Objectives.DrawBounds | src/main/kotlin/info/benjaminhill/stats/pso/OptimizableFunction.kt:26 | a draw in [0,1) gives a coordinate in [-start, end - 2 start) |
| Objectives.DrawsLandIffStartIsZero | src/main/kotlin/info/benjaminhill/stats/pso/OptimizableFunction.kt:26 | every draw in [0,1) lands in [start, end) if and only if the range starts at 0 |
| Objectives.MissingDraw | src/main/kotlin/info/benjaminhill/stats/pso/OptimizableFunction.kt:26 | for a range not starting at 0, a draw in [0,1) whose coordinate falls outside it |
| Particles.NewVelocity | src/main/kotlin/info/benjaminhill/stats/pso/Particle.kt:52-70 | the new velocity has one component per coordinate |
| Particles.NewVelocityComponents | src/main/kotlin/info/benjaminhill/stats/pso/Particle.kt:52-70 | each component is `inertiaC v + cognitiveC r1 (best - x) + socialC r2 (globalBest - x)` |
| Particles.StandingStill | src/main/kotlin/info/benjaminhill/stats/pso/Particle.kt:14-19 | with the default constants 0 the move leaves the velocity zero and the position unchanged |
| Particles.Particle.constructor | src/main/kotlin/info/benjaminhill/stats/pso/Particle.kt:14-35 | the position is the random point of the draws, the velocity zero, the best position the start, and the best score that of the start, or `Double.MAX_VALUE` if that is no lower |
| Particles.Particle.UpdatePersonalBest | src/main/kotlin/info/benjaminhill/stats/pso/Particle.kt:40-46 | the position becomes the best exactly when its score is strictly lower; the best score never increases and ends at most the position's score |
| Particles.Particle.UpdateVelocityAndPosition | src/main/kotlin/info/benjaminhill/stats/pso/Particle.kt:52-74 | the velocity becomes the inertia plus both pulls, the position moves by the new velocity, and neither best position changes |
| Particles.Particle.Pull | src/main/kotlin/info/benjaminhill/stats/pso/Particle.kt:57-62 | a new vector `(target - position) c r` |
| Swarms.TotalSpaceSq | src/main/kotlin/info/benjaminhill/stats/pso/PSOSwarm.kt:39 | the summed squared domain widths are never negative, and 0 when every domain is a point |
| Swarms.TotalVelocitySq | src/main/kotlin/info/benjaminhill/stats/pso/PSOSwarm.kt:74 | the summed squared speeds are never negative |
| Swarms.StopsEarly | src/main/kotlin/info/benjaminhill/stats/pso/PSOSwarm.kt:74-75 | with an empty search space the run never stops early; otherwise it stops exactly when the summed squared speeds are below `smallestMovePct` of the summed squared widths |
| Swarms.PSOSwarm.constructor | src/main/kotlin/info/benjaminhill/stats/pso/PSOSwarm.kt:18-29 | an absent particle count defaults to 30 per dimension and an absent epoch count to 1000 per dimension; the global best is a new standing particle at the random point of `draws`, with its best position that start and its best score the start's score, or `Double.MAX_VALUE` if that is no lower |
| Swarms.PSOSwarm.Defaults | src/main/kotlin/info/benjaminhill/stats/pso/PSOSwarm.kt:18-29 | every parameter at its default: 30 and 1000 per dimension, 0.729844, 1.496180, 1.496180 and 1e-20; the global best starts as in the main constructor, at the random point of `draws` with that point's score |
| Swarms.PSOSwarm.GetBest | src/main/kotlin/info/benjaminhill/stats/pso/PSOSwarm.kt:31 | a new array holding the global best position, one coordinate per domain |
| Swarms.PSOSwarm.CreateParticles | src/main/kotlin/info/benjaminhill/stats/pso/PSOSwarm.kt:36-38 | `numOfParticles` new particles, each standing at the random point of its draws with its best position equal to that start, and owning its state alone |
| Swarms.PSOSwarm.EvaluateAll | src/main/kotlin/info/benjaminhill/stats/pso/PSOSwarm.kt:45-51 | every personal best score becomes the lower of the old best and the position's score, and the best position becomes the position exactly when that score is strictly lower; the global best is untouched |
| Swarms.PSOSwarm.ScanGlobalBest | src/main/kotlin/info/benjaminhill/stats/pso/PSOSwarm.kt:54-62 | the global best score never increases, ends at most every personal best, and is either unchanged or one of them; when it is unchanged the global best position is too, and when it drops the position is that particle's best position |
| Swarms.PSOSwarm.MoveAll | src/main/kotlin/info/benjaminhill/stats/pso/PSOSwarm.kt:65-72 | every particle moves by the velocity update with its epoch's draws; no score changes |
| Swarms.PSOSwarm.Epoch | src/main/kotlin/info/benjaminhill/stats/pso/PSOSwarm.kt:43-72 | evaluate, then scan, then move: no best score rises and the global best is at most every personal best |
| Swarms.PSOSwarm.Epochs | src/main/kotlin/info/benjaminhill/stats/pso/PSOSwarm.kt:43-83 | at most `epochs` epochs run; the final global best score is at most the initial one (per-epoch monotonicity is `Swarms.PSOSwarm.Epoch`'s); the run stops early exactly after the first epoch whose travel share is below `smallestMovePct`, and when it stops early the particles' final summed squared speeds are below that share of the space |
| Swarms.PSOSwarm.Run | src/main/kotlin/info/benjaminhill/stats/pso/PSOSwarm.kt:33-86 | particle creation then the epoch loop, with the same guarantees over the created particles, including the final speeds after an early stop |
| SampleFunctions.Setups | src/main/kotlin/info/benjaminhill/stats/pso/SampleFunctions.kt:16-67 | `functionA` has one [-100,100] dimension, Booth [-2.5e6,2.5e6] x [-1.5e6,1.5e6], the camel two default dimensions, Ackley two domains; each function is defined on its domain |
| SampleFunctions.FunctionAMinimum | src/main/kotlin/info/benjaminhill/stats/pso/SampleFunctions.kt:11-20 | `x^4 - 2x^3 >= -1.6875` for every `x`, with equality at 1.5 |
| SampleFunctions.BoothMinimum | src/main/kotlin/info/benjaminhill/stats/pso/SampleFunctions.kt:41-58 | Booth's function is never negative and is 0 at (1, 3) |
| SampleFunctions.ThreeHumpCamelMinimum | src/main/kotlin/info/benjaminhill/stats/pso/SampleFunctions.kt:60-67 | the three-hump camel function is never negative and is 0 at (0, 0) |
| Sensors.LastN | src/main/kotlin/info/benjaminhill/basicbot/SmoothSensor.kt:25 | the last `n` elements, in order |
| Sensors.PushBounded | src/main/kotlin/info/benjaminhill/basicbot/SmoothSensor.kt:40 | the queue grows by one until it is full and then keeps its size; the new entry is last |
| Sensors.PushKeepsOrder | src/main/kotlin/info/benjaminhill/basicbot/SmoothSensor.kt:40 | before the new entry the old entries stay in order, less the oldest one when the queue was full |
| Sensors.PushKeepsLastN | src/main/kotlin/info/benjaminhill/basicbot/SmoothSensor.kt:25-40 | the ring buffer never exceeds its capacity; a push evicts the oldest entry and keeps exactly the last `n` samples in arrival order |
| Sensors.SmoothSensor.constructor | src/main/kotlin/info/benjaminhill/basicbot/SmoothSensor.kt:24-32 | empty history and recording, zero counts, not recording |
| Sensors.SmoothSensor.Poll | src/main/kotlin/info/benjaminhill/basicbot/SmoothSensor.kt:37-46 | a finite reading is pushed into the history, counted, and recorded if and only if recording is on; a non-finite reading changes nothing |
| Sensors.SmoothSensor.StartRecording | src/main/kotlin/info/benjaminhill/basicbot/SmoothSensor.kt:53-55 | only the recording flag changes, to true |
| Sensors.SmoothSensor.StopRecording | src/main/kotlin/info/benjaminhill/basicbot/SmoothSensor.kt:57-62 | the flag is cleared, the recorded readings are returned in arrival order, and the recording is left empty |
| Sensors.SmoothSensor.Get | src/main/kotlin/info/benjaminhill/basicbot/SmoothSensor.kt:68-70 | during warm-up, the latest reading (none before the first reading), with the direct-answer count incremented |

## Left out

- Floating-point rounding, overflow to infinity, and the `Float`-to-`Long` conversion's saturation: all numbers are exact reals. `readLong` truncates the exact quotient.
- Infinite (non-NaN) values are treated like NaN. This covers smoother samples and sensor readings. The smoother stores an infinite sample as `data`, and its propagation through the trend is not modelled.
- Objective values are always finite reals: `OptimizableFunction.f` returns `real`. A NaN score, which never compares lower and so never becomes a personal best (Particle.kt:42) or the global best (the scan in `PSOSwarm.run`), is not modelled.
- File I/O in `SysfsReader`: the existence check, opening, `seek`, `read` and `close`. A read is given as the delivered bytes and the returned count.
- Randomness: each `Random.nextDouble()` result is a parameter (`draws`, `initialDraws`, `moveDraws`). Most properties hold for any draws; `Objectives.DrawBounds`, `Objectives.DrawsLandIffStartIsZero` and `Objectives.MissingDraw` assume draws in [0,1).
- Concurrency: the coroutine fan-outs of `PSOSwarm.run` are sequential loops over the particles, in list order. The background polling loop of `SmoothSensor` is one `Poll` call per reading.
- Clocks and delays: `System.currentTimeMillis`, `delay`, `lastSampleMs` and `totalElapsedMs` are not modelled.
- Logging and printing: the `println` lines of `PSOSwarm.run`, including the empty `globalBest.bestEval / 10` branch, and all logger calls.
- `Vector.limit` and `mag`: `magnitudeLimit` is `+Infinity` and is never reassigned, so `limit()` never changes the data. It is left out together with the square root it would need.
- `Vector.toString`, `Particle.toString` and the `SmoothSensor.close` statistics are formatting only.
- Vectors.Vector.Set, Vectors.Vector.SetFrom, Vectors.Vector.PlusAssign, Vectors.Vector.MinusAssign: a length mismatch is a precondition here. In the source `set` throws `IllegalArgumentException` (Vector.kt:18, 22), and `plusAssign`/`minusAssign` with a shorter operand update part of the data and then throw `ArrayIndexOutOfBoundsException` (Vector.kt:30-32, 37-39). No caller in the core passes mismatched lengths.
- Vectors.Vector.DivAssign: requires `s != 0`. Division by zero would give infinities or NaN, which the real model cannot express.
- Vectors.Vector.MagnitudeSq: states only that the result is non-negative and 0 for the zero vector. It does not state the converse.
- Swarms.TotalSpaceSq: states only that the result is non-negative and 0 when every domain is a point. It does not state the converse.
- Objectives.MakeFunction: `numDimensions` is a `nat`. A negative `Int` would make `Array(numDimensions)` throw.
- Sensors.SmoothSensor.Get: requires `sampleCount < HISTORY_SIZE`; only the warm-up branch is modelled. The smoothed branch calls `DoubleExponentialSmoothing(FloatArray)`, `forecast` and `getSmoothedLatest`, which the smoother class does not define.
- `sampleCount` and `directSampleCount` are unbounded integers. The 32-bit `Int` overflow after 2^31 readings is not modelled.
- `PSOSwarm.run` calls `updateVelocity(globalBest, inertiaC, cognitiveC, socialC)` and `updatePosition()`, which `Particle` does not define, on particles built with `Particle(function)`, whose constants default to 0. The model builds each run particle with the swarm's three constants. Its move is `Particle.updateVelocityAndPosition`, which then uses exactly the swarm's constants.
- Swarms.PSOSwarm.Epoch: does not restate the move of each particle. `Swarms.PSOSwarm.MoveAll` states it.
- Swarms.PSOSwarm.Epochs: the travels of the epochs before the last are not tied to the velocities they were computed from; that would need a ghost history of every particle's velocity. The last epoch's travel is tied to the final velocities when the run stops early. Likewise the intermediate `scores` are not tied to the global best after each epoch: only the first and the last are.
- Swarms.PSOSwarm.Run: as `Epochs`, the travels of the epochs before the last are not tied to the velocities, and the intermediate `scores` are not tied to the global best.
- The global best, like every particle, is placed by its own draws, which are given to the constructor. It starts at that random point with that point's score (PSOSwarm.kt:29), not at a worst-possible sentinel score.
- Ackley's function: its body uses `exp`, `cos`, `sqrt` and `PI`, and is not modelled. Its domains are.
- The `main` function of `DESCalibration.kt`, which builds fake data, splits it, runs the swarm and prints forecasts. `fakeSensorData` is not part of this model.
- The smoother's default arguments are not modelled: the constructor always takes both factors (defaults 0.3 and 0.4), and `Get` always takes `pctBetweenSamples` (default 1, which predicts the next sample).
- `SmoothSensor` sensor plumbing (`BaseSensor`, `SampleProvider`, the `sample` array): a poll takes the reading as a parameter.
