# Howl, modelled in Dafny

Howl is an Android app that drives a DG-Lab Coyote 3 e-stim box over
Bluetooth Low Energy. Several pulse sources produce four-value pulses
(amplitude and frequency for channels A and B, each in [0, 1]):

- a parametric wave generator;
- a catalogue of "activities", small state machines built on keyframed
  cyclical waves, timers and eased values;
- a Funscript player;
- an HWL file player (HWL files are written by a Python tool).

The player takes four pulses every 100 ms, post-processes them (frequency
inversion, channel swap, developer clamps, power auto-increase) and the
Coyote driver turns them into the device's 20-byte `0xB0` frame.

This project models that core as Dafny code, one module per component:

| module | models |
|---|---|
| `Numeric`, `Wrappers`, `Pulses` | shared arithmetic facts, `Option`/`Result`, the `Pulse` record |
| `Random` | the app's random draws as a stream of values in [0, 1) |
| `Utils` | the interpolation helpers and the positional/engulf effects of `Utils.kt` |
| `Timers` | `TimerManager`, a keyed table of one-shot countdowns |
| `Smoothing` | `SmoothedValue`, a value easing toward a target with a completion callback |
| `FrequencyConversion` | `FrequencyConverter`, the piecewise position-to-frequency curve |
| `CyclicalWaves` | `CyclicalWave`, `VarianceHandler` and `WaveManager` |
| `GeneratorWaves` | the constant catalogue of generator wave shapes |
| `Generator` | `calculateWave`, `generate` and the random generator parameters |
| `Player` | `getNextTimes`, `applyPostProcessing` and the power auto-increase |
| `Lick`, `Penetration`, `Vibro`, `Milker`, `Chaos`, `LuxuryHJ`, `Opposites`, `Calibration`, `BJ`, `FastSlow`, `Additive` | the activities of `Activity.kt` |
| `ActivityHosting` | `ActivityHost`: the simulation clock and the activity switch |
| `Coyote` | the Coyote quantizer, the `0xB0`/`0xBF` frames, the `0xB1` status report and the connection stages |
| `TreeMaps` | the `TreeMap<Double, …>` operations the file players use |
| `Funscript` | `FunscriptPulseSource` |
| `Hwl`, `HwlScript` | `HWLPulseSource` and the Python HWL writer |
| `FileReader` | the older `HWLReader` and `FunscriptReader` |
| `DebugLogger` | `HLog`'s bounded log queue |

Objects whose fields the app updates in place are classes:

- timers, eased values, waves, wave managers;
- every activity and the activity host;
- the Coyote device, the pulse sources and the readers;
- the power auto-increase counters and the log.

A method's `modifies` clause names the objects it may change, and its
`ensures` clauses state the new state. Where a contract states only part
of what the code does, "Left out" names the member and the missing part.
The formulas the methods use are functions, and lemmas relate those
functions.

Randomness is an input. An `Rng` object holds a fixed stream of draws in
[0, 1) and a count of the draws used so far. Each Kotlin random call takes
the next draw, in the order the code makes them. The one exception is
`changeActivity` of the host, whose picks the model draws back to back
(see `ActivityHosting.DrawAcceptableIndex` under "Left out"). The stream
is assumed fair: every index of a pick recurs later. That assumption makes
the redraw loops terminate: `nextStage` of the BJ activity and the host's
`changeActivity` in the form modelled here.

Callbacks are values of an action datatype per activity. Timers store
these values, and the activity dispatches each fired action before the
next key is visited, as the Kotlin loop runs callbacks inside the update.

`stopAtEndOfCycle` and `stopAfterIterations` aim at the floor of
`currentTime + 1` and of `currentTime + n` (`CyclicalWave.kt:212-220`), so
a stop comes at the end of the cycle under way. The model does the same.

## Model

Each row names a member and the source lines it models; the third column is what its contract states.

| member | source | states |
|---|---|---|
| Utils.ScaleBetween | app/src/main/java/com/example/howl/Utils.kt:50-57 | the scaled value always lies between the two range ends, whichever order they are given in |
| Utils.ScaleBetweenEnds | app/src/main/java/com/example/howl/Utils.kt:50-57 | inside [0, 1] the scaling is the exact linear map; at or below 0 it gives the first end, at or above 1 the second |
| Utils.RandomInRange | app/src/main/java/com/example/howl/Utils.kt:62-78 | equal ends give that end without a draw; a skewed draw in [0, 1) lands in [min, max), below max when the ends differ |
| Utils.Uniform | app/src/main/java/com/example/howl/Utils.kt:62-78 | the unbiased draw lands between the ends, strictly below the larger one when they differ |
| Utils.RandomInRangeUnbiased | app/src/main/java/com/example/howl/Utils.kt:62-78 | with bias 1 the biased draw equals the uniform draw |
| Utils.NextOrdinal | app/src/main/java/com/example/howl/Utils.kt:84-88 | the next enum constant is the following ordinal, wrapping from the last to the first |
| Utils.ScaleVelocity | app/src/main/java/com/example/howl/Utils.kt:90-95 | a zero velocity scales to 0; a non-zero one with positive sensitivity to a value strictly inside (0, 1); with zero sensitivity to 1 |
| Utils.ScaleVelocitySymmetric | app/src/main/java/com/example/howl/Utils.kt:90-95 | the scaled velocity does not depend on the direction of motion |
| Utils.ScaleVelocityMonotone | app/src/main/java/com/example/howl/Utils.kt:90-95 | a faster motion never scales lower |
| Utils.Smoothstep | app/src/main/java/com/example/howl/Utils.kt:97-100 | the eased value is in [0, 1], 0 at or below 0 and 1 at or above 1 |
| Utils.SmoothstepSymmetric | app/src/main/java/com/example/howl/Utils.kt:97-100 | the easing curve is point-symmetric about its midpoint |
| Utils.SmoothstepMonotone | app/src/main/java/com/example/howl/Utils.kt:97-100 | the easing curve never decreases |
| Utils.LinearInterpolate | app/src/main/java/com/example/howl/Utils.kt:102-112 | gives p0 when t0 >= t1 or at t0, p1 at t1, and a value between p0 and p1 inside the segment |
| Utils.LinearInterpolateWithVelocity | app/src/main/java/com/example/howl/Utils.kt:114-126 | the position is the linear interpolation; the velocity is 0 for a degenerate segment and otherwise the segment's slope |
| Utils.HermitePositionAndFactors | app/src/main/java/com/example/howl/Utils.kt:128-150 | the degenerate segment gives (p0, 0, 0, 0); otherwise h is the normalised time, hSq and hCu its square and cube, and the position the cubic Hermite basis sum |
| Utils.HermiteInterpolate | app/src/main/java/com/example/howl/Utils.kt:152-162 | gives p0 for a degenerate segment and at t0, and p1 at t1 |
| Utils.HermiteFlatIsSmoothstep | app/src/main/java/com/example/howl/Utils.kt:128-162 | with flat end slopes the Hermite curve is the smoothstep easing from p0 to p1, so it stays between p0 and p1 |
| Utils.HermiteInterpolateWithVelocity | app/src/main/java/com/example/howl/Utils.kt:164-182 | the position is the Hermite position; a zero-length segment gives (p0, 0) and a reversed one (p0, m0) |
| Utils.HermiteVelocityAtKeys | app/src/main/java/com/example/howl/Utils.kt:164-182 | the velocity at t0 is m0 and at t1 is m1 |
| Utils.EffectivePosition | app/src/main/java/com/example/howl/Utils.kt:184-191 | the neutral-blended position is in [0, 1]; strength 0 gives 0.5 and strength 1 the position itself |
| Utils.PositionalEffect | app/src/main/java/com/example/howl/Utils.kt:184-195 | channel A is the amplitude times sqrt(1 - effective position), channel B the amplitude times sqrt(effective position) |
| Utils.PositionalEffectKeepsPower | app/src/main/java/com/example/howl/Utils.kt:184-195 | A squared plus B squared equals the amplitude squared, and with a non-negative amplitude both channels lie within it |
| Utils.PositionalEffectNeutral | app/src/main/java/com/example/howl/Utils.kt:184-195 | with zero strength both channels are equal |
| Utils.EngulfChannel | app/src/main/java/com/example/howl/Utils.kt:203-212 | at or below the engulf point the curve is 1 (point 0) or sqrt(position / point); above it sqrt(1 - 0.8 * distance) |
| Utils.EngulfEffect | app/src/main/java/com/example/howl/Utils.kt:197-215 | each channel is its engulf curve times the amplitude |
| Utils.EngulfChannelShape | app/src/main/java/com/example/howl/Utils.kt:203-212 | over the unit range each curve stays in [0, 1], is exactly 1 at its engulf point and 0 at the base |
| Utils.FeelAdjustment | app/src/main/java/com/example/howl/Utils.kt:217-222 | the adjusted frequency is in [0, 1] and equals frequency^exponent whenever that already lies in [0, 1] |
| Timers.Without | app/src/main/java/com/example/howl/Utils.kt:235-237 | removing a key keeps exactly the other keys, and keeps a duplicate-free order duplicate-free |
| Timers.WithoutConcat | app/src/main/java/com/example/howl/Utils.kt:235-237 | removing a key from a joined order removes it from each part |
| Timers.Survivors | app/src/main/java/com/example/howl/Utils.kt:255-270 | the keys left after a step are exactly the visited keys whose remaining time stays positive, without duplicates |
| Timers.Expired | app/src/main/java/com/example/howl/Utils.kt:255-270 | every callback collected in a step belongs to a visited timer whose remaining time reached 0 |
| Timers.Stepped | app/src/main/java/com/example/howl/Utils.kt:255-270 | after a step a key is stored exactly when it was stored before and, if visited, its remaining time stayed positive |
| Timers.TimerManager.constructor | app/src/main/java/com/example/howl/Utils.kt:224-225 | a new manager holds no timers |
| Timers.TimerManager.AddTimer | app/src/main/java/com/example/howl/Utils.kt:227-233 | a non-positive duration returns the callback to run at once and stores nothing; otherwise the timer is stored with full remaining time, replacing a timer of that key, and the invariant 0 < remaining <= duration is kept |
| Timers.TimerManager.CancelTimer | app/src/main/java/com/example/howl/Utils.kt:235-237 | the key's timer is gone and nothing else changes |
| Timers.TimerManager.HasTimer | app/src/main/java/com/example/howl/Utils.kt:239 | true exactly when a timer of that key is stored |
| Timers.TimerManager.RemainingTime | app/src/main/java/com/example/howl/Utils.kt:241-243 | present exactly when the timer is stored, and then positive |
| Timers.TimerManager.ElapsedTime | app/src/main/java/com/example/howl/Utils.kt:245-248 | present exactly when the timer is stored, and then in [0, duration) |
| Timers.TimerManager.ProportionElapsed | app/src/main/java/com/example/howl/Utils.kt:250-253 | present exactly when the timer is stored, and then in [0, 1) |
| Timers.TimerManager.Snapshot | app/src/main/java/com/example/howl/Utils.kt:257-258 | the keys to visit are exactly the stored keys, each once |
| Timers.TimerManager.Tick | app/src/main/java/com/example/howl/Utils.kt:260-268 | a key no longer stored is skipped; a stored timer loses delta of its remaining time; one that reaches 0 is removed before its callback is returned, so the callback may store that key again |
| Timers.TimerManager.Update | app/src/main/java/com/example/howl/Utils.kt:255-270 | every timer stored at the start is stepped once, the expired ones are removed, and their callbacks come back in visiting order |
| Timers.TimerManager.Visit | app/src/main/java/com/example/howl/Utils.kt:260-268 | one turn of the update loop advances the loop's progress by one key |
| Smoothing.Eased | app/src/main/java/com/example/howl/Utils.kt:343-346 | the eased value lies between start and target, equals start at the beginning and target once the duration has passed |
| Smoothing.EasedMonotone | app/src/main/java/com/example/howl/Utils.kt:343-346 | as time passes the eased value only moves towards the target |
| Smoothing.SmoothedValue.constructor | app/src/main/java/com/example/howl/Utils.kt:279-285 | a new value rests at its initial value with no transition and no callback |
| Smoothing.SmoothedValue.Current | app/src/main/java/com/example/howl/Utils.kt:287-346 | the target when no transition runs; otherwise a value between start and target |
| Smoothing.SmoothedValue.GetTarget | app/src/main/java/com/example/howl/Utils.kt:321-323 | the target |
| Smoothing.SmoothedValue.SetTarget | app/src/main/java/com/example/howl/Utils.kt:293-319 | requires exactly one of rate and duration; starts from the current value; the duration is the distance over the rate (0 for a non-positive rate) or the given one (0 with no distance); a transition taking no time returns its callback at once and keeps none |
| Smoothing.SmoothedValue.SetImmediately | app/src/main/java/com/example/howl/Utils.kt:325-331 | jumps to the value, stops any transition and drops the pending callback |
| Smoothing.SmoothedValue.Update | app/src/main/java/com/example/howl/Utils.kt:333-341 | nothing happens unless a transition runs; otherwise time advances, the step that ends the transition returns the callback exactly once and leaves the value at the target; the value only moves towards the target |
| Smoothing.SmoothedValue.CompleteTransition | app/src/main/java/com/example/howl/Utils.kt:348-352 | the callback is taken out and none is left behind; nothing else changes |
| FrequencyConversion.Insert | app/src/main/java/com/example/howl/Utils.kt:363 | inserting into a sorted list keeps it sorted and adds exactly the new point |
| FrequencyConversion.SortByPosition | app/src/main/java/com/example/howl/Utils.kt:363 | the sorted list is a permutation of the points, ordered by position |
| FrequencyConversion.SortByPositionStable | app/src/main/java/com/example/howl/Utils.kt:363 | the sort is stable: for every position, the points at that position come out in the order they were given, as Kotlin's `sortedBy` keeps them |
| FrequencyConversion.InsertAtPosition | app/src/main/java/com/example/howl/Utils.kt:363 | inserting a point into a sorted list puts it behind every point already at its position |
| FrequencyConversion.Interpolate | app/src/main/java/com/example/howl/Utils.kt:390-408 | both interpolation kinds give each keyframe's frequency at its own position and a value between the two frequencies in between |
| FrequencyConversion.BracketUnique | app/src/main/java/com/example/howl/Utils.kt:374-381 | in a sorted list at most one interval holds the position, so the scan's answer does not depend on where it stops |
| FrequencyConversion.FrequencyConverter.constructor | app/src/main/java/com/example/howl/Utils.kt:355-364 | refuses an empty list and keeps the points sorted by position, as a permutation of the given ones |
| FrequencyConversion.FrequencyConverter.GetFrequency | app/src/main/java/com/example/howl/Utils.kt:366-385 | the answer is `IsFrequency` of the position: one point gives its frequency; at or before the first position the first frequency, at or after the last the last; in between the interpolation over the interval holding the position, which the scan always finds |
| FrequencyConversion.IsFrequencyUnique | app/src/main/java/com/example/howl/Utils.kt:366-385 | `IsFrequency` admits one frequency per position, so the converter's answer is determined |
| CyclicalWaves.CyclePhase | app/src/main/java/com/example/howl/CyclicalWave.kt:18-40 | for a non-negative time the phase is its fractional part, in [0, 1) |
| CyclicalWaves.TimesIncrease | app/src/main/java/com/example/howl/CyclicalWave.kt:13 | pairwise-increasing neighbours make every later keyframe strictly later |
| CyclicalWaves.IndexOfLast | app/src/main/java/com/example/howl/CyclicalWave.kt:65 | the index found is the last keyframe at or before the phase, or -1 when every keyframe is later |
| CyclicalWaves.IndexAtKeyframe | app/src/main/java/com/example/howl/CyclicalWave.kt:65 | at a keyframe's own time the search finds exactly that keyframe |
| CyclicalWaves.CyclicalWave.constructor | app/src/main/java/com/example/howl/CyclicalWave.kt:7-16 | a wave is built only from two or more keyframes with times in [0, 1), strictly increasing |
| CyclicalWaves.CyclicalWave.FindSurroundingPoints | app/src/main/java/com/example/howl/CyclicalWave.kt:61-87 | the bracket is strictly increasing in time and holds a phase in [0, 1); before the first keyframe it is (last, a cycle earlier; first), after the last (last; first, a cycle later), otherwise two neighbouring keyframes |
| CyclicalWaves.CyclicalWave.GetPosition | app/src/main/java/com/example/howl/CyclicalWave.kt:39-60 | a linear shape samples a value between the two surrounding keyframes' positions |
| CyclicalWaves.CyclicalWave.GetPositionAndVelocity | app/src/main/java/com/example/howl/CyclicalWave.kt:17-38 | the position agrees with getPosition |
| CyclicalWaves.SampleAtKeyframe | app/src/main/java/com/example/howl/CyclicalWave.kt:17-60 | sampling at a keyframe's time gives that keyframe's position, for Hermite and linear shapes |
| CyclicalWaves.FlatSegment | app/src/main/java/com/example/howl/CyclicalWave.kt:39-60 | a linear shape is constant over a segment whose two keyframes share a position |
| CyclicalWaves.FlatWrap | app/src/main/java/com/example/howl/CyclicalWave.kt:39-87 | a linear shape whose last and first keyframes share a position is constant across the cycle boundary |
| CyclicalWaves.VarianceFactor | app/src/main/java/com/example/howl/CyclicalWave.kt:131-137 | an amplitude jitter lies in (1 - variance, 1], a speed jitter in [1 - variance, 1 + variance) |
| CyclicalWaves.VarianceHandler.constructor | app/src/main/java/com/example/howl/CyclicalWave.kt:90-98 | both factors start at the initial factor, with no variance and no ease-in |
| CyclicalWaves.VarianceHandler.SetVariance | app/src/main/java/com/example/howl/CyclicalWave.kt:100-102 | sets the variance and nothing else |
| CyclicalWaves.VarianceHandler.SetEaseIn | app/src/main/java/com/example/howl/CyclicalWave.kt:104-106 | the ease-in is the argument clamped to [0, 1]; nothing else changes |
| CyclicalWaves.VarianceHandler.Draws | app/src/main/java/com/example/howl/CyclicalWave.kt:108-111 | a new cycle takes one draw, or none when there is no variance |
| CyclicalWaves.VarianceHandler.ApplyNewCycle | app/src/main/java/com/example/howl/CyclicalWave.kt:108-111 | the current factor becomes the previous one; the new factor is exactly 1 with no variance and otherwise a fresh jitter within its band |
| CyclicalWaves.VarianceHandler.GetInterpolatedFactor | app/src/main/java/com/example/howl/CyclicalWave.kt:113-116 | the blended factor lies between the previous and current factors; it is the current one with no ease-in or once the phase passes the ease-in, and the previous one at phase 0 |
| CyclicalWaves.Scale | app/src/main/java/com/example/howl/CyclicalWave.kt:197-210 | scaling by 1 changes nothing and a zero factor or sample gives 0 |
| CyclicalWaves.ScaledMotion | app/src/main/java/com/example/howl/CyclicalWave.kt:197-204 | the position is scaled by the amplitude, the velocity by amplitude and speed; zero amplitude gives no motion |
| CyclicalWaves.WaveManager.constructor | app/src/main/java/com/example/howl/CyclicalWave.kt:119-137 | a new manager has no waves, time 0, amplitude 1, cycle 0, no stop, speed resting at 1 and both jitter factors 1 with no variance |
| CyclicalWaves.WaveManager.CurrentAmplitude | app/src/main/java/com/example/howl/CyclicalWave.kt:139-143 | with both amplitude factors at 1 it is the base amplitude |
| CyclicalWaves.WaveManager.CurrentSpeed | app/src/main/java/com/example/howl/CyclicalWave.kt:145-149 | with both speed factors at 1 it is the eased base speed |
| CyclicalWaves.WaveManager.Amplitude | app/src/main/java/com/example/howl/CyclicalWave.kt:197-210 | without jitter the amplitude is the base amplitude |
| CyclicalWaves.WaveManager.AddWave | app/src/main/java/com/example/howl/CyclicalWave.kt:151-154 | the wave is stored under the given name or its own, replacing any wave of that name; the clock and stop state stay |
| CyclicalWaves.WaveManager.RemoveWave | app/src/main/java/com/example/howl/CyclicalWave.kt:156-158 | the named wave is gone; the clock and stop state stay |
| CyclicalWaves.WaveManager.GetWave | app/src/main/java/com/example/howl/CyclicalWave.kt:160-163 | present exactly when a wave of that name is stored, and then that wave |
| CyclicalWaves.WaveManager.GetPosition | app/src/main/java/com/example/howl/CyclicalWave.kt:206-210 | present exactly when the wave exists; without jitter it is the base amplitude times the wave's sample at the current time |
| CyclicalWaves.WaveManager.GetPositionAndVelocity | app/src/main/java/com/example/howl/CyclicalWave.kt:197-204 | present exactly when the wave exists |
| CyclicalWaves.PositionsAgree | app/src/main/java/com/example/howl/CyclicalWave.kt:197-210 | both samplers give the same position |
| CyclicalWaves.WaveManager.BeginUpdate | app/src/main/java/com/example/howl/CyclicalWave.kt:169-174 | nothing happens while stopped; otherwise the base speed eases on by delta, handing back its callback if that ends the easing |
| CyclicalWaves.WaveManager.FinishUpdate | app/src/main/java/com/example/howl/CyclicalWave.kt:176-195 | the clock moves by delta at the current speed; a new whole cycle records it and rolls both jitter factors, amplitude first; reaching the stop target pins the clock there, stops it and hands back the stop callback; waves, amplitude and target stay |
| CyclicalWaves.WaveManager.NextTimeAtSpeed | app/src/main/java/com/example/howl/CyclicalWave.kt:176-177 | the clock after a step is the clock plus the step times the current speed |
| CyclicalWaves.WaveManager.Step | app/src/main/java/com/example/howl/CyclicalWave.kt:169-188 | while stopped nothing changes and nothing is drawn; otherwise the base speed eases on, and the clock either reaches the stop target, where it is pinned and stopped and the stop callback is handed back, or moves by the step with no callback |
| CyclicalWaves.WaveManager.Update | app/src/main/java/com/example/howl/CyclicalWave.kt:169-188 | for a manager with no callbacks and no stop asked for: while stopped nothing changes; otherwise the base speed eases on and the clock moves by the step |
| CyclicalWaves.WaveManager.StopAtEndOfCycle | app/src/main/java/com/example/howl/CyclicalWave.kt:212-215 | the stop target is floor(currentTime + 1), later than now and at most one cycle ahead; the clock is untouched |
| CyclicalWaves.WaveManager.StopAfterIterations | app/src/main/java/com/example/howl/CyclicalWave.kt:217-220 | the stop target is floor(currentTime + n), which is n from a restarted clock |
| CyclicalWaves.WaveManager.Restart | app/src/main/java/com/example/howl/CyclicalWave.kt:222-226 | clears the stop target and the stopped flag and zeroes the clock; the cycle count, the waves and the stop callback stay |
| CyclicalWaves.WaveManager.SetSpeed | app/src/main/java/com/example/howl/CyclicalWave.kt:228-230 | the base speed is that speed at once, with no easing and no callback |
| CyclicalWaves.WaveManager.SetAmplitude | app/src/main/java/com/example/howl/CyclicalWave.kt:232-234 | sets the base amplitude; nothing else changes |
| CyclicalWaves.WaveManager.SetAmplitudeVariance | app/src/main/java/com/example/howl/CyclicalWave.kt:236-238 | the amplitude variance is the argument clamped to [0, 1]; the factors stay |
| CyclicalWaves.WaveManager.SetSpeedVariance | app/src/main/java/com/example/howl/CyclicalWave.kt:240-242 | the speed variance is the argument clamped to [0, 1]; the factors stay |
| CyclicalWaves.WaveManager.SetAmplitudeVarianceEaseIn | app/src/main/java/com/example/howl/CyclicalWave.kt:244-246 | the amplitude ease-in is clamped to [0, 1]; the rest of that handler stays |
| CyclicalWaves.WaveManager.SetSpeedVarianceEaseIn | app/src/main/java/com/example/howl/CyclicalWave.kt:248-250 | the speed ease-in is clamped to [0, 1]; the rest of that handler stays |
| CyclicalWaves.WaveManager.SetTargetSpeed | app/src/main/java/com/example/howl/CyclicalWave.kt:252-254 | the base speed is retargeted at the given rate with the given callback |
| CyclicalWaves.WaveManager.GetTargetSpeed | app/src/main/java/com/example/howl/CyclicalWave.kt:256-258 | the base speed's target |
| GeneratorWaves.TmaxInCycle | app/src/main/java/com/example/howl/GeneratorWaves.kt:3-4 | the small amount is positive and TMAX lies strictly inside (0, 1), so every catalogue time is in [0, 1) |
| GeneratorWaves.CatalogueValid | app/src/main/java/com/example/howl/GeneratorWaves.kt:6-213 | the catalogue holds 18 shapes and every one meets the wave constructor's checks |
| GeneratorWaves.CatalogueValidPart1 | app/src/main/java/com/example/howl/GeneratorWaves.kt:17-60 | Sawtooth, Triangle, Square, Constant and Fangs meet the constructor's checks |
| GeneratorWaves.CatalogueValidPart2 | app/src/main/java/com/example/howl/GeneratorWaves.kt:61-111 | the curvy shapes and the three attack shapes meet the constructor's checks |
| GeneratorWaves.CatalogueValidPart3 | app/src/main/java/com/example/howl/GeneratorWaves.kt:112-151 | Rising tide, Flourish and Jelly meet the constructor's checks |
| GeneratorWaves.CatalogueValidPart4 | app/src/main/java/com/example/howl/GeneratorWaves.kt:152-180 | Tap + slide and Double time meet the constructor's checks |
| GeneratorWaves.CatalogueValidPart5 | app/src/main/java/com/example/howl/GeneratorWaves.kt:181-212 | Triple trouble and Steps meet the constructor's checks |
| GeneratorWaves.ConstantIsOne | app/src/main/java/com/example/howl/GeneratorWaves.kt:43-50 | a wave of the Constant shape samples 1 at every time |
| GeneratorWaves.SquareHigh | app/src/main/java/com/example/howl/GeneratorWaves.kt:33-42 | a Square wave is 1 from the start of the cycle up to 0.5 - SMALL_AMOUNT |
| GeneratorWaves.SquareLow | app/src/main/java/com/example/howl/GeneratorWaves.kt:33-42 | a Square wave is 0 from 0.5 up to TMAX |
| Coyote.PeriodValue | app/src/main/java/com/example/howl/DGCoyote.kt:179-194 | a period of 5 to 1000 ms gives an unrounded value in [5, 240], the period itself up to 100 ms; any other period the fallback 10 |
| Coyote.PeriodFormulasAgree | app/src/main/java/com/example/howl/DGCoyote.kt:181-190 | the three formulas agree where their ranges meet, at 100 and 600 ms, and 1000 ms gives 240 |
| Coyote.PeriodValueMonotone | app/src/main/java/com/example/howl/DGCoyote.kt:181-194 | across all three ranges a longer period never gets a smaller value |
| Coyote.QuantizeFrequency | app/src/main/java/com/example/howl/DGCoyote.kt:176-196 | the device value is always within 5..240; a non-positive frequency gives the fallback 10; otherwise the formula for 1000 / frequency, rounded half up and clamped |
| Coyote.PeriodOfFrequency | app/src/main/java/com/example/howl/DGCoyote.kt:179 | frequencies of 1 to 200 Hz are periods of 5 to 1000 ms |
| Coyote.ClampIsInactive | app/src/main/java/com/example/howl/DGCoyote.kt:195 | the final clamp never changes the rounded value |
| Coyote.QuantizeMonotone | app/src/main/java/com/example/howl/DGCoyote.kt:176-196 | between 1 and 200 Hz a higher frequency never gets a larger device value |
| Coyote.AmplitudeByte | app/src/main/java/com/example/howl/DGCoyote.kt:211-212 | the amplitude byte is round(amplitude * 100) kept within 0..100: 0 at or below 0, 100 at or above 1 |
| Coyote.FrequencyByte | app/src/main/java/com/example/howl/DGCoyote.kt:203-208 | the frequency byte quantizes min + (max - min) * frequency |
| Coyote.FrequenciesA | app/src/main/java/com/example/howl/DGCoyote.kt:205-206 | one channel A frequency byte per sample, in order |
| Coyote.FrequenciesB | app/src/main/java/com/example/howl/DGCoyote.kt:207-208 | one channel B frequency byte per sample, in order |
| Coyote.AmplitudesA | app/src/main/java/com/example/howl/DGCoyote.kt:211 | one channel A amplitude byte per sample, in order, each at most 100 |
| Coyote.AmplitudesB | app/src/main/java/com/example/howl/DGCoyote.kt:212 | one channel B amplitude byte per sample, in order, each at most 100 |
| Coyote.PulseData | app/src/main/java/com/example/howl/DGCoyote.kt:198-219 | the data is channel A's frequencies and amplitudes followed by channel B's, or B's block first when the channels are swapped; four bytes per sample |
| Coyote.SwapIsChannelExchange | app/src/main/java/com/example/howl/DGCoyote.kt:214-217 | sending with the channels swapped is sending the samples with A and B exchanged |
| Coyote.SwapAll | app/src/main/java/com/example/howl/DGCoyote.kt:214-217 | every pulse, in order, with channels A and B exchanged |
| Coyote.PulseDataLayout | app/src/main/java/com/example/howl/DGCoyote.kt:214-217 | sample i's A frequency, A amplitude, B frequency and B amplitude sit at bytes i, 4 + i, 8 + i and 12 + i |
| Coyote.ParametersCommand | app/src/main/java/com/example/howl/DGCoyote.kt:292-305 | the parameter frame is 0xBF followed by the six parameters' low bytes in order |
| Coyote.ParametersCommandExact | app/src/main/java/com/example/howl/DGCoyote.kt:292-305 | parameters within 0..255 travel unchanged, and the defaults give BF 46 46 A0 A0 00 00 |
| Coyote.StrengthFlag | app/src/main/java/com/example/howl/DGCoyote.kt:228-239 | the flag is 0x1F exactly when either strength differs from the last reported one, and 0x00 exactly when neither does |
| Coyote.ReportedStrengthAsWritten | app/src/main/java/com/example/howl/DGCoyote.kt:429-430 | the status strength bytes are read as signed values: 128 and above read negative |
| Coyote.ReportedStrength | app/src/main/java/com/example/howl/DGCoyote.kt:429-432 | the corrected reading: the unsigned value of the byte, which gives back every strength 0..255 sent as a byte |
| Coyote.SignedStrengthMisread | app/src/main/java/com/example/howl/DGCoyote.kt:429-432 | with the signed reading a device strength of 150 is stored as -106, so the next pulse command still carries the update flag |
| Coyote.ReportedStrengthRoundTrip | app/src/main/java/com/example/howl/DGCoyote.kt:429-432 | with the unsigned reading every strength 0..200 is read back as itself, so an echoed strength clears the flag |
| Coyote.Device.constructor | app/src/main/java/com/example/howl/DGCoyote.kt:89-92 | the device starts disconnected, both previous strengths 0 and the default parameters |
| Coyote.Device.PulseCommand | app/src/main/java/com/example/howl/DGCoyote.kt:221-251 | nothing is sent unless there are exactly four samples; otherwise 20 bytes: 0xB0, the update flag, both strengths as bytes, then the pulse data |
| Coyote.Device.OnStatusNotification | app/src/main/java/com/example/howl/DGCoyote.kt:416-441 | only a 0xB1 report with bytes 1 to 3 present changes anything: it stores bytes 2 and 3 as the previous strengths, and reports them as power levels exactly when byte 1 is 0x00 |
| Coyote.Device.Disconnect | app/src/main/java/com/example/howl/DGCoyote.kt:543-555 | from any stage the device is Disconnected with both previous strengths 0 |
| Coyote.Device.Connect | app/src/main/java/com/example/howl/DGCoyote.kt:557-563 | acts only from Disconnected with the permissions granted: keeps the parameters and starts scanning, or disconnects at once when the adapter is off |
| Coyote.Device.OnScanResult | app/src/main/java/com/example/howl/DGCoyote.kt:510-518 | a found device moves the stage to ConnectToDevice |
| Coyote.Device.OnScanTimeout | app/src/main/java/com/example/howl/DGCoyote.kt:525-531 | a scan that times out disconnects |
| Coyote.Device.OnConnectionStateChange | app/src/main/java/com/example/howl/DGCoyote.kt:325-337 | connected moves to ServiceDiscovery, disconnected disconnects, any other state changes nothing |
| Coyote.Device.OnServicesDiscovered | app/src/main/java/com/example/howl/DGCoyote.kt:339-346 | discovered services move the stage to RegisterForStatusUpdates |
| Coyote.Device.OnDescriptorWrite | app/src/main/java/com/example/howl/DGCoyote.kt:349-373 | a successful subscription to the notify characteristic moves the stage to SyncParameters; anything else changes nothing |
| Coyote.Device.OnCharacteristicWrite | app/src/main/java/com/example/howl/DGCoyote.kt:376-399 | a successful write completes the connection only while syncing the parameters |
| Generator.LinearBetween | app/src/main/java/com/example/howl/Generator.kt:113-115 | the line through two points of different times is the linear interpolation between them |
| Generator.IndexOfFirstAfter | app/src/main/java/com/example/howl/Generator.kt:104 | the index found is the first point later than the time, or -1 when no point is later |
| Generator.LinearInterpolatePoints | app/src/main/java/com/example/howl/Generator.kt:103-112 | the first point's position before it, the last point's from the last time on, and between two neighbouring points the line through them |
| Generator.InterpolateAtPoint | app/src/main/java/com/example/howl/Generator.kt:103-115 | at a point's own time the result is that point's position |
| Generator.InterpolateOnPlateau | app/src/main/java/com/example/howl/Generator.kt:103-115 | between two neighbouring points of equal position the result is that position |
| Generator.CalculateWave | app/src/main/java/com/example/howl/Generator.kt:116-157 | each shape's value: sine and cosine around the middle with half the range, Sawtooth the line from min to max, Square max exactly before half the cycle (or when min equals max) and min from then on, Constant max, and the piecewise lines of Triangle, Trapezium and Fangs |
| Generator.CalculateWaveBounded | app/src/main/java/com/example/howl/Generator.kt:116-157 | every shape but sine and cosine stays between min and max over a cycle |
| Generator.InterpolateBounded | app/src/main/java/com/example/howl/Generator.kt:103-115 | a piecewise line through points within a range stays within it |
| Generator.ShapeLandmarks | app/src/main/java/com/example/howl/Generator.kt:130-156 | Triangle reaches max at 0.5, Trapezium is max on [0.4, 0.6], and Fangs is the middle at 0.5 |
| Generator.TrianglePoints | app/src/main/java/com/example/howl/Generator.kt:131-134 | the triangle's keyframes: non-empty with strictly increasing times |
| Generator.TrapeziumPoints | app/src/main/java/com/example/howl/Generator.kt:143-147 | the trapezium's keyframes: non-empty with strictly increasing times |
| Generator.FangsPoints | app/src/main/java/com/example/howl/Generator.kt:150-155 | the fangs' keyframes: non-empty with strictly increasing times |
| Generator.RelativeTime | app/src/main/java/com/example/howl/Generator.kt:160-163 | for a non-negative shifted time the relative time lies in [0, 1) |
| Generator.Generate | app/src/main/java/com/example/howl/Generator.kt:159-171 | frequency and amplitude are their shapes at the same relative time, and each stays within its bounds for the non-trigonometric shapes |
| Generator.GeneratePeriodic | app/src/main/java/com/example/howl/Generator.kt:159-171 | one period later the generator gives the same sample |
| Generator.GetPulseAtTime | app/src/main/java/com/example/howl/Generator.kt:172-176 | channel A's parameters give ampA and freqA, channel B's give ampB and freqB |
| Generator.ParametersDrawn | app/src/main/java/com/example/howl/Generator.kt:177-205 | the period is in [0.5, 10); a Constant wave gets equal amplitude bounds in [0.5, 1), any other one bound below 0.4 and one from 0.5 in either order; a Constant frequency shape gets equal frequency bounds; there is no time offset |
| Generator.DrawnPeriod | app/src/main/java/com/example/howl/Generator.kt:178-180 | the drawn period is in [0.5, 10) |
| Generator.DrawnAmplitudes | app/src/main/java/com/example/howl/Generator.kt:182-186 | one amplitude bound is below 0.4 and the other in [0.5, 1), swapped when the coin says so |
| Generator.ConstantLevel | app/src/main/java/com/example/howl/Generator.kt:198-201 | a Constant wave's level is one value in [0.5, 1) for both bounds |
| Generator.ParametersDraws | app/src/main/java/com/example/howl/Generator.kt:177-205 | the parameters take nine draws, ten exactly when the wave shape is Constant |
| Generator.RandomParameters | app/src/main/java/com/example/howl/Generator.kt:177-205 | the parameters are those the next draws determine, and exactly that many draws are taken |
| Player.GetNextTimes | app/src/main/java/com/example/howl/Player.kt:79-85 | four sample times, the first the given time, each one pulse time at the playback speed after the previous, strictly increasing at a positive speed |
| Player.LaterSample | app/src/main/java/com/example/howl/Player.kt:82-84 | a later sample index lands at a later time when the step is positive |
| Player.Inverted | app/src/main/java/com/example/howl/Player.kt:100-103 | an inverted frequency is 1 - f, otherwise f unchanged; a frequency in [0, 1] stays there |
| Player.Shaped | app/src/main/java/com/example/howl/Player.kt:104-112 | the developer shaping lies in [0, 1] and equals power times gain whenever that is already in [0, 1] |
| Player.Processed | app/src/main/java/com/example/howl/Player.kt:92-113 | without developer options only the inverted frequencies change; with them every amplitude and frequency is shaped, the frequencies also shifted by their adjustment, and all four lie in [0, 1] |
| Player.ApplyPostProcessing | app/src/main/java/com/example/howl/Player.kt:92-122 | the processed pulse, with channels exchanged exactly when swapChannels is set; with developer options every field is in [0, 1] |
| Player.InversionIsPerChannel | app/src/main/java/com/example/howl/Player.kt:100-103 | inversion changes only the inverted channel's frequency, and inverting twice restores it |
| Player.SwapAfterProcessing | app/src/main/java/com/example/howl/Player.kt:116-121 | swapping at the end equals processing the swapped pulse with the inversion flags exchanged |
| Player.GetPulseAtTime | app/src/main/java/com/example/howl/Player.kt:123-127 | the active source's pulse post-processed, or the post-processed zero pulse without a source, which stays zero without inversion or shaping |
| Player.LimitedPower | app/src/main/java/com/example/howl/DataRepository.kt:66-74 | a requested channel power is kept within 0..limit and unchanged when already inside |
| Player.PowerAutoIncrement.constructor | app/src/main/java/com/example/howl/Player.kt:72-73 | both tick counters start at zero |
| Player.PowerAutoIncrement.HandlePowerAutoIncrement | app/src/main/java/com/example/howl/Player.kt:173-197 | only when auto increase is on and not muted, a channel with power counts a tick; a counter reaching ten times its delay resets and the channel's power rises by one within its limit; otherwise counters and powers stay |
| Player.IncreaseStepsByOne | app/src/main/java/com/example/howl/Player.kt:186-193 | below the limit each filled counter raises power by exactly one, and at the limit power stays there |
| ActivityHosting.AbsentFirstCharacter | app/src/main/java/com/example/howl/ActivityHost.kt:118 | a name that lacks the first letter of "Calibration" cannot contain it |
| ActivityHosting.OccursAt | app/src/main/java/com/example/howl/ActivityHost.kt:118 | every placement of a substring is found by `contains` |
| ActivityHosting.SomeActivityAcceptable | app/src/main/java/com/example/howl/ActivityHost.kt:116-119 | whatever is running, some activity in the catalogue passes the redraw test, so the redraw loop can end |
| ActivityHosting.Elapsed | app/src/main/java/com/example/howl/ActivityHost.kt:66-70 | the step is never negative; an unset baseline or a clock that went backwards gives zero; otherwise baseline plus step is the new time |
| ActivityHosting.SwitchChance | app/src/main/java/com/example/howl/ActivityHost.kt:72 | the chance of a switch (per-minute setting, tripled, times minutes elapsed) is never negative and is zero when no time has passed |
| ActivityHosting.FirstStepAfterResetIsZero | app/src/main/java/com/example/howl/ActivityHost.kt:66-76 | after a reset baseline the next step and the switch chance are zero |
| ActivityHosting.CreateActivity | app/src/main/java/com/example/howl/ActivityHost.kt:110-114 | the activity created for an index is a fresh valid instance whose display name is that catalogue entry |
| ActivityHosting.CreateLick | app/src/main/java/com/example/howl/Activity.kt:22-36 | a fresh, valid instance whose display name is catalogue entry 0 |
| ActivityHosting.CreatePenetration | app/src/main/java/com/example/howl/Activity.kt:107-121 | a fresh, valid instance whose display name is catalogue entry 1 |
| ActivityHosting.CreateVibro | app/src/main/java/com/example/howl/Activity.kt:193-209 | a fresh, valid instance whose display name is catalogue entry 2 |
| ActivityHosting.CreateMilker | app/src/main/java/com/example/howl/Activity.kt:267-296 | a fresh, valid instance whose display name is catalogue entry 3 |
| ActivityHosting.CreateChaos | app/src/main/java/com/example/howl/Activity.kt:393-407 | a fresh, valid instance whose display name is catalogue entry 4 |
| ActivityHosting.CreateLuxuryHJ | app/src/main/java/com/example/howl/Activity.kt:446-461 | a fresh, valid instance whose display name is catalogue entry 5 |
| ActivityHosting.CreateOpposites | app/src/main/java/com/example/howl/Activity.kt:554-569 | a fresh, valid instance whose display name is catalogue entry 6 |
| ActivityHosting.CreateCalibration1 | app/src/main/java/com/example/howl/Activity.kt:630-638 | a fresh, valid instance whose display name is catalogue entry 7 |
| ActivityHosting.CreateCalibration2 | app/src/main/java/com/example/howl/Activity.kt:673-688 | a fresh, valid instance whose display name is catalogue entry 8 |
| ActivityHosting.CreateBJ | app/src/main/java/com/example/howl/Activity.kt:734-777 | a fresh, valid instance whose display name is catalogue entry 9, with `nextStage` run right after construction |
| ActivityHosting.CreateFastSlow | app/src/main/java/com/example/howl/Activity.kt:939-1000 | a fresh, valid instance whose display name is catalogue entry 10 |
| ActivityHosting.CreateAdditive | app/src/main/java/com/example/howl/Activity.kt:1057-1074 | a fresh, valid instance whose display name is catalogue entry 11 |
| ActivityHosting.DrawAcceptableIndex | app/src/main/java/com/example/howl/ActivityHost.kt:116-119 | the redraw ends on an acceptable activity, found by the last draw, every earlier draw having been rejected |
| ActivityHosting.ActivityHost.constructor | app/src/main/java/com/example/howl/ActivityHost.kt:40-53 | the host holds the first activity, named "Activity output", with both baselines unset |
| ActivityHosting.ActivityHost.ChangeActivity | app/src/main/java/com/example/howl/ActivityHost.kt:116-125 | the new activity is fresh, has a different name from the old one and does not contain "Calibration"; both baselines are reset and the shown name is the new one |
| ActivityHosting.ActivityHost.SetCurrentActivity | app/src/main/java/com/example/howl/ActivityHost.kt:103-108 | the chosen activity runs, both baselines are reset and the shown name is its name |
| ActivityHosting.ActivityHost.UpdateState | app/src/main/java/com/example/howl/ActivityHost.kt:66-78 | a draw below the switch chance switches to a different, non-calibration activity and resets the simulation baseline; otherwise the activity and simulation baseline stay and one draw is taken; the update baseline becomes the current time either way |
| ActivityHosting.ActivityHost.SetUpdateBaseline | app/src/main/java/com/example/howl/ActivityHost.kt:77 | only the update baseline changes |
| ActivityHosting.ActivityHost.Advance | app/src/main/java/com/example/howl/ActivityHost.kt:80-85 | the step is Elapsed from the old simulation baseline, which becomes the given time; nothing else changes |
| ActivityHosting.ActivityHost.GetPulseAtTime | app/src/main/java/com/example/howl/ActivityHost.kt:80-89 | the current activity stays and stays valid, and the pulse returned is its `getPulse` after its step; the simulation baseline becomes the given time and the update baseline is kept |
| ActivityHosting.ActivityHost.RunCurrent | app/src/main/java/com/example/howl/ActivityHost.kt:87-88 | the running activity took the step of `delta` as its own `Stepped` states, stays valid, and the pulse returned is its `getPulse` afterwards |
| ActivityHosting.RunActivity | app/src/main/java/com/example/howl/ActivityHost.kt:87-88 | for whichever kind of activity runs, the activity took the step as its own `Stepped` states and the pulse is its `getPulse` afterwards |
| ActivityHosting.RunLick | app/src/main/java/com/example/howl/Activity.kt:80-104 | the activity took the step as its `Stepped` states (the contract of its `RunSimulation`), stays valid, and the pulse is its own `getPulse` afterwards |
| ActivityHosting.RunPenetration | app/src/main/java/com/example/howl/Activity.kt:163-190 | the activity took the step as its `Stepped` states (the contract of its `RunSimulation`), stays valid, and the pulse is its own `getPulse` afterwards |
| ActivityHosting.RunVibro | app/src/main/java/com/example/howl/Activity.kt:248-264 | the activity runs its step and stays valid, and the pulse is its own `getPulse` afterwards |
| ActivityHosting.RunMilker | app/src/main/java/com/example/howl/Activity.kt:350-390 | the activity runs its step and stays valid, and the pulse is its own `getPulse` afterwards |
| ActivityHosting.RunChaos | app/src/main/java/com/example/howl/Activity.kt:427-443 | the activity took the step as its `Stepped` states (the contract of its `RunSimulation`), stays valid, and the pulse is its own `getPulse` afterwards |
| ActivityHosting.RunLuxuryHJ | app/src/main/java/com/example/howl/Activity.kt:505-551 | the activity took the step as its `Stepped` states (the contract of its `RunSimulation`), stays valid, and the pulse is its own `getPulse` afterwards |
| ActivityHosting.RunOpposites | app/src/main/java/com/example/howl/Activity.kt:610-627 | the activity took the step as its `Stepped` states (the contract of its `RunSimulation`), stays valid, and the pulse is its own `getPulse` afterwards |
| ActivityHosting.RunCalibration1 | app/src/main/java/com/example/howl/Activity.kt:655-670 | the activity took the step as its `Stepped` states (the contract of its `RunSimulation`), stays valid, and the pulse is its own `getPulse` afterwards |
| ActivityHosting.RunCalibration2 | app/src/main/java/com/example/howl/Activity.kt:715-731 | the activity took the step as its `Stepped` states (the contract of its `RunSimulation`), stays valid, and the pulse is its own `getPulse` afterwards |
| ActivityHosting.RunBJ | app/src/main/java/com/example/howl/Activity.kt:875-936 | the activity runs its step and stays valid, and the pulse is its own `getPulse` afterwards |
| ActivityHosting.RunFastSlow | app/src/main/java/com/example/howl/Activity.kt:1028-1054 | the activity took the step as its `Stepped` states (the contract of its `RunSimulation`), stays valid, and the pulse is its own `getPulse` afterwards |
| ActivityHosting.RunAdditive | app/src/main/java/com/example/howl/Activity.kt:1124-1144 | the activity took the step as its `Stepped` states (the contract of its `RunSimulation`), stays valid, and the pulse is its own `getPulse` afterwards |
| ActivityHosting.NewActivityHost | app/src/main/java/com/example/howl/ActivityHost.kt:50-64 | the host starts with an activity that is not a calibration, its name shown and both baselines unset |
| Lick.MaxLickSpeed | app/src/main/java/com/example/howl/Activity.kt:69-70 | the speed limit of a lick is 4.5 for no distance, 1.5 for the whole range, and lies between them in between |
| Lick.LickReps | app/src/main/java/com/example/howl/Activity.kt:73 | the number of cycles is the truncated product of time and speed, and at least one |
| Lick.LickPosition | app/src/main/java/com/example/howl/Activity.kt:91 | the lick position runs from the start point at wave position 0 to the end point at 1, staying between them |
| Lick.ScaledInsideCommuted | app/src/main/java/com/example/howl/Activity.kt:91 | a fraction of the way between two points stays between them |
| Lick.LickFrequencies | app/src/main/java/com/example/howl/Activity.kt:94-95 | channel A is 0.5 + 0.5 p and channel B 0.48 + 0.52 p, both within range for p in [0, 1] and both 1 at the lick's top |
| Lick.LickDrawn | app/src/main/java/com/example/howl/Activity.kt:64-73 | the direction from the first draw, the end points from the next two, a speed from 0.3 up to the distance's limit, and at least one cycle |
| Lick.DrawLick | app/src/main/java/com/example/howl/Activity.kt:64-73 | the lick takes five draws and is the one they determine |
| Lick.NewLickWaveManager | app/src/main/java/com/example/howl/Activity.kt:36-60 | the manager holds the bidirectional and unidirectional waves, with amplitude and speed jitter of 0.5 |
| Lick.LickPulse | app/src/main/java/com/example/howl/Activity.kt:85-104 | the frequencies follow the lick position; the amplitudes split the scaled speed between channels by the square roots of the position and its complement |
| Lick.LickActivity.constructor | app/src/main/java/com/example/howl/Activity.kt:22-62 | a valid activity named "Infinite licks", with its first lick started |
| Lick.LickActivity.NewLick | app/src/main/java/com/example/howl/Activity.kt:64-78 | the direction, end points, speed and cycle count are the ones drawn; the wave restarts at that speed and stops after that many cycles, calling newLick again |
| Lick.LickActivity.RunSimulation | app/src/main/java/com/example/howl/Activity.kt:80-83 | a step that reaches the stop target starts the next lick, the one determined by the five draws after those the step took; any other step moves the clock at the lick's unchanged speed and keeps its direction and end points |
| Lick.LickActivity.Dispatch | app/src/main/java/com/example/howl/Activity.kt:64-82 | the stop at the end of a lick starts the next lick: exactly five draws, and direction, end points, speed, cycle count and a clock at 0 are the ones they determine |
| Lick.LickActivity.GetPulse | app/src/main/java/com/example/howl/Activity.kt:85-104 | the pulse is the lick pulse for the current wave's position and velocity |
| Lick.LickActivity.UpdateWave | app/src/main/java/com/example/howl/Activity.kt:82 | the wave manager's update: reaching the stop target starts the lick drawn next; otherwise the clock moves at the unchanged speed and the lick stays |
| Chaos.NextCount | app/src/main/java/com/example/howl/Activity.kt:429-433 | one more step: the counter returns to zero exactly when it reaches the threshold and otherwise goes up by one |
| Chaos.CountReturns | app/src/main/java/com/example/howl/Activity.kt:429-433 | from zero the counter comes back to zero after exactly threshold steps and not before |
| Chaos.Iterate | app/src/main/java/com/example/howl/Activity.kt:429-433 | the counter after several steps is never negative |
| Chaos.ChaosActivity.constructor | app/src/main/java/com/example/howl/Activity.kt:407-410 | a valid activity named "Chaos" with its counter at zero; the four outputs are the first four draws, the step count in 1..10 the fifth, and the only timer the change timer set from the sixth |
| Chaos.ChaosActivity.Randomise | app/src/main/java/com/example/howl/Activity.kt:412-417 | the four outputs are the next four draws, in the order amplitude A, amplitude B, frequency A, frequency B; nothing else changes |
| Chaos.ChaosActivity.RandomiseEveryCyclesChangeStep | app/src/main/java/com/example/howl/Activity.kt:419-425 | the step count is the next draw picked from 1..10 and the change timer alone is set afresh from the draw after, for [10, 30) seconds; counter and outputs stay; two draws |
| Chaos.ChangeTimer | app/src/main/java/com/example/howl/Activity.kt:419-425 | the change timer set from a draw is fresh, runs [10, 30) seconds and calls the step-count change |
| Chaos.ChangeDraws | app/src/main/java/com/example/howl/Activity.kt:419-428 | a timer step takes two draws exactly when it ends the change timer and none otherwise |
| Chaos.ChaosActivity.RunSimulation | app/src/main/java/com/example/howl/Activity.kt:427-434 | the timers are stepped as `TimersStepped` says; the counter takes one step; a step that reaches the threshold resets it and redraws the four outputs from the four draws after the timers' draws, any other leaves them and takes only the timers' draws |
| Chaos.ChaosActivity.RunTimers | app/src/main/java/com/example/howl/Activity.kt:419-428 | when the step ends the change timer, the step count and the timer are redrawn from the next two draws; otherwise the timer counts down and the step count stays; the counter and the outputs are untouched either way |
| Chaos.ChaosActivity.GetPulse | app/src/main/java/com/example/howl/Activity.kt:436-443 | the pulse is the four drawn values, each in [0, 1] |
| Vibro.VibroPulse | app/src/main/java/com/example/howl/Activity.kt:253-264 | both frequencies are the vibrator's speed and the power 0.9 is split between channels so that the squares of the amplitudes add up to its square |
| Vibro.VibroActivity.constructor | app/src/main/java/com/example/howl/Activity.kt:193-218 | a valid activity named "Sliding vibrator" with the speed change scheduled |
| Vibro.VibroActivity.NewTarget | app/src/main/java/com/example/howl/Activity.kt:220-224 | target in [0, 1) and speed in [0.04, 0.3) are the next two draws; when the target differs from where the slider is, the slider eases from there to it over distance over speed seconds and reports its arrival, with the speed and timers unchanged |
| Vibro.VibroActivity.ScheduleSpeedChangeTimer | app/src/main/java/com/example/howl/Activity.kt:226-231 | the speed changes again in [5, 30) seconds; speed and target stay as they were |
| Vibro.VibroActivity.ScheduleHoldTimer | app/src/main/java/com/example/howl/Activity.kt:233-237 | the rest is the next draw in [0, 3); a rest of positive length sets the hold timer to it, with its callback the end of the hold, and changes nothing else |
| Vibro.VibroActivity.Dispatch | app/src/main/java/com/example/howl/Activity.kt:227-246 | a speed change draws a speed in [0, 1) and reschedules itself after the next draw in [5, 30), leaving the slider; the end of a hold aims at a new target; an arrival holds when its draw is below 0.5 and otherwise aims at a new target |
| Vibro.VibroActivity.RunSimulation | app/src/main/java/com/example/howl/Activity.kt:248-251 | the timers and then the slider run, keeping the activity valid |
| Vibro.VibroActivity.GetPulse | app/src/main/java/com/example/howl/Activity.kt:253-264 | the pulse is the vibrator pulse at the slider's position, the squares of its amplitudes adding up to 0.81 and its frequencies equal and in [0, 1] |
| Vibro.VibroActivity.InitializeWithRandomValues | app/src/main/java/com/example/howl/Activity.kt:213-218 | the activity stays valid and the speed change is scheduled |
| Vibro.VibroActivity.RunTimers | app/src/main/java/com/example/howl/Activity.kt:249 | the timers present at the start are stepped, each callback run as its timer ends |
| Vibro.VibroActivity.Visit | app/src/main/java/com/example/howl/Utils.kt:260-268 | one key of the timer loop: the loop's progress advances by one key |
| Vibro.VibroActivity.UpdateSlider | app/src/main/java/com/example/howl/Activity.kt:250 | a step that does not end the slider's move advances it and changes no timer and no draw; one that does runs the arrival: a hold when the draw is below 0.5, else a new target from where the move ended |
| Milker.WompPulse | app/src/main/java/com/example/howl/Activity.kt:362-370 | the position, mirrored when reversed, splits the power 0.9 between channels (squares adding up to 0.81) and sets both frequencies on [0, 0.7] |
| Milker.WompReverseMirrors | app/src/main/java/com/example/howl/Activity.kt:364 | the reversed womp equals the womp at the mirrored position |
| Milker.BuzzPulse | app/src/main/java/com/example/howl/Activity.kt:371-381 | each frequency is the phase's fraction of the way from its start to its end; the amplitudes are equal and rise from 0.8 to 0.9 with the wave |
| Milker.NewMilkerWaveManager | app/src/main/java/com/example/howl/Activity.kt:296-321 | the manager holds the womp and buzz waves and no callbacks |
| Milker.MilkerActivity.constructor | app/src/main/java/com/example/howl/Activity.kt:267-323 | a valid activity named "Milkmaster 3000", in the womp stage with no timer |
| Milker.MilkerActivity.WompStartStep | app/src/main/java/com/example/howl/Activity.kt:325-334 | the womp stage with no timer; the wave restarts at speed 0.3 easing to 2.5 over more than 14 and at most 22 seconds, and then asks to stop at the end of its cycle |
| Milker.MilkerActivity.BuzzStartStep | app/src/main/java/com/example/howl/Activity.kt:336-348 | the buzz stage with frequency A ends in [0, 0.3) and B ends in [0.7, 1); the wave restarts at a steady speed in [0.4, 0.8); the womp returns after [6, 12) seconds |
| Milker.MilkerActivity.EnterBuzz | app/src/main/java/com/example/howl/Activity.kt:337-341 | the stage becomes the buzz with the given frequency ends; nothing else changes |
| Milker.MilkerActivity.Dispatch | app/src/main/java/com/example/howl/Activity.kt:331-347 | the speed-up ends in a stop at the end of the current cycle that starts the buzz; the buzz start enters the buzz; the womp start enters the womp |
| Milker.MilkerActivity.RunSimulation | app/src/main/java/com/example/howl/Activity.kt:350-353 | the timers and then the wave run, keeping the activity valid |
| Milker.MilkerActivity.RunTimers | app/src/main/java/com/example/howl/Activity.kt:16-18 | the timers are stepped; the end of the buzz timer begins the womp, and otherwise the stage and the wave are unchanged |
| Milker.MilkerActivity.UpdateWave | app/src/main/java/com/example/howl/Activity.kt:352 | a stopped wave changes nothing; the buzz moves its clock and keeps its stage; the womp either moves its clock (with the stop at the end of the cycle asked for once its speed-up ends) or reaches the stop and the buzz begins |
| Milker.MilkerActivity.BuzzPhase | app/src/main/java/com/example/howl/Activity.kt:373 | the buzz phase lies in [0, 1], and below 1 while the buzz runs |
| Milker.MilkerActivity.GetPulse | app/src/main/java/com/example/howl/Activity.kt:355-390 | the womp pulse in the womp stage and the buzz pulse in the buzz stage, whose frequencies stay in their ranges |
| Milker.DrawBuzz | app/src/main/java/com/example/howl/Activity.kt:338-342 | five draws: frequency A ends in [0, 0.3), B ends in [0.7, 1), speed in [0.4, 0.8) |
| Milker.WompDuration | app/src/main/java/com/example/howl/Activity.kt:328-331 | a speed-up of 2.2 at a rate in [0.1, 0.15) lasts more than 14 and at most 22 seconds |
| Milker.MilkerActivity.FinishWave | app/src/main/java/com/example/howl/CyclicalWave.kt:176-188 | the rest of the wave's update: reaching the stop target begins the buzz; otherwise the clock moves and the stage stays |
| Milker.MilkerActivity.Visit | app/src/main/java/com/example/howl/Utils.kt:260-268 | one key of the timer loop: the loop's progress advances; a timer that ends begins the womp, any other leaves stage and wave |
| LuxuryHJ.BonusProbability | app/src/main/java/com/example/howl/Activity.kt:509-510 | the chance of a bonus in a step is never negative, and 60 times it is 0.7 times the step |
| LuxuryHJ.LuxuryPulse | app/src/main/java/com/example/howl/Activity.kt:521-551 | the stroke's amplitude is split by position, the frequencies run from 0.15 to 0.65 with A at 98%; a channel with a bonus moves 70% of the way to the bonus wave; frequencies stay in [0, 1] |
| LuxuryHJ.PlainStrokeKeepsPower | app/src/main/java/com/example/howl/Activity.kt:525-529 | without a bonus, the squares of the amplitudes add up to the square of the stroke's amplitude |
| LuxuryHJ.NewHJWaveManager | app/src/main/java/com/example/howl/Activity.kt:462-491 | the stroke: speed jitter 0.2, amplitude jitter 0.2 eased in fully, speed 0.5 |
| LuxuryHJ.NewBonusWaveManager | app/src/main/java/com/example/howl/Activity.kt:472-490 | the bonus wave: speed jitter 0.5, amplitude jitter 0.15, speed 1 |
| LuxuryHJ.LuxuryHJActivity.constructor | app/src/main/java/com/example/howl/Activity.kt:446-493 | a valid activity named "Luxury HJ" whose only timer is the speed change |
| LuxuryHJ.LuxuryHJActivity.SpeedChangeStep | app/src/main/java/com/example/howl/Activity.kt:495-503 | a target speed in [0.3, 3) with no callback, and the next change in [1, 20) seconds |
| LuxuryHJ.LuxuryHJActivity.RunSimulation | app/src/main/java/com/example/howl/Activity.kt:505-519 | the timers are ticked and then rolled on for the two bonuses from a later draw (`Rolled`); the stroke's clock moves and the bonus clock moves at the bonus speed it had; a due speed change retargets the stroke from its current speed into [0.3, 3), otherwise the stroke's speed eases on |
| LuxuryHJ.LuxuryHJActivity.RunTimers | app/src/main/java/com/example/howl/Activity.kt:16-18 | the timers are stepped; a due speed change retargets the stroke from its current speed into [0.3, 3), and otherwise the stroke's speed is unchanged |
| LuxuryHJ.LuxuryHJActivity.Dispatch | app/src/main/java/com/example/howl/Activity.kt:500-517 | the speed change retargets the stroke and reschedules itself; the end of a bonus changes nothing |
| LuxuryHJ.LuxuryHJActivity.UpdateHJ | app/src/main/java/com/example/howl/Activity.kt:507 | the stroke's speed eases on by the step and its clock moves; no draw is given back |
| LuxuryHJ.LuxuryHJActivity.UpdateBonus | app/src/main/java/com/example/howl/Activity.kt:508 | the bonus wave's speed eases on by the step without changing, and its clock moves; no draw is given back |
| LuxuryHJ.LuxuryHJActivity.RollBonus | app/src/main/java/com/example/howl/Activity.kt:511-518 | the roll is `BonusRoll`: a draw is always made; below the chance, with no bonus on the other channel, the bonus wave jumps to the next draw's speed in [1.5, 5) and this channel's bonus runs for the draw after's [10, 25) seconds; otherwise the timers stay and one draw is taken |
| LuxuryHJ.BonusRoll | app/src/main/java/com/example/howl/Activity.kt:511-518 | one roll takes one draw, or three exactly when the draw wins and the other channel has no bonus; then this channel's bonus is fresh for [10, 25) seconds and the bonus speed is in [1.5, 5); other timers are kept |
| LuxuryHJ.BonusRolls | app/src/main/java/com/example/howl/Activity.kt:509-518 | the two rolls take two to six draws, never leave both bonuses running when they were not, and keep every other timer |
| LuxuryHJ.LuxuryHJActivity.GetPulse | app/src/main/java/com/example/howl/Activity.kt:521-551 | the luxury pulse of the stroke without amplitude jitter and the bonus wave, never with both bonuses at once |
| LuxuryHJ.LuxuryHJActivity.RollBonuses | app/src/main/java/com/example/howl/Activity.kt:509-518 | the timers, the next draw and the bonus speed are those `BonusRolls` gives: channel A rolls first, then channel B from the draw after it |
| LuxuryHJ.LuxuryHJActivity.StartBonus | app/src/main/java/com/example/howl/Activity.kt:512-517 | the bonus wave jumps to the next draw in [1.5, 5) and this channel's bonus timer is set to the draw after, in [10, 25); two draws |
| LuxuryHJ.LuxuryHJActivity.Visit | app/src/main/java/com/example/howl/Utils.kt:260-268 | one key of the timer loop: the loop's progress advances; only a due speed change changes the stroke's speed |
| Opposites.OppositePulse | app/src/main/java/com/example/howl/Activity.kt:618-627 | channel A takes the values and channel B their complements, so each pair adds up to 1 and stays in [0, 1] |
| Opposites.OppositeIsSwap | app/src/main/java/com/example/howl/Activity.kt:619-620 | taking the complementary values is the same as swapping the channels |
| Opposites.OppositesActivity.constructor | app/src/main/java/com/example/howl/Activity.kt:554-573 | a valid activity named "Opposites" with the speed change scheduled |
| Opposites.OppositesActivity.GetChangeRate | app/src/main/java/com/example/howl/Activity.kt:575-578 | the rate lies in [0.15, 0.4) times the current overall speed and is positive |
| Opposites.OppositesActivity.NewAmplitudeTarget | app/src/main/java/com/example/howl/Activity.kt:600-608 | the target in [0, 1) is the next draw and the rate the draw after, in [0.15, 0.4) times the overall speed; when the target differs from the amplitude, the amplitude eases from where it was to the target at that rate and reports its arrival to set a new target |
| Opposites.OppositesActivity.NewFrequencyTarget | app/src/main/java/com/example/howl/Activity.kt:590-598 | the same for the frequency: a target in [0, 1) and a rate of [0.15, 0.4) times the overall speed from the next two draws, easing from where it was and reporting its arrival |
| Opposites.OppositesActivity.SpeedChangeStep | app/src/main/java/com/example/howl/Activity.kt:580-588 | the overall speed eases from its current value towards [0.5, 3); the next change comes in [10, 20) seconds; amplitude and frequency stay |
| Opposites.OppositesActivity.Dispatch | app/src/main/java/com/example/howl/Activity.kt:585-607 | the speed change retargets the overall speed and reschedules itself, leaving amplitude and frequency; an arrival of the amplitude or the frequency sets that one a new target and leaves the rest |
| Opposites.OppositesActivity.RunSimulation | app/src/main/java/com/example/howl/Activity.kt:610-616 | the timers are stepped; a due speed change retargets the overall speed from its current value into [0.5, 3), and otherwise the speed eases on; amplitude and frequency ease on by the step unless the step makes them arrive; an amplitude that arrives eases from its old target to the target and rate of the two draws right after the timers' draws, at the overall speed from before the step; a frequency that arrives does the same from two later draws |
| Opposites.OppositesActivity.UpdateValues | app/src/main/java/com/example/howl/Activity.kt:613-614 | the amplitude's update then the frequency's: a value that does not arrive eases on; an arriving amplitude is aimed from the next two draws, an arriving frequency from two draws at or after those, both at the current overall speed |
| Opposites.OppositesActivity.RunTimers | app/src/main/java/com/example/howl/Activity.kt:16-18 | the timers are stepped; a due speed change retargets the overall speed into [0.5, 3), and otherwise the speed is unchanged |
| Opposites.OppositesActivity.UpdateAmplitude | app/src/main/java/com/example/howl/Activity.kt:613 | a step that does not make the amplitude arrive eases it on and takes no draw; one that does sets a new target from where it arrived |
| Opposites.OppositesActivity.UpdateFrequency | app/src/main/java/com/example/howl/Activity.kt:614 | a step that does not make the frequency arrive eases it on and takes no draw; one that does sets a new target from where it arrived |
| Opposites.OppositesActivity.GetPulse | app/src/main/java/com/example/howl/Activity.kt:618-627 | the opposite pulse of the current amplitude and frequency, every field in [0, 1] |
| Opposites.OppositesActivity.UpdateSpeed | app/src/main/java/com/example/howl/Activity.kt:615 | the overall speed eases on by the step, with no callback |
| Opposites.OppositesActivity.Visit | app/src/main/java/com/example/howl/Utils.kt:260-268 | one key of the timer loop: the loop's progress advances; only a timer that ends changes the overall speed, retargeting it into [0.5, 3) |
| Calibration.NewCalibrationWaveManager | app/src/main/java/com/example/howl/Activity.kt:638-653 | the calibration wave at speed 0.25 with no jitter and no callbacks |
| Calibration.Calibration1Pulse | app/src/main/java/com/example/howl/Activity.kt:660-670 | both frequencies 0.5, and the power 0.9 split by position so that the squares add up to 0.81 |
| Calibration.Calibration1Activity.constructor | app/src/main/java/com/example/howl/Activity.kt:630-653 | a valid activity named "Calibration 1" whose wave runs at 0.25 |
| Calibration.Calibration1Activity.RunSimulation | app/src/main/java/com/example/howl/Activity.kt:655-658 | the wave's clock moves by the step at its steady speed and nothing stops it |
| Calibration.Calibration1Activity.GetPulse | app/src/main/java/com/example/howl/Activity.kt:660-670 | the calibration pulse at the wave's position, both frequencies 0.5 |
| Calibration.Next | app/src/main/java/com/example/howl/Utils.kt:84-88 | the following phase has the following ordinal, wrapping round |
| Calibration.PhasesCycle | app/src/main/java/com/example/howl/Activity.kt:682-686 | three phase changes come back to the same phase, and one or two do not |
| Calibration.Calibration2Pulse | app/src/main/java/com/example/howl/Activity.kt:720-731 | both frequencies follow the wave; channel A is driven (at 0.9) exactly outside the channel-B phase and channel B exactly outside the channel-A phase |
| Calibration.Calibration2Activity.constructor | app/src/main/java/com/example/howl/Activity.kt:673-706 | a valid activity named "Calibration 2" in the channel-A phase with the phase timer at 16 seconds |
| Calibration.Calibration2Activity.NextPhaseStep | app/src/main/java/com/example/howl/Activity.kt:708-713 | the phase moves to the next and its timer restarts from 16 seconds; the wave is untouched |
| Calibration.Calibration2Activity.RunSimulation | app/src/main/java/com/example/howl/Activity.kt:715-718 | the wave's clock moves by the step; a step that ends the phase timer moves to the next phase and restarts the timer at 16 seconds; any other step keeps the phase and counts the timer down |
| Calibration.Calibration2Activity.RunTimers | app/src/main/java/com/example/howl/Activity.kt:715-716 | the same split for the timer pass alone, leaving the wave untouched |
| Calibration.Calibration2Activity.GetPulse | app/src/main/java/com/example/howl/Activity.kt:720-731 | the calibration-2 pulse of the current phase and the wave's position |
| BJ.Ordinal | app/src/main/java/com/example/howl/Activity.kt:769-774 | each of the four stages has its own place below 4 in the listed order |
| BJ.StageAt | app/src/main/java/com/example/howl/Activity.kt:769-775 | the stage at a place is the one whose place it is, so a uniform index is a uniform stage |
| BJ.DurationRange | app/src/main/java/com/example/howl/Activity.kt:831-836 | a stage's duration range is non-empty and positive: 6 to 20 seconds for the licks, 20 to 60 for suck and deepthroat |
| BJ.SpeedRange | app/src/main/java/com/example/howl/Activity.kt:840-867 | a stage's starting speed range is non-empty and positive: [0.3, 1] full lick, [0.5, 3] tip lick, [0.2, 1.2] otherwise |
| BJ.SortedWithin | app/src/main/java/com/example/howl/Activity.kt:740-761 | sorting a converter's keyframes keeps every frequency inside the bounds the keyframes had |
| BJ.BoundedFrequency | app/src/main/java/com/example/howl/Activity.kt:915-926 | the answer is the converter's `IsFrequency` of the position, and it never lies outside the range of the keyframes' frequencies |
| BJ.LickPulse | app/src/main/java/com/example/howl/Activity.kt:886-906 | frequency B follows the position over [0.8, 1] and A sits 0.1 below it; the amplitudes are the positional split of the scaled speed, which keeps its power and stays below 1 |
| BJ.TipPosition | app/src/main/java/com/example/howl/Activity.kt:899 | the tip lick position always lies in [0.6, 1], and is the affine image of an in-range position |
| BJ.EngulfPulse | app/src/main/java/com/example/howl/Activity.kt:908-927 | each amplitude is the engulf effect of the wave amplitude at its own point, bounded by that amplitude and equal to it at the point; the frequencies are passed through |
| BJ.ChannelWithin | app/src/main/java/com/example/howl/Activity.kt:911-921 | a shape in [0, 1] scales an amplitude to something between 0 and the amplitude, and a full shape keeps it |
| BJ.NewConverter | app/src/main/java/com/example/howl/Activity.kt:740-761 | a valid smoothstep converter whose keyframe frequencies stay in the bounds of the given points |
| BJ.DrawNextStage | app/src/main/java/com/example/howl/Activity.kt:827-829 | the new stage differs from the previous one; it is the last draw, and every earlier draw gave the previous stage again |
| BJ.NewBJWaveManager | app/src/main/java/com/example/howl/Activity.kt:778-810 | a valid wave manager holding the position, bidirectional and unidirectional waves, running and with no stop pending |
| BJ.BJActivity.constructor | app/src/main/java/com/example/howl/Activity.kt:734-812 | the fields and waves of a new activity named "BJ megamix", before `init` runs `nextStage`: the stage is the one drawn for the field, no timer is set and the wave has not stopped |
| BJ.DrawStage | app/src/main/java/com/example/howl/Activity.kt:825-836 | the stage drawn differs from the previous one and is the pick of the last draw but one, every earlier pick having given the previous stage; its duration is the last draw, mapped into that stage's duration range |
| BJ.BJActivity.SpeedChangeStep | app/src/main/java/com/example/howl/Activity.kt:814-822 | the speed eases from where it is to a target in [0.2, 1.2), the next change comes in [1, 20) seconds, and the stage timer and the wave's stop are left alone |
| BJ.BJActivity.NextStageStep | app/src/main/java/com/example/howl/Activity.kt:824-873 | a different stage, picked by the last of the stage draws after every earlier one gave the old stage; the wave restarted; the stage timer is the next draw in the stage's duration range; lick jitter 0.4/0.3 at the speed of the draw after, held with no speed changes, or engulf jitter 0.2/0.2 starting at that draw's speed and easing to the target, with the next change timed, from the speed change's draws (`StageDrawn`) |
| BJ.BJActivity.BeginStage | app/src/main/java/com/example/howl/Activity.kt:838-872 | once the stage and its duration are drawn: the stage has begun, its timer is that duration, and its start took the draws `StartDrawn` names |
| BJ.BJActivity.EnterStage | app/src/main/java/com/example/howl/Activity.kt:838-867 | the wave restarts and the stage starts: its jitter, and its starting speed and any speed change from the next draws (`StartDrawn`), leaving every timer but the speed change |
| BJ.BJActivity.StartWave | app/src/main/java/com/example/howl/Activity.kt:841-865 | the stage's speed and amplitude jitter, no amplitude ease-in, and a steady speed that is the next draw mapped into the stage's speed range, taking one draw |
| BJ.BJActivity.EnterLick | app/src/main/java/com/example/howl/Activity.kt:840-853 | lick jitter, the next draw's speed in the lick's range held steady, and the speed-change timer cancelled with the other timers kept |
| BJ.BJActivity.EnterEngulf | app/src/main/java/com/example/howl/Activity.kt:854-867 | engulf jitter, a start speed from the next draw and a target speed from the draw after, both in [0.2, 1.2), and the speed-change timer set from the fourth draw, taking four draws |
| BJ.BJActivity.Dispatch | app/src/main/java/com/example/howl/Activity.kt:819-872 | the speed change retargets the speed and leaves the wave; the stage timer ending asks the wave to stop at the end of the current cycle, with the next stage as its callback, and changes nothing else |
| BJ.BJActivity.RunSimulation | app/src/main/java/com/example/howl/Activity.kt:875-878 | the timers, then the wave, keep the activity valid |
| BJ.BJActivity.UpdateWave | app/src/main/java/com/example/howl/Activity.kt:877 | with no stop asked for, the clock moves and the speed eases on; otherwise either that, or the stop is reached and a different stage begins |
| BJ.BJActivity.RunTimers | app/src/main/java/com/example/howl/Activity.kt:876 | the timers are stepped; the stage and the wave clock are kept |
| BJ.BJActivity.GetPulse | app/src/main/java/com/example/howl/Activity.kt:880-936 | the pulse of the current stage: the lick pulse of the unidirectional or bidirectional wave, or the engulf pulse of the position wave at points 0.7/0.4 or 0.8/0.3, with each converted frequency exactly the converter's `IsFrequency` of the position |
| BJ.BJActivity.FinishWave | app/src/main/java/com/example/howl/CyclicalWave.kt:176-188 | the rest of the wave's update: reaching the stop target begins a different stage; otherwise the clock moves and the stage stays |
| BJ.BJActivity.Visit | app/src/main/java/com/example/howl/Utils.kt:260-268 | one key of the timer loop: the loop's progress advances and the clock stays; a timer that does not end changes nothing of the wave; a due speed change retargets the speed into [0.2, 1.2); a due stage timer asks for the stop at the end of the cycle |
| FastSlow.SpeedPhase | app/src/main/java/com/example/howl/Activity.kt:1035 | the phase is 0 at the lowest speed, 1 at the highest and stays in [0, 1] between them |
| FastSlow.FastSlowPulse | app/src/main/java/com/example/howl/Activity.kt:1034-1054 | the amplitudes are the two wave positions in some order; for a phase in [0, 1] the frequencies are the phase and its complement (swapped by the frequency switch), in [0, 1] and adding up to 1 |
| FastSlow.SwitchingBothSwapsChannels | app/src/main/java/com/example/howl/Activity.kt:1043-1046 | flipping both switches gives the same pulse with channels A and B exchanged |
| FastSlow.IterationDuration | app/src/main/java/com/example/howl/Activity.kt:1012-1014 | a speed change rate in [0.1, 0.3) makes one sweep last more than 16 and at most 48.5 seconds |
| FastSlow.MaybeChangeWave | app/src/main/java/com/example/howl/Activity.kt:1018-1021 | below the 0.2 chance the wave is a fresh pick from the four; otherwise it stays |
| FastSlow.MaybeToggle | app/src/main/java/com/example/howl/Activity.kt:1022-1025 | below the 0.1 chance the switch flips; otherwise it stays |
| FastSlow.NewFastSlowWaveManager | app/src/main/java/com/example/howl/Activity.kt:1000-1004 | a valid manager holding all four waves, steady |
| FastSlow.NewFastSlowWaveManagers | app/src/main/java/com/example/howl/Activity.kt:1000-1004 | two separate managers, each holding all four waves |
| FastSlow.FastSlowActivity.constructor | app/src/main/java/com/example/howl/Activity.kt:939-1006 | a valid activity named "Fast/slow", accelerating after its first turn |
| FastSlow.FastSlowActivity.NextIterationStep | app/src/main/java/com/example/howl/Activity.kt:1008-1026 | the direction flips; with the first draw as the rate, the first manager sweeps from one extreme to the other (in 16 to 48.5 seconds) and hands back the turn at the end, while the second sweeps the other way over the same time; the waves and switches are those the following draws give, and exactly those draws are taken |
| FastSlow.FastSlowActivity.SetSpeeds | app/src/main/java/com/example/howl/Activity.kt:1013-1016 | the two managers sweep between the two extremes in opposite directions over the same time, the first in the present direction with the turn as its callback |
| FastSlow.FastSlowActivity.ChangeShapes | app/src/main/java/com/example/howl/Activity.kt:1018-1025 | each channel's wave and each switch become what the next draws give, in order, and exactly those draws are taken; the direction stays |
| FastSlow.FastSlowActivity.RunSimulation | app/src/main/java/com/example/howl/Activity.kt:1028-1032 | both clocks move by the step; the direction flips exactly when the first manager's speed reaches its extreme, and then the speeds are mirrored at the drawn rate and the waves reshaped (`Turned`); otherwise both speeds just ease on |
| FastSlow.FastSlowActivity.UpdateFirst | app/src/main/java/com/example/howl/Activity.kt:1030 | the first clock moves at the speed after any turn; when the speed reaches its extreme the turn happens with the next draws, otherwise the speed eases on and nothing else of the activity changes |
| FastSlow.FastSlowActivity.UpdateSecond | app/src/main/java/com/example/howl/Activity.kt:1031 | the second manager's speed eases on without a callback and its clock moves at that speed |
| FastSlow.FastSlowActivity.GetPulse | app/src/main/java/com/example/howl/Activity.kt:1034-1054 | the fast/slow pulse of the first manager's phase and the two chosen waves; the frequencies stay in [0, 1] and add up to 1 |
| FastSlow.NextShapes | app/src/main/java/com/example/howl/Activity.kt:1018-1025 | the waves and switches are exactly the shape draw of the next draws, which takes four to six draws |
| FastSlow.WaveDrawn | app/src/main/java/com/example/howl/Activity.kt:1018-1021 | a channel's wave stays among the four, takes one or two draws, and changes only when the first draw is below 0.2 |
| FastSlow.ShapesDrawn | app/src/main/java/com/example/howl/Activity.kt:1018-1025 | both waves stay among the four; four to six draws are taken, and the last two flip the switch and the frequency switch when below 0.1 |
| Additive.RandomWaveShape | app/src/main/java/com/example/howl/Activity.kt:1085-1094 | the random wave's shape, rising to 0.9 at the given point, is one the wave accepts and is named "main" |
| Additive.RandomWave | app/src/main/java/com/example/howl/Activity.kt:1083-1096 | a new valid "main" wave whose shape peaks at the point drawn uniformly from [0.01, 0.99) by exactly one draw |
| Additive.Mix | app/src/main/java/com/example/howl/Activity.kt:1133-1136 | proportion 1 gives the first position and 0 the second; a proportion in [0, 1] keeps the output between the two positions; equal positions give that position |
| Additive.MixSymmetric | app/src/main/java/com/example/howl/Activity.kt:1133-1136 | mixing the other way round with the complementary proportion gives the same output |
| Additive.AdditivePulse | app/src/main/java/com/example/howl/Activity.kt:1130-1144 | each of the four outputs is its own mix of the two positions; equal positions give a pulse of that position on every output |
| Additive.NewAdditiveWaveManager | app/src/main/java/com/example/howl/Activity.kt:1075-1076 | a valid manager whose only wave is "main", shaped from one draw, with no stop and no speed callback |
| Additive.MaybeReplaceWave | app/src/main/java/com/example/howl/Activity.kt:1104-1107 | a draw at or above 0.3 leaves the waves as they were; below it "main" alone is replaced by a random wave peaking at the second draw; the draws taken are counted and the clock and stop state are untouched |
| Additive.NewAdditiveWaveManagers | app/src/main/java/com/example/howl/Activity.kt:1075-1078 | two separate quiet managers, the first's wave from the first draw, the second's from the second, and their steady speeds from the third and fourth in [0.05, 3); four draws |
| Additive.AdditiveActivity.constructor | app/src/main/java/com/example/howl/Activity.kt:1057-1078 | a valid activity named "Additive" with no timer yet: the four proportions are the first four draws, the two waves peak at the next two, and the two speeds are the two after in [0.05, 3); eight draws |
| Additive.AdditiveActivity.SpeedChangeStep | app/src/main/java/com/example/howl/Activity.kt:1113-1122 | the first draw picks the manager (below 0.5 the first), which eases from its current speed to the second draw's speed at the third draw's rate while the other keeps its speed; the "speedChange" timer alone is reset to the fourth draw's delay in [10, 30) |
| Additive.AdditiveActivity.Retarget | app/src/main/java/com/example/howl/Activity.kt:1113-1118 | the speed retarget of the four draws from the current one (`SpeedRetargeted`): the first picks the manager, the next two its target and rate; the fourth is the delay in [10, 30) returned |
| Additive.AdditiveActivity.ProportionChangeStep | app/src/main/java/com/example/howl/Activity.kt:1098-1111 | the four proportions are the next four draws, the fifth is the delay in [10, 50) that the "proportionChange" timer alone is reset to, then each manager in turn may get a new wave; speeds and clocks are untouched |
| Additive.AdditiveActivity.Redraw | app/src/main/java/com/example/howl/Activity.kt:1099-1107 | the draws of a proportion change in order: four proportions, the delay returned, then the two wave rolls |
| Additive.AdditiveActivity.SetProportions | app/src/main/java/com/example/howl/Activity.kt:1099-1102 | the four proportions take exactly the given values |
| Additive.AdditiveActivity.RollWaves | app/src/main/java/com/example/howl/Activity.kt:1104-1107 | the first manager's wave roll, then the second's from the draw after it; the clocks are untouched |
| Additive.AdditiveActivity.Dispatch | app/src/main/java/com/example/howl/Activity.kt:1108-1121 | the "speedChange" callback performs exactly a speed change and leaves the proportions and waves alone; the "proportionChange" callback performs exactly a proportion change and leaves the speeds alone |
| Additive.AdditiveActivity.RunSimulation | app/src/main/java/com/example/howl/Activity.kt:1124-1128 | every timer is stepped; unless the speed change comes due both speeds ease on alone; unless the proportion change comes due both clocks move at their speeds with their waves and the proportions stay |
| Additive.AdditiveActivity.UpdateManagers | app/src/main/java/com/example/howl/Activity.kt:1126-1127 | the first manager's update then the second's: each speed eases on and each clock moves at its speed |
| Additive.AdditiveActivity.UpdateFirst | app/src/main/java/com/example/howl/Activity.kt:1126 | the first manager's speed eases on and its clock moves at that speed |
| Additive.AdditiveActivity.UpdateSecond | app/src/main/java/com/example/howl/Activity.kt:1127 | the second manager's speed eases on and its clock moves at that speed |
| Additive.AdditiveActivity.RunTimers | app/src/main/java/com/example/howl/Activity.kt:16-18 | every timer is stepped; the speeds are untouched unless the speed change comes due, the proportions and managers unless the proportion change does; the clocks never move |
| Additive.AdditiveActivity.Visit | app/src/main/java/com/example/howl/Utils.kt:260-268 | one key of the timer loop: the loop's progress advances and a callback changes only what it owns |
| Additive.AdditiveActivity.GetPulse | app/src/main/java/com/example/howl/Activity.kt:1130-1144 | the additive pulse of the two "main" positions, so every output lies between the two positions |
| Additive.DrawProportionChange | app/src/main/java/com/example/howl/Activity.kt:1099-1103 | the four proportions are exactly the next four draws, and the delay is the fifth mapped into [10, 50) |
| Additive.MaybeReplaceWaves | app/src/main/java/com/example/howl/Activity.kt:1104-1107 | the first manager's wave roll, then the second's from the draw after it, the clocks untouched |
| Additive.DrawSpeedChange | app/src/main/java/com/example/howl/Activity.kt:1114-1118 | the first manager is picked exactly when the first draw is below 0.5; speed, rate and delay are the next three draws mapped into [0.05, 3), [0.03, 0.2) and [10, 30) |
| Additive.DrawProportions | app/src/main/java/com/example/howl/Activity.kt:1099-1102 | the four proportions are the next four draws, in the order A, B, frequency A, frequency B |
| Penetration.AmplitudeFactor | app/src/main/java/com/example/howl/Activity.kt:173-174 | the factor is 0.8 at speed 0.3, 1 at speed 3 and stays in [0.8, 1] between them |
| Penetration.PenetrationPulse | app/src/main/java/com/example/howl/Activity.kt:169-190 | both frequencies are the feel-bent bases held in [0, 1]; channel A's amplitude is the position scaled by the speed factor, B's mixes in the scaled velocity; for an in-range position and speed both amplitudes stay in [0, 1] |
| Penetration.PulseBounds | app/src/main/java/com/example/howl/Activity.kt:181-182 | an in-range position, scaled velocity and speed keep both amplitudes in [0, 1] |
| Penetration.NewPenetrationWaveManager | app/src/main/java/com/example/howl/Activity.kt:122-136 | a valid manager holding only the "penetration" wave, with speed jitter 0.2 and amplitude jitter 0.1 |
| Penetration.PenetrationActivity.constructor | app/src/main/java/com/example/howl/Activity.kt:107-141 | a valid activity named "Penetration" whose speed starts at 0.15 easing to 0.5; the feel exponent starts at the first draw in [1, 2) and eases to the feel change's target; the only timers are the speed change, timed by the fourth draw, and the feel change, timed by the seventh; seven draws are taken |
| Penetration.PenetrationActivity.Begin | app/src/main/java/com/example/howl/Activity.kt:137-140 | from no timers: both changes scheduled from the next six draws, the speed change's timer from the third and the feel change's target and timer from the fourth and sixth; the exponent eases from where it was; then the speed set to 0.15 easing to 0.5 |
| Penetration.PenetrationActivity.SpeedChangeStep | app/src/main/java/com/example/howl/Activity.kt:143-151 | a target speed in [0.3, 3); the next change in [1, 20) seconds with its own callback; the other timer and the feel target kept |
| Penetration.PenetrationActivity.FeelChangeStep | app/src/main/java/com/example/howl/Activity.kt:153-161 | the exponent eases from where it is to a target in [1, 2); the next change in [2, 10) seconds with its own callback; the other timer kept |
| Penetration.PenetrationActivity.Dispatch | app/src/main/java/com/example/howl/Activity.kt:148-160 | the speed change retargets the stroke and leaves the feel, the feel change retargets the exponent and leaves the stroke; either one sets its own timer afresh and leaves the other |
| Penetration.PenetrationActivity.RunSimulation | app/src/main/java/com/example/howl/Activity.kt:163-167 | the timers are stepped and the stroke's clock moves; a due speed change retargets the stroke from its current speed into [0.3, 3), otherwise the speed eases on; a due feel change retargets the exponent into [1, 2), otherwise it eases on |
| Penetration.PenetrationActivity.UpdateFeel | app/src/main/java/com/example/howl/Activity.kt:165 | the exponent eases on by the step, with no callback |
| Penetration.PenetrationActivity.UpdateStroke | app/src/main/java/com/example/howl/Activity.kt:166 | the stroke's speed eases on by the step and its clock moves |
| Penetration.PenetrationActivity.RunTimers | app/src/main/java/com/example/howl/Activity.kt:164 | the timers are stepped; each change that comes due retargets its value, and a change not due leaves its value unchanged |
| Penetration.PenetrationActivity.GetPulse | app/src/main/java/com/example/howl/Activity.kt:169-190 | the penetration pulse of the stroke's position and velocity, the current speed and the feel exponent, which stays in [1, 2]; frequencies in [0, 1] |
| Penetration.PenetrationActivity.Visit | app/src/main/java/com/example/howl/Utils.kt:260-268 | one key of the timer loop: the loop's progress advances; a timer that ends retargets only its own value |
| Funscript.Positions | app/src/main/java/com/example/howl/Funscript.kt:125 | one position per action, in order |
| Funscript.Minimum | app/src/main/java/com/example/howl/Funscript.kt:126 | the least of a non-empty list of positions, and one of them |
| Funscript.Maximum | app/src/main/java/com/example/howl/Funscript.kt:127 | the greatest of a non-empty list of positions, and one of them |
| Funscript.PositionRange | app/src/main/java/com/example/howl/Funscript.kt:126-127 | the header's bounds where given; otherwise the lowest and highest position used; otherwise 0 and 100 |
| Funscript.ScaledPosition | app/src/main/java/com/example/howl/Funscript.kt:128-137 | every scaled position lies in [0, 1]; the lower bound goes to 0 and the upper to 1, clamped outside, linear in between; an empty range divides by 100 |
| Funscript.ScaledActions | app/src/main/java/com/example/howl/Funscript.kt:135-139 | one scaled action per action, its time in seconds and its position scaled |
| Funscript.Slope | app/src/main/java/com/example/howl/Funscript.kt:147-151 | the secant slope, times the time step, is the position step; a zero time step gives 0 |
| Funscript.Velocity | app/src/main/java/com/example/howl/Funscript.kt:141-156 | a lone point has velocity 0; the ends take the secant to their neighbour; an inner point lies between its two secant slopes |
| Funscript.VelocityOnALine | app/src/main/java/com/example/howl/Funscript.kt:141-156 | points on a straight line with distinct times all get the line's slope as velocity |
| Funscript.PositionVelocities | app/src/main/java/com/example/howl/Funscript.kt:141-156 | each point's position paired with its velocity estimate, in order |
| Funscript.Times | app/src/main/java/com/example/howl/Funscript.kt:158-159 | the time of each scaled action, in order |
| Funscript.PositionAndVelocityAt | app/src/main/java/com/example/howl/Funscript.kt:59-78 | nothing stored gives rest at 0; before the first point or from the last one on, that point's position at rest; stored positions in [0, 1] keep the result in [0, 1] |
| Funscript.LookupBetweenPoints | app/src/main/java/com/example/howl/Funscript.kt:65-75 | between two neighbouring points: rest at the first position when both are equal, otherwise the Hermite curve through them with its position clamped to [0, 1] |
| Funscript.LookupAtKey | app/src/main/java/com/example/howl/Funscript.kt:59-78 | at a stored point's own time the lookup gives that point's position |
| Funscript.PulseFor | app/src/main/java/com/example/howl/Funscript.kt:87-103 | a stroke at rest is silent; the frequencies are the feel-bent earlier and current positions, in [0, 1]; the two amplitudes share the speed-based amplitude's power and neither exceeds it |
| Funscript.PowerOfSplit | app/src/main/java/com/example/howl/Funscript.kt:93 | the positional split keeps the amplitude's power and, for a non-negative amplitude, bounds each channel by it |
| Funscript.GetPulseAtTime | app/src/main/java/com/example/howl/Funscript.kt:80-104 | the pulse for the motion at the time, channel A's frequency from the offset time; with in-range settings every field lies in [0, 1] |
| Funscript.Timeline | app/src/main/java/com/example/howl/Funscript.kt:158-160 | the map after storing every point in order: sorted, holding exactly the points' times |
| Funscript.FunscriptPulseSource.constructor | app/src/main/java/com/example/howl/Funscript.kt:40-47 | an empty source that is not ready and has no duration |
| Funscript.FunscriptPulseSource.Store | app/src/main/java/com/example/howl/Funscript.kt:158-160 | the stored data is the map after putting each value under its time in order; every stored position stays in [0, 1] |
| Funscript.FunscriptPulseSource.Open | app/src/main/java/com/example/howl/Funscript.kt:108-171 | a file over 20 MB or one that does not decode is refused and leaves nothing stored; a script with no actions fails; otherwise the timeline of the scaled points is stored, the source is ready and the duration is the latest point's time |
| Funscript.ScaledInUnit | app/src/main/java/com/example/howl/Funscript.kt:137 | every scaled position lies in [0, 1] |
| Funscript.LatestTime | app/src/main/java/com/example/howl/Funscript.kt:168 | the last key of a non-empty script's timeline is the time of its latest action |
| Funscript.StoredInUnit | app/src/main/java/com/example/howl/Funscript.kt:158-160 | storing only positions in [0, 1] leaves only positions in [0, 1] in the map |
| Funscript.FunscriptPulseSource.Load | app/src/main/java/com/example/howl/Funscript.kt:125-170 | a script with points stores the timeline of its scaled points, becomes ready, and its duration is the time of its latest action |
| TreeMaps.AsMapCons | app/src/main/java/com/example/howl/Funscript.kt:47 | a sorted entry list read as a map: the first entry adds its key to the rest |
| TreeMaps.KeySetCons | app/src/main/java/com/example/howl/Funscript.kt:47 | the keys of an entry list are its first key and the keys of the rest |
| TreeMaps.Prepend | app/src/main/java/com/example/howl/Funscript.kt:159 | an entry in front of entries with greater keys keeps the list sorted and adds its key |
| TreeMaps.Insert | app/src/main/java/com/example/howl/Funscript.kt:159 | `put` keeps the entries sorted, adds the key to the key set, and leaves every entry either the new one or one that was there |
| TreeMaps.InsertAsMap | app/src/main/java/com/example/howl/Funscript.kt:159 | read as a map, `put` sets the key to the new value and every other key keeps its value |
| TreeMaps.FloorEntry | app/src/main/java/com/example/howl/Funscript.kt:52 | `floorEntry` is absent exactly when every key is above the time; otherwise a stored entry at or below the time, and the greatest such |
| TreeMaps.HigherEntry | app/src/main/java/com/example/howl/Funscript.kt:53 | `higherEntry` is absent exactly when every key is at or below the time; otherwise a stored entry above the time, and the least such |
| TreeMaps.FloorAtKey | app/src/main/java/com/example/howl/Funscript.kt:52 | at a stored key, the floor is that key's own entry |
| TreeMaps.BetweenNeighbours | app/src/main/java/com/example/howl/Funscript.kt:51-57 | between two neighbouring keys, the floor is the lower entry and the higher entry the upper one |
| TreeMaps.FloorPastLast | app/src/main/java/com/example/howl/Funscript.kt:52 | at or past the last key, the floor is the last entry |
| TreeMaps.HigherBeforeFirst | app/src/main/java/com/example/howl/Funscript.kt:53 | before the first key, the higher entry is the first entry |
| TreeMaps.Neighbours | app/src/main/java/com/example/howl/Funscript.kt:51-57 | the closest points around a time, in terms of positions in the list, at every place at once |
| TreeMaps.LastKey | app/src/main/java/com/example/howl/Funscript.kt:168 | `lastKey` is a stored key and no stored key is greater |
| TreeMaps.FromPairs | app/src/main/java/com/example/howl/Funscript.kt:158-160 | the map after putting every pair in order is sorted and holds exactly the keys put |
| TreeMaps.FromPairsValues | app/src/main/java/com/example/howl/Funscript.kt:158-160 | every stored value is one of the values put |
| TreeMaps.FromPairsStep | app/src/main/java/com/example/howl/Funscript.kt:158-160 | one more pair is one more `put` |
| TreeMaps.LastPutWins | app/src/main/java/com/example/howl/Funscript.kt:159 | a key put several times keeps the value of its last `put` |
| Hwl.RecordAt | app/src/main/java/com/example/howl/HWL.kt:52-56 | the four floats read from sixteen bytes, in order, lay out those same bytes again |
| Hwl.RecordOfBytes | app/src/main/java/com/example/howl/HWL.kt:52-56 | reading a record's own bytes gives the record back |
| Hwl.Records | app/src/main/java/com/example/howl/HWL.kt:48-57 | one record per whole sixteen bytes at the front of the body |
| Hwl.RecordsExtend | app/src/main/java/com/example/howl/HWL.kt:48-57 | a whole record more of input is one record more, appended at the end |
| Hwl.RecordsIgnoreTail | app/src/main/java/com/example/howl/HWL.kt:48-51 | bytes after the last whole record do not change the records read |
| Hwl.Serialise | app/src/main/java/com/example/howl/HWL.kt:52-56 | sixteen bytes per record |
| Hwl.RecordsOfSerialise | app/src/main/java/com/example/howl/HWL.kt:48-57 | reading back the bytes of a list of records gives the same records |
| Hwl.SerialiseOfRecords | app/src/main/java/com/example/howl/HWL.kt:48-57 | a body of whole records is the bytes of the records read from it |
| Hwl.Parse | app/src/main/java/com/example/howl/HWL.kt:36-57 | a file without the "YEAHBOI!" header fails; a body that is not whole records fails; a success holds one record per sixteen bytes and lays out the body again |
| Hwl.PulseIndex | app/src/main/java/com/example/howl/HWL.kt:19-31 | the index is always in range; within the data it is the record whose 0.025 s slot holds the time; before the start the first and after the end the last |
| Hwl.Decoded | app/src/main/java/com/example/howl/HWL.kt:52-56 | a record's pulse is its four floats, read by the given decoder in the order ampA, ampB, freqA, freqB |
| Hwl.HwlPulseSource.constructor | app/src/main/java/com/example/howl/HWL.kt:8-15 | an empty source with no duration, not ready |
| Hwl.HwlPulseSource.GetPulseAtTime | app/src/main/java/com/example/howl/HWL.kt:19-32 | no records give the all-zero pulse; otherwise the record at the clamped index |
| Hwl.HwlPulseSource.Open | app/src/main/java/com/example/howl/HWL.kt:34-64 | fails exactly when the file does not parse; a good header appends every whole record to what was held even when a partial one follows; success makes the source ready with a duration of 0.025 s per record |
| HwlScript.Normalise | python/hwl.py:22-29 | the result lies in [0, 1]: values at or below the minimum give 0, at or above the maximum 1, and linear in between |
| HwlScript.NormaliseMonotone | python/hwl.py:22-29 | normalising keeps the order of two values |
| HwlScript.NormaliseArray | python/hwl.py:22-29 | each value normalised in place: same length, every entry in [0, 1], the clipped ends at 0 and 1, and the order of the values kept |
| HwlScript.PackedRecords | python/hwl.py:64-65 | pulse i takes its four floats from position i of each series, in the order left amplitude, right amplitude, left frequency, right frequency |
| HwlScript.WriteOutputFile | python/hwl.py:44-65 | series of different lengths are refused, then empty ones; otherwise the output is the "YEAHBOI!" header followed by one sixteen-byte record per position |
| HwlScript.WrittenFileReadsBack | python/hwl.py:44-65 | a file the script writes is accepted by the player's reader and gives back exactly the records written, one per pulse |
| FileReader.HwlReader.constructor | app/src/main/java/com/example/howl/FileReader.kt:50-51 | an empty reader, not ready |
| FileReader.HwlReader.GetPulseAtTime | app/src/main/java/com/example/howl/FileReader.kt:53-66 | no records give the all-zero pulse; otherwise the record at the clamped index, as in the HWL player |
| FileReader.HwlReader.Open | app/src/main/java/com/example/howl/FileReader.kt:68-96 | fails exactly when the file does not parse; a good header appends every whole record; success makes the reader ready and returns 0.025 s per record held |
| FileReader.LinearPositionAndVelocityAt | app/src/main/java/com/example/howl/FileReader.kt:124-140 | nothing stored gives rest at 0; before the first point or from the last one on, that point's position at rest |
| FileReader.LineThrough | app/src/main/java/com/example/howl/FileReader.kt:133-137 | the velocity is the slope between the points; between them the position is the linear interpolation, lies between the two positions, and meets each point at its time |
| FileReader.LinearBetweenPoints | app/src/main/java/com/example/howl/FileReader.kt:127-138 | between two neighbouring points the lookup follows the line through them |
| FileReader.SpeedAmplitude | app/src/main/java/com/example/howl/FileReader.kt:155-159 | still below the 0.01 threshold; once moving in [0.4, 1], reaching 1 from speed 5 |
| FileReader.SpeedAmplitudeMonotone | app/src/main/java/com/example/howl/FileReader.kt:155-159 | once moving, a faster stroke never plays weaker |
| FileReader.BiasedChannels | app/src/main/java/com/example/howl/FileReader.kt:166-176 | the squares of the two channels add up to the square of the amplitude; no bias gives equal channels; in range they are non-negative, and above the middle channel B is at least channel A |
| FileReader.RawSumOfSquares | app/src/main/java/com/example/howl/FileReader.kt:174 | the sum under the square root is positive, so the normalisation never divides by zero |
| FileReader.BiasFacts | app/src/main/java/com/example/howl/FileReader.kt:166-176 | the power, equality, sign and ordering facts of the channel split for a root of the sum of squares |
| FileReader.BiasSigns | app/src/main/java/com/example/howl/FileReader.kt:166-176 | for an in-range position and bias both channels are non-negative, and above the middle channel B is at least channel A |
| FileReader.BiasNonNegative | app/src/main/java/com/example/howl/FileReader.kt:167-168 | for an in-range position and bias both raw channel amplitudes are non-negative |
| FileReader.BiasPower | app/src/main/java/com/example/howl/FileReader.kt:174-176 | dividing both raw amplitudes by the root of their sum of squares keeps the amplitude's power |
| FileReader.MotionPulse | app/src/main/java/com/example/howl/FileReader.kt:142-181 | both frequencies are the position; the channels share the speed amplitude's power; a still stroke is silent; in range both amplitudes are non-negative |
| FileReader.ReaderPulseAt | app/src/main/java/com/example/howl/FileReader.kt:142-181 | no points give the all-zero pulse; outside the points the pulse is silent at the end point's position |
| FileReader.FunscriptReader.constructor | app/src/main/java/com/example/howl/FileReader.kt:99-100 | an empty reader, not ready |
| FileReader.FunscriptReader.AddActions | app/src/main/java/com/example/howl/FileReader.kt:206-208 | the stored map is the result of putting pos / 100 under at / 1000 for each action in order |
| FileReader.FunscriptReader.Open | app/src/main/java/com/example/howl/FileReader.kt:183-217 | a file over 20 MB or one that does not decode is refused with nothing stored; otherwise every action is stored and the reader marked ready, and it succeeds exactly when there is an action, returning the latest action time |
| FileReader.ActionTimes | app/src/main/java/com/example/howl/FileReader.kt:207 | each action's time in seconds |
| FileReader.ActionPositions | app/src/main/java/com/example/howl/FileReader.kt:207 | each action's position as a fraction of 100 |
| FileReader.LastActionTime | app/src/main/java/com/example/howl/FileReader.kt:216 | the last key of the stored points is the latest action time |
| FileReader.ActionStored | app/src/main/java/com/example/howl/FileReader.kt:206-208 | an action whose time no later action repeats keeps its position in the map |
| DebugLogger.CappedCount | app/src/main/java/com/example/howl/DebugLogger.kt:73-76 | logging onto n entries leaves n + 1, or 100 when full, never more |
| DebugLogger.Logged | app/src/main/java/com/example/howl/DebugLogger.kt:73-76 | the new entry goes at the end, after the most recent older entries that still fit |
| DebugLogger.LogOf | app/src/main/java/com/example/howl/DebugLogger.kt:64-80 | logging any sequence of entries never holds more than 100 |
| DebugLogger.KeptCount | app/src/main/java/com/example/howl/DebugLogger.kt:56 | all of n entries are kept, or 100 when there are more |
| DebugLogger.LogKeepsMostRecent | app/src/main/java/com/example/howl/DebugLogger.kt:64-80 | after any sequence of logs the queue holds exactly the most recent entries that fit, oldest first |
| DebugLogger.LoggedOntoRecent | app/src/main/java/com/example/howl/DebugLogger.kt:73-76 | logging onto the kept part of a history gives the kept part of the longer history |
| DebugLogger.Log.constructor | app/src/main/java/com/example/howl/DebugLogger.kt:56-59 | an empty queue |
| DebugLogger.Log.D | app/src/main/java/com/example/howl/DebugLogger.kt:64-80 | the queue drops its oldest entries while full, then gains the new entry, and is published |
| DebugLogger.Log.Clear | app/src/main/java/com/example/howl/DebugLogger.kt:83-90 | the queue and the published list become empty |
| Random.PickIndex | app/src/main/java/com/example/howl/Activity.kt:775 | the index a draw picks among k values is below k, the floor of the draw times k |
| Random.DrawBetween | app/src/main/java/com/example/howl/Utils.kt:74 | a draw between two ends lies in [from, until), or is from when they are equal |
| Random.Rng.constructor | app/src/main/java/com/example/howl/Utils.kt:74 | a fair stream of draws in [0, 1), read from its start |
| Random.Rng.NextDouble | app/src/main/java/com/example/howl/Activity.kt:1018 | the next draw, in [0, 1), one draw taken |
| Random.Rng.NextBoolean | app/src/main/java/com/example/howl/Activity.kt:1114 | true exactly when the next draw is below 0.5, one draw taken |
| Random.Rng.Between | app/src/main/java/com/example/howl/Utils.kt:74 | the next draw placed between the two ends, one draw taken |
| Random.Rng.Pick | app/src/main/java/com/example/howl/Activity.kt:1019 | the index the next draw picks among k, one draw taken |
| Random.Rng.IntInRange | app/src/main/java/com/example/howl/Utils.kt:80-82 | an integer in [lo, hi] from the next draw, one draw taken |
| Random.Rng.InRange | app/src/main/java/com/example/howl/Utils.kt:62-77 | equal ends give that end without a draw; otherwise a uniform value in [min, max), whichever order the ends come in |
| Pulses.SwappedPulse | app/src/main/java/com/example/howl/Player.kt:117-119 | a pulse with channels A and B exchanged |
| Pulses.SwapTwice | app/src/main/java/com/example/howl/Player.kt:117-121 | exchanging the channels twice gives the pulse back |

## Left out

- Bluetooth transport: GATT connection, service discovery, writes, scanning and its timeout, and the battery poll are library calls. `Coyote.Device` receives their outcomes as events and keeps only the connection stage and the strengths.
- Concurrency and timing: `PlayerService`'s coroutine loop, delays and foreground service, and every mutex. The player and the pulse sources are modelled as functions of a given time.
- The Compose user interface, the view models, and the `DataRepository`/`Database` state holders. Settings such as the frequency range, the power options and the developer options are parameters.
- Transcendental functions: `sin`, `cos`, `sqrt` and real-exponent `pow` are math-library calls. They are parameters of the members that use them. `sqrt` is constrained to be the non-negative square root (`Numeric.IsSqrt`). The sine and cosine generator shapes take the sine and cosine of the turn from the caller.
- Floating point: `Double` and `Float` are exact reals. NaN, infinities, rounding and the `Float` to `Double` widening are not modelled. Where a divisor comes from the app's own constants, a precondition those constants meet keeps it non-zero. Where it comes from input, the member's line below says what the model does instead.
- IEEE-754 decoding: an HWL record keeps its four little-endian floats as raw four-byte groups. Turning a group into a number is a parameter (`decode`), and `struct.pack('<f', x)` in the writer is a parameter (`pack`).
- Randomness: every `Random` call is the next value of a given stream of draws in [0, 1). The statistics of the draws, and the bias that `randomInRange`'s skew adds to them, are not modelled. `Rng.Valid` assumes the stream fair (every pick recurs), which is what makes the redraw loops end.
- Reflection: `ActivityHost` lists the activities with `sealedSubclasses` and creates them with `createInstance`. The model uses the closed datatype `ActivityHosting.RunningActivity`, whose cases follow the declaration order in `Activity.kt`.
- `ActivityHost`'s own `timerManager` never holds a timer, so its update in `getPulseAtTime` changes nothing and is not modelled.
- Initialisation order: the `init` blocks of the BJ and additive activities end by calling `nextStage()`, and `speedChange()` then `proportionChange()`. Their constructors stop before those calls. `ActivityHosting.CreateBJ` and `ActivityHosting.CreateAdditive` make the calls right after construction, so no other code runs in between.
- Vibro.VibroActivity.NewTarget: a target reached at once runs its callback at once, and that callback sets a new target. The chain is bounded by a `fuel` count; when the fuel runs out the last callback is dropped. For a target equal to the current position, the contract states only that the activity stays valid and that the hold timer is refreshed.
- Opposites.OppositesActivity.RunSimulation: for a frequency that arrives, the contract says only that its new target and rate come from two draws at or after the amplitude's. It does not fix which draws, because when the amplitude also arrives and draws a target equal to where it stood, the fuel-bounded chain takes an unstated number of draws.
- Opposites.OppositesActivity.NewAmplitudeTarget: a drawn target equal to the current amplitude arrives at once, and its callback draws again. That chain is bounded by a `fuel` count, and the last callback is dropped when the fuel runs out. For that case the contract states only that the activity stays valid, not where the amplitude ends up or how many draws were taken.
- Opposites.OppositesActivity.NewFrequencyTarget: a drawn target equal to the current frequency arrives at once, and its callback draws again. That chain is bounded by a `fuel` count, and the last callback is dropped when the fuel runs out. For that case the contract states only that the activity stays valid, not where the frequency ends up or how many draws were taken.
- Vibro.VibroActivity.ScheduleHoldTimer: a rest of no time sets off at once through the chain above, and for that case the contract states only validity and the refreshed hold timer; a rest of positive length is stated in full (`Held`).
- Timers.TimerManager.Update: it returns the callbacks of the timers that ended, in visiting order, instead of running each one before the next key is visited. The activities get the Kotlin order by walking `Snapshot` with `Tick`, and dispatching each fired action in between.
- HwlScript.Normalise: it requires `minVal < maxVal`. With equal bounds the numpy code divides by zero, and the model does not cover that case.
- Coyote.Device.OnStatusNotification: the device stores the unsigned value of each strength byte (`Coyote.ReportedStrength`), the corrected reading of the row under "Findings". The app as written stores the signed `value[2].toInt()` and `value[3].toInt()` (`DGCoyote.kt:429-430`), so a strength of 128 or more is stored as a negative number and the update flag stays set; `Coyote.ReportedStrengthAsWritten` and `Coyote.SignedStrengthMisread` model that reading. A `0xB1` report shorter than four bytes makes the app index past the end and throw; the model ignores such a report.
- Funscript.Slope: two actions at the same time make `Funscript.kt:146-151` divide by a zero time step, which gives an infinite or NaN velocity. The model gives 0 there, since infinities and NaN are not modelled.
- ActivityHosting.DrawAcceptableIndex: the app creates an instance of every candidate it draws (`ActivityHost.kt:113`), and a rejected candidate's constructor takes its own draws before the next pick. The model draws the picks back to back and creates only the accepted activity, so after a rejection its picks and the stream position differ from the app's. The contract states the model's order.
- ActivityHosting.ActivityHost.GetPulseAtTime: states the returned pulse and the two baselines, not what the step did. The step is stated by `ActivityHosting.ActivityHost.RunCurrent` (`ActivityStepped`), which it calls with the step `Elapsed` gives. The baseline is written before the step runs, so `ActivityStepped` holds from the state after that write, and the contract does not restate it from the starting state.
- ActivityHosting.RunVibro: states the pulse and validity, not the step, because `Vibro.VibroActivity.RunSimulation` states only validity (see below).
- ActivityHosting.RunMilker: as `ActivityHosting.RunVibro`, for `Milker.MilkerActivity.RunSimulation`.
- ActivityHosting.RunBJ: as `ActivityHosting.RunVibro`, for `BJ.BJActivity.RunSimulation`.
- ActivityHosting.CreateAdditive: states validity and the name only. The speed change and the proportion change it runs after construction are stated by `Additive.AdditiveActivity.SpeedChangeStep` (`SpeedChanged`) and `Additive.AdditiveActivity.ProportionChangeStep` (`Redrawn`).
- Vibro.VibroActivity.RunSimulation: states only that the activity stays valid. The timer step is stated by `Vibro.VibroActivity.RunTimers` and the slider step by `Vibro.VibroActivity.UpdateSlider`; the second is stated against the state the first leaves, which a contract over the starting state cannot name.
- Milker.MilkerActivity.RunSimulation: states only that the activity stays valid, for the same reason; `Milker.MilkerActivity.RunTimers` and `Milker.MilkerActivity.UpdateWave` state the two steps.
- BJ.BJActivity.RunSimulation: states only that the activity stays valid, for the same reason; `BJ.BJActivity.RunTimers` and `BJ.BJActivity.UpdateWave` state the two steps.
- BJ.BJActivity.RunTimers: states that the timers were stepped and that the stage and the wave clock are kept; what a fired callback did is stated by `BJ.BJActivity.Dispatch`.
- Vibro.VibroActivity.RunTimers: states that the timers were stepped; what a fired callback did is stated by `Vibro.VibroActivity.Dispatch`.
- Additive.AdditiveActivity.RunTimers: when a change comes due, it states only that the timers were stepped; what the change did is stated by `Additive.AdditiveActivity.Dispatch`.
- Additive.AdditiveActivity.RunSimulation: when a speed or proportion change comes due in the step, it states only that the timers were stepped. It does not say what the managers' speeds and clocks, the proportions and the waves become then. `Additive.AdditiveActivity.Dispatch` states what the change itself draws.
- File and text handling: JSON decoding of a funscript, the file-size check against the content resolver, `Uri` names, `HLog`'s timestamp formatting and clipboard export. `Funscript.FunscriptPulseSource.Open` takes the decoded script, or its absence, and the file size. `DebugLogger.Log.D` takes the timestamp.
- The Python converter's analysis: aubio pitch detection, numpy percentile and median binning, directory walking and the command line. Only `normalise_array` and `write_output_file` are modelled.
- Version skew: some files use repository fields that the repository file shown here lacks. `PlayerService` also calls `sendPulse` without `swapChannels`. The model follows each core file as written and does not reconcile them.

## Findings

| source | as written | input that shows it | evidently intended | confidence | as-written member | corrected member |
|---|---|---|---|---|---|---|
| app/src/main/java/com/example/howl/DGCoyote.kt:429-432 | the strength bytes of a `0xB1` report are read with `Byte.toInt()`, which is signed | a report of strength 150 on channel A is stored as -106. The next pulse command then compares 150 with -106 and sends the update flag `0x1F` again, and the app is told of power -106 | the unsigned value of the byte, so an echoed strength reads back as itself and clears the flag | not executed | Coyote.SignedStrengthMisread | Coyote.ReportedStrengthRoundTrip |
