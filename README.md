# Workshop System cards: a verified Dafny model

This project models four firmware cards for the Music Thing Modular Workshop
System Computer. Each card is a C++ class whose `ProcessSample()` runs once
per audio sample. It works only on integer fixed-point state.

- **Feedback delay** (`delay/main.cpp`, class `AudioDelay`):
  - a 72000-slot circular store read by two taps, with 7-bit linear
    interpolation;
  - knob plus CV control, with a hysteresis stage that LOFI bypasses, and
    one-pole smoothing;
  - tap tempo on pulse 1, using `uint32_t` elapsed times and a timeout;
  - four modes (CLEAN, SATURATION, SHIMMER, LOFI) cycled by the switch, with
    per-mode stereo offsets;
  - a quadratic input/feedback crossfade with a floor of 205 on the input
    gain;
  - a soft-knee saturator with an energy accumulator, and a DC-blocking
    highpass;
  - freeze on pulse 2, a dry/wet mix, and the indicator LEDs.
- **Resonator** (`resonator/main.cpp`, class `ResonatingStrings`):
  - four Karplus-Strong strings on 1920-slot lines;
  - pitch from a 341-entry exponential table (`ExpDelay`, one octave per 341
    counts);
  - chord ratios giving delays with an 8-bit fraction, and interpolated reads;
  - damping and DC tracking, and a noise pluck on pulse 1;
  - nine chord modes, a mid/side stereo mix, and LED patterns.
- **Resonating strings** (`resonating-strings/main.cpp`): the earlier version
  of the resonator. It has integer delays, a linear pitch map, seven modes and
  mono output.
- **Harmonizer** (`harmonizer/main.cpp`, class `SimplePitchShifter`):
  - a 1024-slot circular buffer read at a fixed offset that a three-mode cycle
    chooses;
  - a dry/wet mix;
  - an LED refresh every 12000 calls.

## Layout

Each card is a Dafny `class` with the firmware's fields. Arrays stay
`array<int>`, and the methods change fields in place under `modifies`
clauses. Each stage of a card's `ProcessSample` is also a pure function. Each
method is proved equal to its function, and the properties are proved about
the functions, as `ensures` clauses and lemmas.

- `fixed.dfy` (module `Fixed`): the integer semantics of C++. It provides:
  - `Wrap32` for `uint32_t`;
  - `TruncDiv` and `CRem` for C++ `/` and `%`, which truncate toward zero;
  - `Clamp` and `Clip`;
  - the input mix, and the dry/wet crossfade that three cards share.

  Arithmetic `>>` on a signed value is floor division by 2^k.
- `karplus.dfy` (module `KarplusStrong`): the parts the two string cards share
  line for line:
  - the damping filter and the DC tracker;
  - the clipped write-back and the cursor advance;
  - the noise pluck and the excitations;
  - the per-string class `KarplusString`.
- `delay.dfy`, `resonator.dfy`, `resonating_strings.dfy`, `harmonizer.dfy`:
  one module per card.

The hardware inputs are parameters of `ProcessSample`:
- the audio inputs;
- the knobs, in [0, 4095];
- the CVs, in [-2048, 2047];
- the switch and the pulses;
- for the resonator, whether CV 1 is disconnected.

The audio outputs and the LED writes are the fields of its result.

## Model

| member | source | states |
|---|---|---|
| Fixed.Wrap32 | delay/main.cpp:127 | a `uint32_t` result lies in [0, 2^32), is the value itself when that is in range, and differs from it by a multiple of 2^32 |
| Fixed.Clamp | delay/main.cpp:154-155 | the two-`if` clamp: the result is in [lo, hi], equals x inside the range, and equals lo below it and hi above it |
| Fixed.Clip | delay/main.cpp:42-45 | `clip`: the result is in [-2047, 2047] and leaves in-range samples unchanged |
| Fixed.TruncDiv | harmonizer/main.cpp:99 | C++ division with a positive divisor: the remainder has the sign of the dividend and is smaller in magnitude than the divisor |
| Fixed.CRem | delay/main.cpp:260-261 | C++ `%`: the mathematical residue for a non-negative dividend; in (-b, 0] for a negative one |
| Fixed.MixInputs | delay/main.cpp:113 | `(in1 + in2 + 1) >> 1` stays in the audio range, lies between the two inputs, and equals them when they agree |
| Fixed.CombineControl | delay/main.cpp:153-155 | knob plus CV (also `combinedFreq` in the resonating strings) is clamped to [0, 4095] and passes through unchanged when already in range |
| Fixed.CrossmixAllDry | delay/main.cpp:357 | with the mix knob at 0, the crossfade returns the dry sample for every sample above -2048, and its clipped value is always the clipped dry sample |
| Fixed.CrossmixAllWet | delay/main.cpp:361 | with the mix knob at 4095, the crossfade returns the wet sample in the same sense |
| Fixed.Crossmix | delay/main.cpp:357-361 | the dry/wet crossfade the delay, resonator and strings cards share stays in [-2048, 2047] whenever both samples are in that range and the knob is in [0, 4095] |
| KarplusStrong.DampingStep | resonator/main.cpp:117-120 | `dampingFilter`: `input == state` is a fixed point, and for a coefficient in [0, 65536] the new state lies between the old state and the input |
| KarplusStrong.DampingStaysInRange | resonating-strings/main.cpp:66-70 | a damping step keeps the state inside any symmetric range that holds both the state and the input |
| KarplusStrong.DampingFullCoefficient | resonator/main.cpp:118 | with coefficient 65536 the filter passes its input through |
| KarplusStrong.DcStep | resonating-strings/main.cpp:87 | the DC tracker moves toward the damped sample without passing it, and `damped == dcState` is a fixed point |
| KarplusStrong.WrapBack | resonator/main.cpp:127-130 | the single conditional wrap of a read position gives the residue modulo 1920 for positions at most one line behind |
| KarplusStrong.Feed | resonator/main.cpp:138-156 | the tail of `processString`: only slot `writeIndex` changes, to a value in [-2047, 2047]; the cursor advances by 1 mod 1920; `delayed == filterState` leaves the filter state unchanged; the string's bounds are preserved |
| KarplusStrong.KarplusString.constructor | resonator/main.cpp:229-231 | a fresh 1920-slot line, with the cursor and both filter states at 0 |
| KarplusStrong.ClearLines | resonator/main.cpp:236-241 | the constructors' loop leaves every slot of all four lines at 0 |
| KarplusStrong.NextNoise | resonator/main.cpp:349 | the linear congruential step stays a `uint32_t` |
| KarplusStrong.NoiseSample | resonator/main.cpp:350 | the noise is twelve bits of the state, centred, and lies in [-2048, 2047] |
| KarplusStrong.PluckStep | resonator/main.cpp:343-358 | a rising edge restarts the envelope at 2048: it decays to 2000 in the same call and draws a noise sample; otherwise the envelope never rises; above 10 it strictly falls and draws noise; at 10 or below nothing changes and no noise is added; scaled noise is in [-2048, 2047] |
| KarplusStrong.PluckIdle | resonator/main.cpp:348-358 | without edges, the envelope after any number of calls is at most the starting envelope |
| KarplusStrong.PluckDiesOut | resonator/main.cpp:348-358 | without edges, every burst is over (envelope at most 10) within 2048 calls |
| KarplusStrong.Excitations | resonator/main.cpp:337-355 | the four excitations are the input shifted right by 2, 4, 4 and 3, plus the scaled noise on string 1 and half of it on the others; all lie in [-2560, 2559] |
| Delay.ModeAfter | delay/main.cpp:116-121 | the mode advances by 1 mod 4 exactly on a rising edge of switch Down, and is unchanged otherwise |
| Delay.ModeCycleLength | delay/main.cpp:119 | four advances return to the starting mode, and one advance always changes it |
| Delay.ModeLeds | delay/main.cpp:396-399 | LEDs 2-5 are one-hot: LED `2 + i` is lit exactly when the mode's enum value is `i` |
| Delay.TapStep | delay/main.cpp:124-144 | on a rising edge, the tap is timestamped; the measured `uint32_t` interval becomes the tap interval and turns tap tempo on exactly when it is in [2400, 144000]; otherwise interval and flag are kept. Without an edge, only the timeout can change the flag: it stays on exactly when the elapsed time is at most 240000. The counter advances by 1 mod 2^32 |
| Delay.TapIdle | delay/main.cpp:124-144 | any number of calls with pulse 1 low keep the `uint32_t` fields in range |
| Delay.TapIdleCounter | delay/main.cpp:137-144 | while pulse 1 stays low, the tap time and interval stay put and the counter advances by n mod 2^32 after n calls |
| Delay.TapIdleActive | delay/main.cpp:139-142 | while pulse 1 stays low, tap tempo survives n calls only if it was on and every elapsed time the timeout compared was at most 240000 |
| Delay.TapTimesOut | delay/main.cpp:139-142 | after 240002 or more calls without a tap, tap tempo is off, from any valid state and across counter wrap-around |
| Delay.HeldControl | delay/main.cpp:161-174 | in LOFI the new value is always taken; otherwise a change smaller than 8 keeps the held value and a change of 8 or more takes the new one; the result is one of the two and within 8 of the new value |
| Delay.HeldControlIdempotent | delay/main.cpp:161-174 | feeding the same control twice keeps the value held after the first call |
| Delay.KnobTarget | delay/main.cpp:189-193 | the manual target lies in [100, 71000] and hits both ends at control 0 and 4095 |
| Delay.KnobTargetMonotonic | delay/main.cpp:192 | a larger control never gives a shorter manual target |
| Delay.TargetDelay | delay/main.cpp:182-193 | the target is in [100, 71000]: the clamped tap interval while tap tempo is on, and the knob path otherwise |
| Delay.Smooth | delay/main.cpp:195-198 | the smoother moves toward `target << 7` without passing it from either side, and the target is its fixed point |
| Delay.SmoothStaysInRange | delay/main.cpp:198 | once the smoothed delay is in [12800, 9088000], it stays there |
| Delay.ControlStep | delay/main.cpp:115-198 | the control half of a call keeps its bounds. The switch is recorded, and the mode advances exactly on a rising edge. Tap tempo takes its step, and the held control is the new combined value or the old one. The smoothed delay moves toward the selected target without passing it |
| Delay.PitchModulation | delay/main.cpp:217-220 | the Shimmer offset is non-positive and no larger in magnitude than the smoothed delay |
| Delay.LeftDelay | delay/main.cpp:200-229 | the left delay is clamped to [12800, 9088000]; outside SHIMMER it is the clamped smoothed delay, and in SHIMMER it is never longer than the smoothed delay |
| Delay.RightDelay | delay/main.cpp:231-247 | the right delay is clamped to [12800, 9088000], equals the left in CLEAN and LOFI, and is never shorter than the left |
| Delay.ReadIndex | delay/main.cpp:254-261 | for a cursor in [0, 72000) and a read at most 72000 slots behind it, the conditional wrap followed by the C++ remainder gives the mathematical residue, so the index is in bounds |
| Delay.Interpolate | delay/main.cpp:266 | a zero fraction returns the first sample, and a fraction in [0, 128] gives a value between the two samples |
| Delay.TapSample | delay/main.cpp:249-266 | a tap is defined for every cursor and every delay in [12800, 9088000] (both reads in bounds, by `ReadIndex`), and a store within [-2047, 2047] gives a tap within [-2047, 2047] |
| Delay.InputGain | delay/main.cpp:306-312 | the input gain is in [205, 4095] for every feedback amount in [0, 4095], and is 4095 at zero feedback |
| Delay.FeedbackGain | delay/main.cpp:307 | the feedback gain is in [0, 4095] and is 4095 at full feedback |
| Delay.CrossfadeMonotonic | delay/main.cpp:306-307 | more feedback never raises the input gain and never lowers the feedback gain |
| Delay.Scale12 | delay/main.cpp:315 | scaling by a 12-bit gain keeps the sign and never grows the magnitude |
| Delay.SoftKneeCurve | delay/main.cpp:66-94 | the knee is the identity below 1200 in magnitude, keeps the sign, never grows the magnitude, and stays within [-2047, 2047] |
| Delay.SoftKneeOdd | delay/main.cpp:71-92 | the knee is odd: output(-d) = -output(d) |
| Delay.SoftKneeMonotonic | delay/main.cpp:71-92 | the knee never reverses the order of two levels |
| Delay.SaturateStep | delay/main.cpp:50-95 | the saturator's output is in [-2047, 2047], and the energy accumulator stays in [0, 600] for inputs in the clip range |
| Delay.ShapeFeedback | delay/main.cpp:317-324 | only SATURATION runs the feedback through the saturator; CLEAN, SHIMMER and LOFI pass it through, and the accumulator is untouched |
| Delay.HighpassStep | delay/main.cpp:33-39 | the highpass state moves toward the input without passing it, the output is the input minus the new state, and a constant input at the state gives output 0 |
| Delay.FeedbackStep | delay/main.cpp:314-336 | the sample for the store is clipped to [-2047, 2047]; the accumulator changes only in SATURATION and stays in [0, 600]; the highpass state stays in [-4096, 4096] for in-range signals |
| Delay.Store | delay/main.cpp:341-344 | no slot but the cursor's ever changes; freeze leaves the whole store as it was; otherwise the cursor's slot receives the sample; clip-range contents stay in the clip range |
| Delay.BlinkRate | delay/main.cpp:373-374 | the blink period is at least 100 and at most 35500 |
| Delay.BlinkStep | delay/main.cpp:372-382 | LED 0 is turned on exactly when the counter reaches the rate, which resets it to 0. It is turned off exactly when the counter is in [rate/2, rate). Otherwise LED 0 is not written. The counter stays below the rate |
| Delay.Outputs | delay/main.cpp:349-399 | both outputs are in [-2047, 2047]; at mix 0 both are the clipped dry input; at mix 4095 they are the clipped taps; LED 1 is lit exactly above half feedback; LEDs 2-5 show the mode |
| Delay.DataPath | delay/main.cpp:200-399 | the data path of one call keeps the store's size and clip range and writes no slot but the cursor's. Freeze writes nothing. The cursor advances by 1 mod 72000. The accumulator changes only in SATURATION, and the filter and blink states stay in their bounds. The outputs are in range and dry at mix 0 |
| Delay.AudioDelay.constructor | delay/main.cpp:98-103 | the initial fields: cursor, smoothed delay, raw control and LED counter at 0; CLEAN; the switch as read; tap interval 24000 with tap tempo off; a zeroed store (static storage); the invariant holds |
| Delay.AudioDelay.Highpass | delay/main.cpp:33-39 | `highpass` updates `hpfState` and returns exactly what `HighpassStep` gives |
| Delay.AudioDelay.WarmSaturate | delay/main.cpp:50-95 | `warmSaturate` updates `saturationAccum` and returns exactly what `SaturateStep` gives |
| Delay.AudioDelay.CycleMode | delay/main.cpp:116-121 | the mode fields after the switch check are those of `ModeAfter` |
| Delay.AudioDelay.TapTempo | delay/main.cpp:124-144 | the five tap-tempo fields after the tap code are those of `TapStep` |
| Delay.AudioDelay.ConditionControl | delay/main.cpp:147-174 | `lastRawControl` and the control used this call are the `HeldControl` of the clamped knob plus CV |
| Delay.AudioDelay.BlinkLed | delay/main.cpp:372-382 | the LED counter and the LED 0 command are those of `BlinkStep` |
| Delay.AudioDelay.UpdateControls | delay/main.cpp:115-198 | the nine control fields after the control half are `ControlStep` of the old ones |
| Delay.AudioDelay.WriteFeedback | delay/main.cpp:302-347 | the accumulator, the highpass state and the store after the feedback write are those of `FeedbackStep` and `Store`, and the cursor advances by 1 mod 72000 |
| Delay.AudioDelay.RunDataPath | delay/main.cpp:200-399 | the store, the cursor, the feedback states, the LED counter and the outputs are those of `DataPath`, and the data-path bounds are kept |
| Delay.AudioDelay.ProcessSample | delay/main.cpp:106-400 | one sample keeps the card's invariant: the cursor in the store, every stored sample in the clip range, the control, filter and blink states in their bounds. The controls take `ControlStep`, and the store, cursor, feedback states and outputs take `DataPath` with the mode and delay just computed |
| Resonator.DelayVal | resonator/main.cpp:17-53 | entry `i` of `delay_vals` for `i` in [0, 341): the first entry is 93952 and the last 47072 |
| Resonator.TableStep | resonator/main.cpp:17-53 | every entry of `delay_vals` is strictly larger than the next |
| Resonator.TableOrdered | resonator/main.cpp:17-53 | the table is non-increasing between any two positions |
| Resonator.TableBounds | resonator/main.cpp:17-53 | every entry lies in [47072, 93952], within (46976, 93952]: the table spans less than one halving |
| Resonator.ShiftRight | resonator/main.cpp:63 | `x >> k` on a non-negative value stays between 0 and x |
| Resonator.ExpDelay | resonator/main.cpp:58-64 | for every input, the table index is in bounds and the delay lies in [22, 93952] |
| Resonator.ExpDelayLowest | resonator/main.cpp:59 | every input at or below 0 reads the longest delay, 93952 |
| Resonator.ExpDelayHighest | resonator/main.cpp:60 | every input at or above 4091 reads the shortest delay, 22 |
| Resonator.ExpDelayOctave | resonator/main.cpp:61-63 | 341 counts up halve the delay (one octave per 341 counts) |
| Resonator.ExpDelayMonotonic | resonator/main.cpp:58-64 | higher input never gives a longer delay |
| Resonator.ModeAfter | resonator/main.cpp:252-257 | the chord mode advances by 1 mod 9 exactly on a rising edge of switch Down |
| Resonator.AdvanceIndex | resonator/main.cpp:255 | n advances move the mode's enum value by n mod 9 |
| Resonator.AdvanceNine | resonator/main.cpp:105 | nine advances return to the starting mode |
| Resonator.FrequencyRatios | resonator/main.cpp:164-226 | in each of the nine modes, string 1 is 1:1 and every ratio has `num >= den >= 1` |
| Resonator.ModeLeds | resonator/main.cpp:402-411 | the chord mode sets all six LEDs, and decoding the pattern gives the mode back, so the LEDs determine the mode |
| Resonator.LedsDistinct | resonator/main.cpp:402-411 | the nine LED patterns are pairwise distinct |
| Resonator.FineTune | resonator/main.cpp:271 | the fine tune, a truncating division, is within one octave (341 counts) either way, 0 at the centre, and has the sign of the knob offset |
| Resonator.FineTuneOdd | resonator/main.cpp:271 | the fine tune is odd about the knob centre |
| Resonator.PitchCv | resonator/main.cpp:262-282 | the pitch control is in [0, 4095]; with CV 1 unpatched it is `2048 + knob / 2`; otherwise it is CV 1 plus 2048 plus the fine tune, clamped |
| Resonator.BaseDelay | resonator/main.cpp:285-291 | the base delay is clamped to [15, 1468] |
| Resonator.HigherCvShorterDelay | resonator/main.cpp:264-291 | raising CV 1 never lengthens the base delay |
| Resonator.DelayFull | resonator/main.cpp:301-304 | a ratio at or above unison never lengthens a string; 1:1 gives the base delay with a zero fraction |
| Resonator.Tune | resonator/main.cpp:306-324 | the integer delay is clamped to [10, 1919] and the fraction is in [0, 255]; unclamped, the two together are exactly the 8-bit fractional delay |
| Resonator.Tunings | resonator/main.cpp:293-324 | in every mode each string gets a playable tuning |
| Resonator.StringsWithinFundamental | resonator/main.cpp:295-324 | for base delays in [15, 1468], no string is longer than the fundamental, whose length is the base delay with fraction 0 |
| Resonator.DampingCoefficient | resonator/main.cpp:327-333 | the coefficient is in [32000, 57000]; it follows the linear map for a clamped control up to 3074 and is capped at 57000 from 3075 on |
| Resonator.Interp256 | resonator/main.cpp:136 | a zero fraction returns `sample1`, and a fraction in [0, 256] gives a value between the two samples |
| Resonator.StringStep | resonator/main.cpp:123-159 | `processString` on values: it reads `delayLength` and `delayLength + 1` slots behind the cursor, both in bounds, and interpolates them; it feeds the string; in-range strings keep every sample and state in range |
| Resonator.ProcessString | resonator/main.cpp:123-159 | the in-place `processString` returns the delayed sample and leaves the string in exactly the state `StringStep` gives |
| Resonator.StepAll | resonator/main.cpp:360-368 | the four strings keep their bounds |
| Resonator.MidSide | resonator/main.cpp:370-381 | in tuning mode both buses carry string 1 alone; otherwise mid plus side is twice strings 1 and 3, and mid minus side is twice strings 2 and 4 |
| Resonator.Outputs | resonator/main.cpp:383-411 | both outputs are clipped to [-2047, 2047] and agree in tuning mode; at mix 0 both are the clipped dry input; in tuning mode at mix 4095 both are the clipped string 1; the LEDs show the chord mode |
| Resonator.ResonatingStrings.constructor | resonator/main.cpp:229-242 | the initial fields: cursors, filters and DC states at 0, lengths 100/150/200/400, FIFTH with the switch taken as held down, envelope 0, noise state 12345, cleared lines; the invariant holds |
| Resonator.ResonatingStrings.CycleMode | resonator/main.cpp:252-257 | the mode fields after the switch check are those of `ModeAfter` |
| Resonator.ResonatingStrings.TuneStrings | resonator/main.cpp:293-324 | the four `delayLength` fields are the lengths of `Tunings` |
| Resonator.ResonatingStrings.Pluck | resonator/main.cpp:342-358 | the envelope, the noise state and the scaled noise are those of `PluckStep` |
| Resonator.ResonatingStrings.RunStrings | resonator/main.cpp:360-368 | the four outputs and string states are those of `StepAll`, and the strings stay valid |
| Resonator.ResonatingStrings.Controls | resonator/main.cpp:251-358 | the mode, the tunings, the damping coefficient and the pluck of one call are those of their functions |
| Resonator.ResonatingStrings.ProcessSample | resonator/main.cpp:245-412 | one sample keeps the card's invariant (four separate lines, every sample and filter state in range). The mode, lengths, pluck, strings and outputs follow their functions |
| ResonatingStrings.ModeAfter | resonating-strings/main.cpp:186-191 | the chord mode advances by 1 mod 7 exactly on a rising edge of switch Down |
| ResonatingStrings.AdvanceIndex | resonating-strings/main.cpp:189 | n advances move the mode's enum value by n mod 7 |
| ResonatingStrings.AdvanceSeven | resonating-strings/main.cpp:42 | seven advances return to the starting mode |
| ResonatingStrings.FrequencyRatios | resonating-strings/main.cpp:109-159 | in each of the seven modes, string 1 is 1:1 and every ratio has `den <= num <= 4 * den` |
| ResonatingStrings.ModeLeds | resonating-strings/main.cpp:298-307 | the chord mode sets all six LEDs, and decoding the pattern gives the mode back |
| ResonatingStrings.LedsDistinct | resonating-strings/main.cpp:298-307 | the seven LED patterns are pairwise distinct |
| ResonatingStrings.BaseDelay | resonating-strings/main.cpp:201-205 | for controls in [0, 4095] the base delay lies in [60, 960]: 960 at 0 and 60 at 4095 |
| ResonatingStrings.BaseDelayMonotonic | resonating-strings/main.cpp:205 | a higher control never gives a longer base delay |
| ResonatingStrings.StringLength | resonating-strings/main.cpp:214-227 | every string length is clamped to [10, 1919], and the fundamental's is the base delay |
| ResonatingStrings.LengthUnclamped | resonating-strings/main.cpp:214-227 | for base delays in [60, 960] and the tables' ratios, the clamps never act and the length is `baseDelay * den / num`, no longer than the base delay |
| ResonatingStrings.Lengths | resonating-strings/main.cpp:207-227 | all four lengths are in [10, 1919] |
| ResonatingStrings.StringsWithinFundamental | resonating-strings/main.cpp:207-227 | no string is longer than the fundamental, whose length is the base delay |
| ResonatingStrings.DampingCoefficient | resonating-strings/main.cpp:229-236 | the coefficient lies in [32000, 65300], at the ends for the clamped control at 0 and 4095 |
| ResonatingStrings.EnvelopeStep | resonating-strings/main.cpp:238-240 | the envelope follower stays in [0, 65536] for inputs in the audio range |
| ResonatingStrings.StringStep | resonating-strings/main.cpp:73-104 | `processString` on values: it reads the slot `delayLength` behind the cursor, in bounds, and feeds the string; in-range strings keep every sample and state in range |
| ResonatingStrings.ProcessString | resonating-strings/main.cpp:73-104 | the in-place `processString` returns the delayed sample and leaves the string in exactly the state `StringStep` gives |
| ResonatingStrings.StepAll | resonating-strings/main.cpp:267-275 | the four strings keep their bounds |
| ResonatingStrings.StringMix | resonating-strings/main.cpp:278 | the truncating average of four in-range outputs is in range, and it is the common value when all four agree |
| ResonatingStrings.Outputs | resonating-strings/main.cpp:280-307 | the output is clipped to [-2047, 2047] and is the same on both jacks; the LEDs show the mode |
| ResonatingStrings.OutputsAtKnobEnds | resonating-strings/main.cpp:283-290 | at mix 0 the output is the clipped dry input, and at mix 4095 it is the string mix |
| ResonatingStrings.InitNoise | resonating-strings/main.cpp:60-61 | the initial noise is in [-2048, 2047] |
| ResonatingStrings.InitializeString | resonating-strings/main.cpp:57-63 | `initializeString` writes the noise to exactly the slots below `min(length, 1920)` and leaves every other slot unchanged |
| ResonatingStrings.ResonatingStrings.constructor | resonating-strings/main.cpp:162-176 | the initial fields: cursors, filter and DC states at 0, lengths 100/150/200/400, FIFTH with the switch taken as held down, envelope follower and pulse envelope 0, noise state 12345, cleared lines; the invariant holds |
| ResonatingStrings.ResonatingStrings.CycleMode | resonating-strings/main.cpp:186-191 | the mode fields after the switch check are those of `ModeAfter` |
| ResonatingStrings.ResonatingStrings.TuneStrings | resonating-strings/main.cpp:207-227 | the four `delayLength` fields are those of `Lengths` |
| ResonatingStrings.ResonatingStrings.Pluck | resonating-strings/main.cpp:249-265 | the envelope, the noise state and the scaled noise are those of `PluckStep` |
| ResonatingStrings.ResonatingStrings.RunStrings | resonating-strings/main.cpp:267-275 | the four outputs and string states are those of `StepAll` |
| ResonatingStrings.ResonatingStrings.Controls | resonating-strings/main.cpp:185-265 | the mode, the lengths, the coefficient, the envelope follower and the pluck of one call are those of their functions |
| ResonatingStrings.ResonatingStrings.ProcessSample | resonating-strings/main.cpp:179-308 | one sample keeps the card's invariant, and every field and the output follow their functions |
| Harmonizer.ModeAfter | harmonizer/main.cpp:62-68 | the mode advances by 1 mod 3 exactly on a rising edge of switch Down |
| Harmonizer.AdvanceIndex | harmonizer/main.cpp:66 | n advances move the mode's enum value by n mod 3 |
| Harmonizer.PitchOffset | harmonizer/main.cpp:72-76 | the offset is 80, 120 or 300 for THIRD, FIFTH and OCTAVE, always inside (0, 1024) |
| Harmonizer.LastWrittenAppend | harmonizer/main.cpp:86 | writing one more input changes only the slot it lands on |
| Harmonizer.CursorFollows | harmonizer/main.cpp:110 | advancing the cursor mod 1024 keeps it at the number of inputs written, mod 1024 |
| Harmonizer.ReadIsDelayed | harmonizer/main.cpp:86-93 | the read index is in [0, 1024), and the slot it reads holds the input written exactly `pitchOffset` calls earlier, or 0 before that many calls |
| Harmonizer.Mix | harmonizer/main.cpp:95-103 | the mix is in [-2048, 2047]; at mix 0 it is the clamped dry input, and at 4095 the clamped wet sample |
| Harmonizer.MixBetween | harmonizer/main.cpp:97-99 | for in-range samples the truncating crossfade lies between dry and wet |
| Harmonizer.DebugLed | harmonizer/main.cpp:82-83 | LED 4 is lit exactly below 1024, LED 5 exactly above 3071, and neither in between |
| Harmonizer.StatusLeds | harmonizer/main.cpp:38-49 | after a refresh exactly the mode's LED among 0-2 is lit, LED 3 exactly for a mix above 2000, and LEDs 4 and 5 are off |
| Harmonizer.LedTick | harmonizer/main.cpp:34-36 | one increment with reset at 12000: from a counter in range the result is `(counter + 1) mod 12000`, and it is 0 exactly when the reset fires |
| Harmonizer.LedTicksPeriod | harmonizer/main.cpp:33-36 | from a counter in range, n calls leave `(counter + n) mod 12000`, so a refresh happens once every 12000 calls |
| Harmonizer.SimplePitchShifter.constructor | harmonizer/main.cpp:24-30 | the initial fields, and the cleared buffer |
| Harmonizer.SimplePitchShifter.UpdateLeds | harmonizer/main.cpp:33-51 | the counter takes one `LedTick`, that is it advances by 1 mod 12000, so `LedTicksPeriod` applies to the card; the LEDs are refreshed exactly on the reset, with `StatusLeds` |
| Harmonizer.SimplePitchShifter.SelectMode | harmonizer/main.cpp:62-76 | the mode follows `ModeAfter` and the offset follows `PitchOffset` |
| Harmonizer.SimplePitchShifter.WriteAndRead | harmonizer/main.cpp:85-93 | only the cursor's slot is written, with the input, and the cursor advances by 1 mod 1024; the wet sample is the input from exactly `pitchOffset` calls earlier |
| Harmonizer.SimplePitchShifter.ProcessSample | harmonizer/main.cpp:54-114 | one sample keeps the buffer equal to the recorded history. The mode, offset, mix and LED counter follow their functions. Both outputs are the mix of the input with the input from `pitchOffset` calls earlier, and the LEDs refresh every 12000 calls |

## Left out

- The hardware layer and `main()` are not part of this model. This covers
  `ComputerCard.h` and its accessors, `EnableNormalisationProbe` and `Run`.
  The reads are bounded parameters; the writes are fields of the result.
- Real-time scheduling of the sample callback is left out: it has no state to
  model.
- Sound-level claims from the comments are left out because they are about
  sound, not integers:
  - semitone cascades;
  - "warmth";
  - 1V/oct accuracy;
  - whether the table entries equal 93952/2^(i/341).

  Only the table's order, its bounds and the octave step are proved.
- `int16_t` casts are not modelled: every value the firmware narrows
  already fits an `int16_t`. It is clipped to [-2047, 2047], clamped to
  [-2048, 2047] (the harmonizer's output), masked to 15 bits
  (`initializeString`), or an input.
- `int32_t` overflow is not modelled: the invariants keep every
  intermediate within range, except in `initializeString`.
- ResonatingStrings.InitNoise: the product `i * 1103515245` overflows `int`
  for every `i` of 2 or more. The model takes the low 15 bits of the
  mathematical product, as a wrapping multiply would. It does not model the
  undefined behaviour. `initializeString` is never called by the card.
- The unused `brightness` argument of `processString` in resonating strings
  is not a parameter of the model.
- `envelopeFollower` is kept as dead state: it is updated but affects
  nothing.
- The harmonizer's `zSwitchPressed` is kept as an unused field.
- LED writes are returned as commands within the same call. For the delay's
  LED 0 this includes "not written". For the harmonizer refresh it includes
  the full six-LED pattern, and the debug LED is written before it. The
  state an LED keeps between calls is left out.
- The delay is modelled as the code is written:
  - the store has 72000 slots and the longest delay is 71000 samples;
  - freeze only suppresses the write, with no captured read cursor;
  - SHIMMER's feedback gets no extra highpass;
  - SHIMMER's right tap is 103/100 of the left;
  - the tap timeout is measured with unsigned subtraction from the last tap,
    accepted or not.
- Resonator.ResonatingStrings.ProcessSample: the firmware reads
  `SwitchVal()` twice in one call, for the mode and for tuning mode. The
  model passes one switch position to both. This assumes the accessor
  returns a value latched once per sample. `ComputerCard.h` is not part of
  this model.
- Delay.AudioDelay.ProcessSample: `ensures` states outputs and fields in
  terms of the stage functions and the invariant, not as one closed formula
  of the inputs.
