# Sonic-Oscillator control core, in Dafny

This project models the control logic of an ESP32 sound toy. A rotary encoder selects a waveform (square, saw, triangle, noise) from a menu. A push button confirms the selection with a short press and toggles mute with a long press. Two potentiometers set pitch and tone. A PWM channel drives a buzzer.

The state lives in the firmware's global variables. Three routines change it:

- the encoder interrupt handler `updateEncoder`;
- the feedback beep `playFeedbackTone`;
- one pass of the Arduino `loop`.

The model has six modules:

- `Arduino` gives the library calls the firmware uses their C++ meaning: `abs`, truncating integer division, `map` and `random(lo, hi)`.
- `Sampler` models `readStableADC`. A method sums 32 readings in a counted loop and divides, and it is proved against `Mean`.
- `Conditioning` models the knob policies: pitch hysteresis with the 500 ms lock window, tone hysteresis, and the `map` calls that give the frequency, the duty and the noise band's upper edge.
- `Controller` has the globals as a value (`Globals`) and one function per step: the encoder edge, the feedback beep, and the loop split into its phases in source order. These are button, encoder check, menu timeout, then audio or silence. Their contracts state what each phase guarantees.
- `SoundToy` has the class `Device`, whose fields are the globals. Its methods `UpdateEncoder`, `PlayFeedbackTone` and `Loop` update the fields in place. `PlayFeedbackTone` and `Loop` also return the writes they send to the tone peripheral, in order, as `SetFreq(hz)` and `SetDuty(duty)` commands; the interrupt handler writes nothing. Each method is proved to produce exactly the state and the writes of its `Controller` function.
- `Traces` covers runs in which encoder interrupts and loop passes interleave. It proves properties over whole runs by induction.

Modelling choices:

- Time is an unbounded natural number. The model does not require it to increase: the lemmas over runs hold for any sequence of event times. The `Device` methods require `now` to be no earlier than the timestamps they compare it with, so that the model's subtraction agrees with the firmware's unsigned subtraction.
- Each loop pass reads the clock once (`now`). The firmware calls `millis()` several times per pass, with `delay(5)` after a press edge and the beep's `delay` in between. Every threshold comparison here uses the single `now`.
- The interrupt handler runs between loop passes, never in the middle of one.
- `random(lo, hi)` is modelled by the values it can return: `lo + draw % (hi - lo)`, or `lo` when the range is empty. `draw` is a loop input that stands for the entropy source. Lemma `RandomReachesAll` shows that every value in `[lo, hi - 1]` can come out, so the draws cover exactly the outcomes the library allows. The distribution is not modelled.
- `Loop` takes the 32 raw readings of each knob and calls `ReadStableAdc` itself, as the firmware does. The step function `LoopStep` takes the two averages.
- Readings are within the 12-bit ADC range [0, 4095]. `Loop` and the constructor require this of their samples, and `MeanInRange` carries it over to the averages.
- The `Device` constructor sets the globals' initial values. It also takes the two knob readings that `setup` makes at src/main.cpp:223-224.

Points where the code behaves differently from what a reader might expect; the model follows the code as written:

- The menu timeout moves the state to PLAYING even when no waveform has been chosen (`selectedMode == -1`). Only the renderer hides this (src/main.cpp:170). `MenuTimesOutWithoutSelection` proves it.
- A small pitch change is followed while `now - lastKnobMoveTime < 500`, so it is already refused at exactly 500 ms, not only from 501 ms (`LockWindowScenario`).
- An encoder edge must come more than 10 ms after the last accepted one, so an edge exactly 10 ms later is also ignored.
- Noise mode writes a duty in [0, 254] and a frequency in [600, ceiling - 1], because `random` excludes its upper bound, or exactly 600 when the ceiling is 600 (pitch 0), where `random(600, 600)` returns its lower bound. It never updates the duty or frequency caches (`NoiseLeavesCaches`).
- The beep does not update the duty cache, even though it leaves the duty at 0.

## Model

| member | source | states |
|---|---|---|
| `Arduino.TruncDiv` | src/main.cpp:94 | C++ division: the quotient's magnitude is the floor of the operands' magnitudes, and its sign is the product of their signs |
| `Arduino.Random` | src/main.cpp:311-312 | `random(lo, hi)` lies in [lo, hi - 1], or equals `lo` when the range is empty |
| `Arduino.RandomReachesAll` | src/main.cpp:311-312 | every value `random(lo, hi)` promises can actually be drawn |
| `Arduino.Abs` | src/main.cpp:259 | C's `abs` (also at lines 286 and 297); no contract of its own, its sign cases are used by `TruncDiv`, `ConditionPitch` and `ConditionTone` |
| `Arduino.Map` | src/main.cpp:304-309 | the library `map`, called at lines 304, 306 and 309; no contract of its own, its properties are `MapWithinRange` and `MapMonotone` |
| `Arduino.MapWithinRange` | src/main.cpp:304-309 | `map` sends every input in its input range into its (rising) output range |
| `Arduino.MapMonotone` | src/main.cpp:304 | with a rising output range, `map` never decreases as its input grows |
| `Sampler.ReadStableAdc` | src/main.cpp:88-95 | the counted accumulation loop returns exactly `Mean`: the sum of the 32 readings divided by 32 with truncation |
| `Sampler.SumBounds` | src/main.cpp:89-93 | readings bounded by [lo, hi] give a total between n·lo and n·hi |
| `Sampler.SumConstant` | src/main.cpp:89-93 | n equal readings v total n·v |
| `Sampler.MeanInRange` | src/main.cpp:88-95 | averaging readings in [0, 4095] gives a value in [0, 4095] |
| `Sampler.MeanOfConstant` | src/main.cpp:88-95 | 32 equal readings average to that reading, whatever its sign |
| `Conditioning.ConditionPitch` | src/main.cpp:286-295 | a move beyond 4 is taken and restarts the lock window; a smaller move is taken only while `now - lastMove < 500`; otherwise the pitch holds; the held pitch is always within 4 of the reading |
| `Conditioning.ConditionTone` | src/main.cpp:297-300 | tone changes iff the reading differs by more than 4, and then to the reading; the held tone is always within 4 of the reading |
| `Conditioning.TargetFrequency` | src/main.cpp:304-305 | the frequency is at least 350 Hz for any pitch, and at most 2000 Hz for a pitch in [0, 4095] |
| `Conditioning.TargetDuty` | src/main.cpp:306 | a tone in [0, 4095] gives a duty in [0, 127] |
| `Conditioning.NoiseCeiling` | src/main.cpp:309-310 | the noise band's edge is at least 600 Hz for any pitch, and at most 5000 Hz for a pitch in [0, 4095] |
| `Conditioning.FrequencyClampInactive` | src/main.cpp:304-305 | on [0, 4095] the defensive clamp never fires: the frequency is the plain `map` |
| `Conditioning.FrequencyMonotone` | src/main.cpp:304-305 | turning the pitch knob up never lowers the frequency |
| `Conditioning.FrequencyEndpoints` | src/main.cpp:304-305 | pitch 0 gives 350 Hz and pitch 4095 gives 2000 Hz |
| `Conditioning.DutyEndpoints` | src/main.cpp:306 | tone 0 gives duty 0 and tone 4095 gives duty 127 |
| `Conditioning.NoiseCeilingEndpoints` | src/main.cpp:309-310 | pitch 0 gives a 600 Hz edge and pitch 4095 a 5000 Hz edge |
| `Conditioning.HysteresisScenario` | src/main.cpp:286-295 | with pitch 2000 outside the lock window, a reading of 2003 is refused and a reading of 2005 is taken and restarts the window |
| `Conditioning.LockWindowScenario` | src/main.cpp:291-294 | after a move at t, a small change is followed at t + 499 and refused at t + 500 |
| `Conditioning.JitterRejected` | src/main.cpp:286-295 | once the lock window has closed, no stream of readings within 4 of the held pitch changes the pitch or the window |
| `Controller.Boot` | src/main.cpp:40-71 | the globals' initial values, with the knobs at the readings `setup` takes at lines 223-224; no contract of its own, its properties are `MenuTimesOutWithoutSelection`, `BootMuteIsEffective` and `BootWritesSilenceFirst` |
| `Controller.FeedbackTone` | src/main.cpp:97-104 | `playFeedbackTone` as a step; no contract of its own, its properties are `FeedbackForcesRewrite`, `ButtonPhase`'s beep clauses and `SoundToy.Device.PlayFeedbackTone` |
| `Controller.EncoderEdge` | src/main.cpp:76-86 | an edge more than 10 ms after the last accepted one moves the position by +1 if CLK differs from DT and by -1 otherwise, and records its time; a rejected edge changes nothing; nothing else ever changes |
| `Controller.ButtonPhase` | src/main.cpp:232-254 | the press flag follows the pin; mute flips exactly when a held press passes 800 ms unhandled, which marks it handled and beeps at 500 Hz; otherwise the handled flag changes only on a press edge; a release without a long press selects the highlighted waveform, enters PLAYING and beeps at 2000 Hz; otherwise the selection and UI state are unchanged; a beep forces the next update |
| `Controller.PressEdge` | src/main.cpp:233-235 | the press edge; no contract of its own, its effect is stated by `ButtonPhase`'s press-flag and start-time clauses |
| `Controller.LongPress` | src/main.cpp:237-244 | the long-press branch; no contract of its own, its effect is stated by `ButtonPhase`'s mute clauses and `LongPressMutes` |
| `Controller.Release` | src/main.cpp:246-254 | the release branch; no contract of its own, its effect is stated by `ButtonPhase`'s confirm clauses and `ShortPressConfirms` |
| `Controller.EncoderCheck` | src/main.cpp:257-262 | after a movement: the loop has caught up with the position, the menu index is \|position\| mod 4, the state is MENU and the timeout restarts at `now`; without a movement nothing changes |
| `Controller.MenuTimeout` | src/main.cpp:264-268 | MENU becomes PLAYING after more than 10 s idle, whatever `selectedMode` is; only the UI state can change |
| `Controller.Audio` | src/main.cpp:277-325 | with nothing accepted and nothing forced, no write; in the standard modes a frequency or duty write happens iff its target differs from the cache or an update is forced, each at most once and frequency first, the caches then hold the targets and the force flag is cleared; in noise mode one random duty below 255 and one random frequency in the band are written and the caches are left alone |
| `Controller.Conditioned` | src/main.cpp:285-300 | the knob state after the locking mechanism; no contract of its own, its properties are those of `ConditionPitch` and `ConditionTone` |
| `Controller.WriteTargets` | src/main.cpp:302-324 | the target computation and the cached or noise writes; no contract of its own, its properties are stated in `Audio`'s contract |
| `Controller.Silence` | src/main.cpp:326-332 | duty 0 is written only if the cache is not already 0, and the cache then says 0 |
| `Controller.LoopStep` | src/main.cpp:230-333 | one pass of `loop`, parts A, B and C in order; no contract of its own, its properties are `LoopStepKeepsInvariant`, `EncoderMoveShowsMenu`, `LoopTracksPosition` and the trace lemmas |
| `Controller.Controls` | src/main.cpp:232-268 | the button and menu parts never touch the encoder handler's variables, the knobs or the duty cache |
| `Controller.Output` | src/main.cpp:277-332 | part C changes only the knobs, the lock window, the two caches and the force flag, and when muted or unselected it is exactly the silence branch |
| `Controller.LoopStepKeepsInvariant` | src/main.cpp:230-333 | a loop pass keeps the menu index in [0, 3] and equal to \|lastPosition\| mod 4, the selection in [-1, 3], the knobs in [0, 4095], and the caches at in-range targets |
| `Controller.AudioKeepsInvariant` | src/main.cpp:302-323 | the audio engine only ever caches in-range targets |
| `Controller.EncoderMoveShowsMenu` | src/main.cpp:257-262 | an encoder movement seen by a loop pass always ends the pass in MENU, with the timeout restarted and the index at \|position\| mod 4, even if the button just confirmed |
| `Controller.LoopTracksPosition` | src/main.cpp:257-262 | after every loop pass the last seen position is the position, and the menu index is its magnitude mod 4 |
| `Controller.MenuTimesOutWithoutSelection` | src/main.cpp:264-268 | from power-on, an idle loop pass after 10 s enters PLAYING with no waveform selected |
| `Controller.ShortPressConfirms` | src/main.cpp:246-254 | a press released at 800 ms (held 799 ms at the last check) selects the highlighted waveform with one confirmation beep and leaves mute unchanged |
| `Controller.LongPressMutes` | src/main.cpp:237-254 | a press still held at 801 ms flips mute once with one beep; holding longer and releasing flip nothing and select nothing |
| `Controller.StandardAudioSettles` | src/main.cpp:315-324 | in the standard modes, a second audio pass over the same readings writes nothing |
| `Controller.FeedbackForcesRewrite` | src/main.cpp:97-104 | after a beep, the next standard-mode update writes both frequency and duty, whatever the caches held |
| `Controller.NoiseLeavesCaches` | src/main.cpp:308-313 | noise mode leaves the duty and frequency caches as they were |
| `SoundToy.Device.constructor` | src/main.cpp:40-71 | the fields start at the globals' initial values (MENU, no selection, muted, duty cache -1), with the knobs at `setup`'s averaged readings |
| `SoundToy.Device.UpdateEncoder` | src/main.cpp:76-86 | the handler changes the fields exactly as `EncoderEdge` says and keeps the invariant |
| `SoundToy.Device.PlayFeedbackTone` | src/main.cpp:97-104 | writes the frequency, duty 128, then duty 0; sets `forceUpdate`, zeroes the frequency cache and leaves the duty cache alone |
| `SoundToy.Device.Loop` | src/main.cpp:230-333 | one pass changes the fields and issues the writes exactly as `LoopStep` says for the averaged readings, and keeps the invariant |
| `SoundToy.Device.HandleButton` | src/main.cpp:232-254 | the button section changes the fields and writes exactly as `ButtonPhase` says |
| `SoundToy.Device.StartPress` | src/main.cpp:233-235 | a press edge records its start time and arms the long press, as `PressEdge` says |
| `SoundToy.Device.CheckLongPress` | src/main.cpp:237-244 | a press held past 800 ms and not yet handled flips mute, marks the press handled and beeps, as `LongPress` says |
| `SoundToy.Device.CheckRelease` | src/main.cpp:246-254 | a release that was not a long press selects the highlighted waveform, enters PLAYING and beeps, as `Release` says |
| `SoundToy.Device.UpdateMenu` | src/main.cpp:257-268 | the encoder check then the menu timeout, as `EncoderCheck` and `MenuTimeout` say |
| `SoundToy.Device.DriveAudio` | src/main.cpp:277-325 | reading, conditioning and writing as `Audio` says for the two averages |
| `SoundToy.Device.ConditionKnobs` | src/main.cpp:285-300 | the locking mechanism updates pitch, tone and the lock window as `ConditionPitch` and `ConditionTone` say, and reports which one was accepted |
| `SoundToy.Device.ApplyTargets` | src/main.cpp:302-324 | target computation and the cached or noise writes |
| `SoundToy.Device.SilenceOutput` | src/main.cpp:326-332 | the silence branch, as `Silence` says |
| `Traces.RunKeepsInvariant` | src/main.cpp:230-333 | the state invariant holds after any interleaving of interrupts and loop passes |
| `Traces.StepSilences` | src/main.cpp:326-332 | a loop pass that ends muted or unselected leaves the peripheral at duty 0, provided the peripheral was at duty 0 or the cache was not 0 before it |
| `Traces.SilenceIsKept` | src/main.cpp:326-332 | over any run, a silent device either has the peripheral at duty 0 or still owes the write, and after every loop pass that ends silent the last duty written is 0 |
| `Traces.BootMuteIsEffective` | src/main.cpp:54-64 | from power-on, whenever a loop pass ends muted or unselected, the last duty written to the peripheral is 0 |
| `Traces.SilentIdleWritesOnce` | src/main.cpp:326-332 | while the device stays silent with the button up, a run writes duty 0 at most once, and not at all if the cache already says 0 |
| `Traces.HeldPressFlipsMuteOnce` | src/main.cpp:237-244 | however long a press is held, it flips mute at most once, and not at all once its long press was handled |
| `Traces.DebounceSpacing` | src/main.cpp:76-86 | accepted encoder edges are more than 10 ms apart and more than 10 ms after the last one before the run, and the handler remembers the latest |
| `Traces.PositionMovesPerAcceptedEdge` | src/main.cpp:76-86 | over a run the position moves by at most one step per accepted edge; loop passes never move it |
| `Traces.EventMovesEncoderOnce` | src/main.cpp:76-86 | one event changes the position by exactly one step iff it is an accepted edge, which it records |
| `Traces.FirstWriteSilences` | src/main.cpp:326-332 | from a muted, idle state whose duty cache is not 0, the first write of any run is duty 0 |
| `Traces.BootWritesSilenceFirst` | src/main.cpp:48-64 | from power-on, the peripheral is told duty 0 before it is told anything else |

## Left out

- The display: `drawCenteredText`, `showSplashScreen`, `drawWaveIcon`, `updateDisplay` (also its call in the long-press branch), `lastDisplayUpdate` and the 33 ms refresh gate. They are pixel layout over a foreign graphics library and change no modelled state.
- `setup` apart from its two knob readings: serial, I2C, pin modes, PWM channel setup, interrupt registration and the halt when the display fails to start are hardware initialisation.
- The waiting done by `delay` and `delayMicroseconds`, and the real `analogRead`, `digitalRead` and `ledc*` calls. Readings and levels are inputs, and writes are returned commands without the channel and resolution arguments, which are constants.
- SoundToy.Device.PlayFeedbackTone: the `duration` argument only sets how long the beep waits, which is not modelled.
- SoundToy.Device.Loop: reads the clock once per pass, whereas the firmware reads `millis()` several times with delays in between.
- The distribution of `random`: only the set of values it can return is modelled.
- Preemption of the loop by the interrupt handler: the handler runs between loop passes, not inside one.
- 32-bit wrap-around of `millis()` (after about 49 days), overflow of `virtualPosition`, and `abs(INT_MIN)`: the model uses unbounded integers.
