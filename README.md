# Greenhouse controller: operator control layer

This project models the operator-facing control layer of an Arduino Uno greenhouse controller and proves properties of that model. The layer covers:

- the MODE-button state machine that moves the OLED between the startup image, clock setting, readout values, service mode and the flow-fault screen, together with its debounce and the flow-fault reboot;
- the clock-digit editor driven by the SET button, in two revisions: one keyed by an integer mirror on a `Config` object, the other keyed by the enumeration over global pointers;
- the boot values of the globals and of the `Config` record;
- the moisture trimmed mean and its dry / ok / wet verdict;
- the water-pump, LED and temperature decisions;
- the channel byte of the I2C multi-channel relay driver, and the result rule of its bus scan.

State the firmware updates in place is modelled as classes whose fields are the globals or object fields:

- `DisplayControl.Display` holds the display globals and shares a `ConfigState.Config` object.
- `ClockPointers.ClockGlobals` holds the pointer globals.
- `Relay.MultiChannelRelay` holds the relay driver's fields.

Most methods are specified by a pure function of the old state: `Press`, `Show`, `Edited`, `Cleared`, `EditPointers`, `SwitchOn` and `SwitchOff`; the simplest ones (`ResetTime` of the pointer revision, `ViewStartupImage`, the relay's `Begin`, `ChannelCtrl` and `ChangeI2CAddress`) state their new fields directly. The lemmas about those functions carry the properties. The calculation code becomes functions, or methods with loops where the firmware loops (`CalculateMean`, `ScanI2CDevice`).

The main loop is modelled as a sequence of events: MODE presses with their `millis()` time, screen refreshes, SET button levels and flow-sensor verdicts. An invariant over every run from power-on shows:

- the flow-fault screen is never the mode left behind;
- the greenhouse program and the alarm banner run only once the clock has been set;
- the clock digits stay in range.

Modules: `Misc` (constants, enumerations, globals), `ConfigState`, `ClockConfig`, `ClockPointers`, `DisplayControl`, `Moisture`, `Watering`, `Lighting`, `Temperature`, `Relay`.

The model follows the code, including two behaviours the firmware's own comments do not lead one to expect:

- A latched water-flow fault does not leave the display on a FLOW_FAULT screen. The comment at greenhouse_main_classes_2/Display.cpp:44 says the FLOW_FAULT screen "will be activated next time mode-button is being pressed" so that the user can resolve the fault. But `toggleDisplayMode` forces FLOW_FAULT and then falls into that case of the same `switch`, so the same press ends on the startup image (`DisplayControl.FlowFaultReboots`, `DisplayControl.FlowFaultNeverShown`).
- The integer mirror `clockInputState_x` is not advanced when COMPLETED is reached. It stays at 3, so a held SET still edits the minute units digit on that screen (`DisplayControl.CompletedStillEditsMinuteUnits`).

## Model

| member | source | states |
|---|---|---|
| Misc.InputIndex | greenhouse_main_classes_1/Miscellaneous.h:128 | the C value of a clock input mode is below 5, and is 4 exactly for COMPLETED |
| Misc.InputAt | greenhouse_main_classes_1/Miscellaneous.h:128 | the mode numbered i is the one whose C value is i |
| Misc.NextInput | greenhouse_main_classes_2/Display.cpp:50-70 | each SET_CLOCK step moves to the next input mode in the order HOUR2, HOUR1, MINUTE2, MINUTE1, COMPLETED |
| Misc.InputIndexRoundTrip | greenhouse_main_classes_1/Miscellaneous.h:128 | encoding a mode as its integer and decoding it gives the mode back |
| Misc.Inc16 | greenhouse_main_37_classes/Clock.cpp:13 | `++` on an unsigned short wraps modulo 65536 |
| Misc.Bump | greenhouse_main_classes_2/Clock.cpp:14-17 | a digit below its limit stays below it and clears exactly when it reaches the limit; any non-zero result is the old value plus one, including for values already past the limit |
| Misc.BootGlobalsQuiet | greenhouse_main_classes_1/Miscellaneous.h:83-137 | at boot every fault, alarm, enable and program flag is false, the clock is stopped at 00:00:00, the display shows the startup image and clock input starts at HOUR2 |
| Misc.ThresholdsConsistent | greenhouse_main_classes_1/Miscellaneous.h:81-134 | moisture LOW 300 < HIGH 700; the boot temperature threshold 60 lies in [28, 80] and means 30 degrees; flow threshold 99, UV threshold 4, debounce 170 ms |
| ConfigState.BootConfigFacts | greenhouse_main_classes_2/Miscellaneous.cpp:4-26 | the Config record starts with SET, flash and clock off, six zero cursors, clock time 0, no moisture flags, threshold 60 (30 degrees), and the editor on HOUR2 |
| ConfigState.Config.constructor | greenhouse_main_classes_2/Miscellaneous.cpp:4-26 | a new Config holds exactly the boot record |
| ClockConfig.EditDigit | greenhouse_main_classes_2/Clock.cpp:9-56 | only the digit named by the selector may change; seconds never change; with SET released or a selector outside 0..3 nothing changes |
| ClockConfig.FoldMidnight | greenhouse_main_classes_2/Clock.cpp:59-64 | a running clock reading 24 hours gets both hour digits set to 0; minutes and seconds are untouched; otherwise nothing changes |
| ClockConfig.Edited | greenhouse_main_classes_2/Clock.cpp:8-65 | the cursors after one setTime call, the selected-digit edit followed by the 24:00 fold; seconds never change, with SET released and the clock stopped nothing changes, and a running clock never ends the call at 24 hours |
| ClockConfig.Cleared | greenhouse_main_classes_2/Clock.cpp:71-81 | the record after resetTime: clock stopped, six cursors zero, every other field kept (its properties are in `ClockConfig.ResetTimeIdempotent`) |
| ClockConfig.SetTime | greenhouse_main_classes_2/Clock.cpp:8-65 | the Config's cursors become the edited and folded cursors; every other field is unchanged |
| ClockConfig.ResetTime | greenhouse_main_classes_2/Clock.cpp:71-81 | the Config becomes its cleared record: clock stopped, six cursors zero |
| ClockConfig.ReleasedSetOnlyFolds | greenhouse_main_classes_2/Clock.cpp:11-64 | with SET released, setTime applies only the 24:00 fold, and nothing at all while the clock is stopped |
| ClockConfig.UnknownSelectorEditsNothing | greenhouse_main_classes_2/Clock.cpp:9-56 | a mirror value outside 0..3 edits no digit |
| ClockConfig.HourTensCycle | greenhouse_main_classes_2/Clock.cpp:14-17 | the hour tens digit counts 0, 1, 2, 0 and stays within 0..2 |
| ClockConfig.HourUnitsCycle | greenhouse_main_classes_2/Clock.cpp:24-35 | the hour units digit counts modulo 5 under a tens digit of 2 and modulo 10 otherwise |
| ClockConfig.MinuteCycles | greenhouse_main_classes_2/Clock.cpp:41-53 | the minute tens digit counts modulo 6 and the minute units digit modulo 10 |
| ClockConfig.HourUnitsPastCap | greenhouse_main_classes_2/Clock.cpp:26-30 | under a tens digit of 2, an hour units digit of 5 or more keeps counting up, because the reset tests for exactly 5 |
| ClockConfig.HourTensIgnoresUnits | greenhouse_main_classes_2/Clock.cpp:14-17 | the hour tens edit ignores the units digit, so valid 19 becomes invalid 29 |
| ClockConfig.HourUnitsCapAtTwentyFour | greenhouse_main_classes_2/Clock.cpp:24-35 | from 23 the hour units reach 24 and then wrap to 20 while the clock is stopped; with the clock running 24 folds to 00 |
| ClockConfig.EditKeepsDigitsValid | greenhouse_main_classes_2/Clock.cpp:8-65 | setTime keeps every digit within its decimal range and the hours at or below 24, provided the hour tens are edited only while the units are at most 4 |
| ClockConfig.ResetTimeIdempotent | greenhouse_main_classes_2/Clock.cpp:71-81 | resetTime stops the clock, zeroes the six cursors, keeps every other field, and a second reset changes nothing |
| ClockPointers.EditPointers | greenhouse_main_37_classes/Clock.cpp:8-62 | seconds never change, and a running clock never ends a setTime call showing 24 hours |
| ClockPointers.ClockGlobals.constructor | greenhouse_main_classes_1/Miscellaneous.h:109-119 | the pointer globals start at 00:00:00 with the clock stopped, SET released and input at HOUR2 |
| ClockPointers.ClockGlobals.SetTime | greenhouse_main_37_classes/Clock.cpp:8-62 | the pointers become the enum-keyed edit of the old pointers; SET, the clock flag and the input state are unchanged |
| ClockPointers.ClockGlobals.ResetTime | greenhouse_main_37_classes/Clock.cpp:68-77 | the clock is stopped and all six pointers are zero; SET and the input state are unchanged |
| ClockPointers.ReleasedSetOnlyFolds | greenhouse_main_37_classes/Clock.cpp:11-61 | pointers move only while SET is held; otherwise only the 24:00 fold applies |
| ClockPointers.CompletedEditsNothing | greenhouse_main_37_classes/Clock.cpp:9-53 | in COMPLETED no pointer is edited |
| ClockPointers.PointerCycles | greenhouse_main_37_classes/Clock.cpp:13-51 | from valid digits: hour tens count modulo 3; hour units modulo 5 under a 2 and modulo 10 otherwise; minute tens modulo 6; minute units modulo 10 |
| ClockPointers.RunningClockFoldsTwentyFour | greenhouse_main_37_classes/Clock.cpp:56-61 | a running clock showing 24 hours is folded to 00 whether or not SET is held on a minute digit |
| ClockPointers.RevisionsAgree | greenhouse_main_37_classes/Clock.cpp:8-62 | the integer-keyed revision with selector 0..3 edits exactly like the enum-keyed one with the same mode; any other selector edits like COMPLETED |
| DisplayControl.Elapsed | greenhouse_main_classes_2/Display.cpp:42 | `millis() - pressTimePrev` as an unsigned long: the plain difference, or the difference across the 2^32 rollover |
| DisplayControl.AdvanceInput | greenhouse_main_classes_2/Display.cpp:50-70 | one step of the clock-setting sequence: the screen stays, the input mode moves one step forward and the cursors are untouched |
| DisplayControl.Transition | greenhouse_main_classes_2/Display.cpp:45-108 | the effect of an accepted press: a latched fault is handled first; the result is never the FLOW_FAULT screen, and the cursors and press time are untouched |
| DisplayControl.Press | greenhouse_main_classes_2/Display.cpp:41-112 | a MODE press at `now`: debounced, then the transition and the time stamp; a press never leaves the display on FLOW_FAULT unless it changed nothing, and never edits the cursors |
| DisplayControl.Show | greenhouse_main_classes_2/Display.cpp:11-35 | the state effect of one printToScreen: the result is never the startup image, FLOW_FAULT is kept exactly when it was shown, and input mode, fault flag and press time are untouched |
| DisplayControl.ResolveFlowFault | greenhouse_main_classes_2/Display.cpp:89-108 | leaving the flow-fault case always clears the fault flag |
| DisplayControl.Display.constructor | greenhouse_main_classes_1/Miscellaneous.h:126-137 | the display starts from the boot panel and shares the given Config |
| DisplayControl.Display.Toggle | greenhouse_main_classes_2/Display.cpp:41-112 | the panel after a MODE press at `now` is the press transition of the old panel |
| DisplayControl.Display.ViewStartupImage | greenhouse_main_classes_2/Display.cpp:384-395 | the display moves to SET_CLOCK and nothing else changes |
| DisplayControl.Display.Render | greenhouse_main_classes_2/Display.cpp:11-35 | the panel after one printToScreen is the render step of the old panel |
| DisplayControl.DebounceWindow | greenhouse_main_classes_2/Display.cpp:42-110 | a press less than 170 ms after the last accepted one changes nothing; an accepted press records `now` |
| DisplayControl.DebounceAcrossRollover | greenhouse_main_classes_2/Display.cpp:42 | across the millis() rollover a press 200 ms after the stamp is accepted and one 150 ms after it is not |
| DisplayControl.SetClockProgression | greenhouse_main_classes_2/Display.cpp:49-70 | in SET_CLOCK each press advances the input mode by one and stays in SET_CLOCK without touching program, alarm or cursors; the mirror follows up to MINUTE1, and reaching COMPLETED starts the clock and leaves the mirror alone |
| DisplayControl.LeavingSetClock | greenhouse_main_classes_2/Display.cpp:71-76 | a press on SET_CLOCK / COMPLETED moves to READOUT_VALUES with alarm and program on, and changes nothing else |
| DisplayControl.ReadoutServiceAlternate | greenhouse_main_classes_2/Display.cpp:79-88 | READOUT_VALUES and SERVICE_MODE swap on each press, which turns the alarm banner off and keeps the program flag; two presses return to the start |
| DisplayControl.FlowFaultReboots | greenhouse_main_classes_2/Display.cpp:45-108 | with the flow fault latched, one accepted press from any screen ends on STARTUP_IMAGE with fault, program and alarm cleared; clock input, clock flag and cursors are untouched |
| DisplayControl.ClearedFaultResumes | greenhouse_main_classes_2/Display.cpp:89-99 | on FLOW_FAULT with the fault cleared, a press resumes in SERVICE_MODE with program and alarm on |
| DisplayControl.StartupImageLeftOnlyByRender | greenhouse_main_classes_2/Display.cpp:14-20 | without a fault, a press on STARTUP_IMAGE changes only the press time; rendering it moves to SET_CLOCK |
| DisplayControl.RenderRunsClockEditor | greenhouse_main_classes_2/Display.cpp:14-35 | rendering SET_CLOCK runs the clock editor on the Config cursors and nothing else; READOUT_VALUES, SERVICE_MODE and FLOW_FAULT renders change no state |
| DisplayControl.CompletedStillEditsMinuteUnits | greenhouse_main_classes_2/Display.cpp:66-70 | since the mirror stays at 3 on COMPLETED, a held SET on that screen turns 12:35 into 12:36 |
| DisplayControl.InvBoot | greenhouse_main_classes_1/Miscellaneous.h:126-137 | the boot panel satisfies the run invariant |
| DisplayControl.InvApply | greenhouse_main_classes_2/Display.cpp:11-112 | every press, render, SET level change and flow verdict preserves the run invariant |
| DisplayControl.InvRun | greenhouse_main_classes_2/Display.cpp:11-112 | every sequence of events preserves the run invariant |
| DisplayControl.FlowFaultNeverShown | greenhouse_main_classes_2/Display.cpp:45-108 | from power-on, whatever the events, the display never rests on FLOW_FAULT |
| DisplayControl.ProgramNeedsSetClock | greenhouse_main_classes_2/Display.cpp:66-76 | from power-on, the greenhouse program or the alarm banner is on only once the clock is started and input is COMPLETED |
| DisplayControl.DigitsStayValid | greenhouse_main_classes_2/Clock.cpp:8-65 | from power-on the clock digits stay within their decimal ranges and the hours at or below 24 |
| DisplayControl.BootScenario | greenhouse_main_classes_2/Display.cpp:11-112 | power-on, a render, three SET renders (hour tens 1, 2, 0) and five spaced presses reach READOUT_VALUES with program, alarm and clock on |
| Moisture.LargestIsMaximum | greenhouse_main_classes_1/Moisture.cpp:30-34 | the largest reading bounds every reading and is one of them |
| Moisture.SmallestIsMinimum | greenhouse_main_classes_1/Moisture.cpp:35-38 | the smallest reading is below or equal to every reading and is one of them |
| Moisture.SumOfFour | greenhouse_main_classes_1/Moisture.cpp:43-46 | the summing loop over four readings adds all four |
| Moisture.ExtremesAreLargestSmallest | greenhouse_main_classes_1/Moisture.cpp:29-39 | an index whose reading bounds all others from above holds the largest, and one bounding from below holds the smallest |
| Moisture.TrimmedSum | greenhouse_main_classes_1/Moisture.cpp:40-46 | after zeroing the largest and the smallest, the sum is the total minus both, and lies between twice the smallest and twice the largest |
| Moisture.Extremes | greenhouse_main_classes_1/Moisture.cpp:29-39 | the maximum index is the first with the largest reading; the minimum index is the first strictly below everything before it, at least 1, and holds the smallest; the two differ |
| Moisture.SumReadings | greenhouse_main_classes_1/Moisture.cpp:45-47 | the summing loop returns the sum of all the array's readings |
| Moisture.CalculateMean | greenhouse_main_classes_1/Moisture.cpp:19-51 | the mean is (sum - largest - smallest) / 2 and lies between the smallest and the largest reading |
| Moisture.EvaluateValue | greenhouse_main_classes_1/Moisture.cpp:57-71 | the dry / wet flags for a mean; never both (the bands are in `Moisture.EvaluateBands`) |
| Moisture.EvaluateBands | greenhouse_main_classes_1/Moisture.cpp:57-71 | dry exactly at or below 300, wet exactly above 700, never both, neither exactly in (300, 700] |
| Moisture.EvaluateMonotone | greenhouse_main_classes_1/Moisture.cpp:57-71 | a higher mean is never judged drier and a lower mean never wetter |
| Watering.FlowCheck | greenhouse_main_classes_2/Watering.cpp:65-78 | the flow fault verdict for a measured flow (its threshold is in `Watering.FlowThreshold`) |
| Watering.CheckWaterNeed | greenhouse_main_classes_2/Watering.cpp:84-98 | whether the pump should run, from the moisture and water-fault flags (characterised in `Watering.WaterNeedIff`) |
| Watering.StartPump | greenhouse_main_classes_2/Watering.cpp:29-46 | the reported pump state is always on, and the flow value is cleared when the pump was off |
| Watering.StopPump | greenhouse_main_classes_2/Watering.cpp:52-59 | the reported pump state, always off (stated in `Watering.PumpReports`) |
| Watering.FlowThreshold | greenhouse_main_classes_2/Watering.cpp:65-78 | a flow fault exactly below 99 L/h; 99 is no fault, 98 is; a lower flow faults whenever a higher one does |
| Watering.WaterNeedIff | greenhouse_main_classes_2/Watering.cpp:84-98 | water is needed iff dry, not wet, no level fault and no flow fault; any water fault rules it out |
| Watering.WaterNeedFromMoisture | greenhouse_main_classes_2/Watering.cpp:84-98 | given the moisture verdict, water is needed iff the mean is at most 300 and no water fault is latched |
| Watering.PumpReports | greenhouse_main_classes_2/Watering.cpp:33-58 | startPump always reports a running pump and clears the flow value when the pump was off, keeping the measured one otherwise; stopPump always reports it stopped |
| Watering.StartFromOffFlagsFlow | greenhouse_main_classes_2/Watering.cpp:42-78 | a pump started from off reports a flow of 0, which the flow check flags |
| Lighting.CheckLightNeed | greenhouse_main_classes_1/Lighting.cpp:17-39 | whether the LEDs are needed, from the HHMM clock time and the UV reading (characterised in `Lighting.LightNeedIff`) |
| Lighting.CheckLightNeedFromConfig | greenhouse_main_classes_2/Lighting.cpp:9-31 | the same decision on the Config record's clock time: needed iff 631 <= time < 2332 and UV < 4 |
| Lighting.StartLed | greenhouse_main_classes_1/Lighting.cpp:45-54 | the LED state startLed reports (stated in `Lighting.LedSwitchesReportEnable`) |
| Lighting.StopLed | greenhouse_main_classes_1/Lighting.cpp:60-69 | the LED state stopLed reports (stated in `Lighting.LedSwitchesReportEnable`) |
| Lighting.LedLightCheck | greenhouse_main_classes_1/Lighting.cpp:76-86 | the LED fault verdict (characterised in `Lighting.LedFaultIff`) |
| Lighting.LightNeedIff | greenhouse_main_classes_1/Lighting.cpp:17-39 | light is needed iff 631 <= clock time < 2332 and UV < 4; outside the window never |
| Lighting.WindowBoundaries | greenhouse_main_classes_2/Lighting.cpp:14 | 06:31 and 23:31 are inside the window, 06:30 and 23:32 are outside |
| Lighting.HhmmWindowIsTimeOfDay | greenhouse_main_classes_1/Lighting.cpp:22-24 | on a real time h:m, the HHMM comparison is the minutes from 06:31 to 23:31 inclusive |
| Lighting.LedSwitchesReportEnable | greenhouse_main_classes_1/Lighting.cpp:45-69 | startLed is true iff enabled, stopLed is false iff not enabled, so both report the enable flag |
| Lighting.LedFaultIff | greenhouse_main_classes_2/Lighting.cpp:68-78 | the LED fault holds iff the LED is on and UV < 4; an LED reported off by stopLed never faults, and one reported on by startLed faults exactly when UV < 4 |
| Temperature.ThresholdCompare | greenhouse_main_classes_1/Temperature.cpp:17-26 | the fault holds iff twice the temperature exceeds the stored threshold, so the halving loses nothing |
| Temperature.HalfIsNoFault | greenhouse_main_classes_2/Temperature.cpp:8-17 | a temperature equal to the halved threshold is no fault |
| Temperature.OddThresholdRoundsDown | greenhouse_main_classes_2/Temperature.cpp:10 | thresholds 2k and 2k+1 give the same verdict |
| Temperature.FaultMonotone | greenhouse_main_classes_1/Temperature.cpp:19 | every temperature above a faulting one faults |
| Temperature.BootCutoff | greenhouse_main_classes_1/Temperature.cpp:19 | with the boot threshold 60 the cut-off is 30 degrees |
| Relay.MaskIsShift | greenhouse_main_classes_1/MultiChannelRelay.cpp:88 | the bit of channel c, channel 1 lowest, is the driver's `1 << (channel-1)` for every channel 1..8 |
| Relay.SwitchOn | greenhouse_main_classes_1/MultiChannelRelay.cpp:88 | channel c is on afterwards and every other channel keeps its state |
| Relay.SwitchOff | greenhouse_main_classes_1/MultiChannelRelay.cpp:98 | channel c is off afterwards and every other channel keeps its state |
| Relay.ChannelsDetermineState | greenhouse_main_classes_1/MultiChannelRelay.cpp:71-74 | two channel bytes that agree on all eight channels are equal |
| Relay.SwitchIdempotent | greenhouse_main_classes_1/MultiChannelRelay.cpp:86-104 | turning a channel on twice, or off twice, is the same as once |
| Relay.OffUndoesOn | greenhouse_main_classes_1/MultiChannelRelay.cpp:86-104 | turning on and then off a channel that was off restores the byte |
| Relay.MultiChannelRelay.Begin | greenhouse_main_classes_1/MultiChannelRelay.cpp:42-48 | begin clears the channel byte and stores the address |
| Relay.MultiChannelRelay.GetChannelState | greenhouse_main_classes_1/MultiChannelRelay.cpp:71-74 | the channel byte is returned as stored |
| Relay.MultiChannelRelay.ChannelCtrl | greenhouse_main_classes_1/MultiChannelRelay.cpp:76-84 | the channel byte becomes exactly the given state; the address is kept |
| Relay.MultiChannelRelay.TurnOnChannel | greenhouse_main_classes_1/MultiChannelRelay.cpp:86-94 | the channel byte gains the channel's bit; the address is kept |
| Relay.MultiChannelRelay.TurnOffChannel | greenhouse_main_classes_1/MultiChannelRelay.cpp:96-104 | the channel byte loses the channel's bit; the address is kept |
| Relay.MultiChannelRelay.ChangeI2CAddress | greenhouse_main_classes_1/MultiChannelRelay.cpp:61-69 | the stored address becomes the new one; the channel byte is kept |
| Relay.MultiChannelRelay.ScanI2CDevice | greenhouse_main_classes_1/MultiChannelRelay.cpp:106-155 | the result is non-zero iff exactly one address in 1..127 acknowledged, and is then that address |

## Left out

- OLED drawing, `Serial` logging, `delay` busy-waits and the startup bitmap have no effect on the modelled state and are not modelled; the digit flashing of the SET_CLOCK screen is not modelled either.
- `millis()` is the parameter `now`. The second `millis()` call in `toggleDisplayMode`, which stores `pressTimePrev`, is taken to return the same instant as the first.
- The clock ticker that advances seconds and builds `currentClockTime` lives outside the modelled files and is not modelled. Because of this, the run model never changes `currentClockTime`.
- The lazy `getInstance` singletons become single owned objects: `Display` holds its `Config`. The `static` globals of Miscellaneous.h, which formally give each translation unit its own copy, are modelled as one shared set of globals.
- The sensor reads (`analogRead`, `digitalRead`, seesaw), the flow-sensor interrupt and the floating-point flow-rate formula are not modelled. `startPump` takes the resulting litres per hour as the parameter `sampledFlow`.
- The relay calls in the pump and LED functions are commented out in the firmware and are not modelled. The I2C bus traffic of the relay driver is not modelled; `scanI2CDevice` takes each address's end-of-transmission status as the parameter `status`. `getFirmwareVersion` only reads the bus and is not modelled.
- The reboot path of `toggleDisplayMode` has the pump stop and clock reset commented out; the model follows that and does not stop the pump or reset the clock there.
- The headers of `Config` and of the relay driver are not part of this model. The Config cursor fields are taken to be `unsigned short`, like the pointer globals. The relay channel state is a byte and the address an `int`.
- `toggleDisplayMode` is the MODE button's interrupt handler (it is `static` and the button sits on an external interrupt). The model takes each press to fall between two main-loop steps, never inside a `printToScreen` or `setTime` call.
- Moisture.CalculateMean: requires each reading to be at most 1023 (the 10-bit analogue range), so that the 16-bit `int` sum cannot overflow. It also requires some later reading to be strictly below the first. This works around a defect in the firmware: `minIndex` is assigned only when a later reading is strictly below the first (greenhouse_main_classes_1/Moisture.cpp:24, :35-38), so whenever the first reading is a smallest one, for example 500, 600, 700, 800, line 42 zeroes an entry at an uninitialised index. What the firmware computes in that case is not modelled.
- Moisture.Extremes: requires non-negative readings and some later reading strictly below the first, for the same uninitialised-index reason.
- Relay.MultiChannelRelay.TurnOnChannel: requires a channel in 1..8. Channel 0 is a negative shift, and channels above 8 shift the bit out of the byte.
- Relay.MultiChannelRelay.TurnOffChannel: requires a channel in 1..8, for the same reason.
