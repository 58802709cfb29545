/**
 * Constants, enumerations and boot values shared by the greenhouse firmware
 * (greenhouse_main_classes_1/Miscellaneous.h). The header declares every
 * variable `static`; the model follows the evident intent of one shared set
 * of globals.
 */
module Misc {

  /** `unsigned short` on the Arduino Uno. */
  type u16 = x: int | 0 <= x < 0x1_0000

  /** `unsigned long` on the Arduino Uno, the type of millis(). */
  type u32 = x: int | 0 <= x < 0x1_0000_0000

  /** `uint8_t` / `byte`. */
  type u8 = x: int | 0 <= x < 0x100

  // Moisture thresholds on the mean of the four sensor readings.
  const MoistureThresholdLow: u16 := 300
  const MoistureThresholdHigh: u16 := 700

  // Temperature threshold, stored doubled to reduce the rotary knob's sensitivity.
  const TempThresholdBoot: u16 := 60
  const TempValueMin: u16 := 28
  const TempValueMax: u16 := 80

  // Light and water thresholds.
  const UvThresholdValue: u16 := 4
  const FlowThresholdValue: u16 := 99

  /** Debounce window of the MODE button, in milliseconds. */
  const DebounceTimePeriod: u16 := 170

  /** The five screens, in the header's enumeration order. */
  datatype DisplayMode = StartupImage | SetClock | ReadoutValues | ServiceMode | FlowFault

  /** The clock-setting sub-states, in the header's enumeration order. */
  datatype ClockInputMode = Hour2 | Hour1 | Minute2 | Minute1 | Completed

  /** The integer value C gives each clock input mode. */
  function InputIndex(m: ClockInputMode): (i: nat)
    ensures i < 5
    ensures i == 4 <==> m == Completed
  {
    match m
    case Hour2 => 0
    case Hour1 => 1
    case Minute2 => 2
    case Minute1 => 3
    case Completed => 4
  }

  /** The clock input mode whose integer value is i. */
  function InputAt(i: nat): (m: ClockInputMode)
    requires i < 5
    ensures InputIndex(m) == i
  {
    if i == 0 then Hour2
    else if i == 1 then Hour1
    else if i == 2 then Minute2
    else if i == 3 then Minute1
    else Completed
  }

  /** The mode that follows m in the editing order Hour2, Hour1, Minute2, Minute1, Completed. */
  function NextInput(m: ClockInputMode): (n: ClockInputMode)
    requires m != Completed
    ensures InputIndex(n) == InputIndex(m) + 1
  {
    InputAt(InputIndex(m) + 1)
  }

  /** The integer values are a faithful encoding of the enumeration. */
  lemma InputIndexRoundTrip(m: ClockInputMode)
    ensures InputAt(InputIndex(m)) == m
  {
  }

  /** The six digit cursors of the internal clock: tens and units of hours, minutes and seconds. */
  datatype Cursors = Cursors(hour2: u16, hour1: u16, minute2: u16, minute1: u16, second2: u16, second1: u16)

  const ZeroCursors := Cursors(0, 0, 0, 0, 0, 0)

  /** Every digit within its decimal range, hours at most 24 (24:00 is folded to 00:00 by the clock editor). */
  predicate ValidDigits(c: Cursors)
  {
    && c.hour2 <= 2 && c.hour1 <= 9 && (c.hour2 == 2 ==> c.hour1 <= 4)
    && c.minute2 <= 5 && c.minute1 <= 9
    && c.second2 <= 5 && c.second1 <= 9
  }

  /** `v++` on an unsigned short. */
  function Inc16(v: u16): (r: u16)
    ensures r == (v + 1) % 0x1_0000
  {
    if v == 0xFFFF then 0 else v + 1
  }

  /** A digit cursor incremented, then cleared when it reached `limit`. */
  function Bump(v: u16, limit: u16): (r: u16)
    requires 0 < limit
    ensures v < limit ==> r < limit && (r == 0 <==> v + 1 == limit)
    ensures r != 0 ==> r == v + 1
    ensures limit <= v < 0xFFFF ==> r == v + 1
  {
    var n := Inc16(v);
    if n == limit then 0 else n
  }

  /** The globals of Miscellaneous.h that the control layer reads or writes. */
  datatype Globals = Globals(
    moistureDry: bool, moistureWet: bool,
    tempThresholdValue: u16, tempValueFault: bool,
    ledLightEnabled: bool, ledLightState: bool, ledLightFault: bool,
    waterPumpEnabled: bool, waterPumpState: bool, waterLevelFault: bool, waterFlowFault: bool,
    setButton: bool, currentClockTime: int, clockStartEnabled: bool, characterFlashEnabled: bool,
    pointers: Cursors,
    displayState: DisplayMode, clockInputState: ClockInputMode, alarmMessageEnabled: bool,
    pressTimePrev: u32, greenhouseProgramStart: bool)

  /** The values the globals hold at boot; `pressTimePrev` has no initialiser and, being static, starts at 0. */
  function BootGlobals(): Globals
  {
    Globals(
      false, false,
      TempThresholdBoot, false,
      false, false, false,
      false, false, false, false,
      false, 0, false, false,
      ZeroCursors,
      StartupImage, Hour2, false,
      0, false)
  }

  /** At boot nothing is enabled, latched or running and the clock reads 00:00:00. */
  lemma BootGlobalsQuiet()
    ensures var g := BootGlobals();
      && !g.waterLevelFault && !g.waterFlowFault && !g.ledLightFault && !g.tempValueFault
      && !g.alarmMessageEnabled && !g.greenhouseProgramStart
      && !g.waterPumpEnabled && !g.waterPumpState && !g.ledLightEnabled && !g.ledLightState
      && !g.moistureDry && !g.moistureWet && !g.setButton
      && !g.clockStartEnabled && g.pointers == ZeroCursors && g.currentClockTime == 0
      && g.displayState == StartupImage && g.clockInputState == Hour2
      && InputIndex(g.clockInputState) == 0
  {
  }

  /** The thresholds are mutually consistent: the moisture band is non-empty and the boot temperature threshold lies in the knob's range. */
  lemma ThresholdsConsistent()
    ensures MoistureThresholdLow < MoistureThresholdHigh
    ensures TempValueMin <= BootGlobals().tempThresholdValue <= TempValueMax
    ensures BootGlobals().tempThresholdValue / 2 == 30
    ensures FlowThresholdValue == 99 && UvThresholdValue == 4 && DebounceTimePeriod == 170
  {
  }
}
