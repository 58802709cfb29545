/**
 * The clock/configuration record of greenhouse_main_classes_2
 * (greenhouse_main_classes_2/Miscellaneous.cpp): the singleton returned by
 * Config::State(), modelled as one owned object. Its header is not part of
 * this model; the cursor fields are taken to be `unsigned short` like the
 * pointer globals of greenhouse_main_classes_1/Miscellaneous.h.
 */
module ConfigState {
  import opened Misc

  /** The value of every field of a Config object. */
  datatype ConfigRecord = ConfigRecord(
    setButton: bool,
    flash: bool,
    clockStartEnabled: bool,
    cursors: Cursors,
    currentClockTime: int,
    moistureWet: bool,
    moistureDry: bool,
    tempThresholdValue: u16,
    /** clockInputState_x: the integer stand-in for the clock input mode. */
    clockInputIndex: int)

  /** The record the constructor leaves behind. */
  function BootConfig(): ConfigRecord
  {
    ConfigRecord(false, false, false, ZeroCursors, 0, false, false, TempThresholdBoot, 0)
  }

  /** At boot the clock is stopped at 00:00:00, the editor selects the hour tens digit and the temperature cut-off is 30. */
  lemma BootConfigFacts()
    ensures var r := BootConfig();
      && !r.setButton && !r.flash && !r.clockStartEnabled
      && r.cursors == ZeroCursors && r.currentClockTime == 0
      && !r.moistureWet && !r.moistureDry
      && r.tempThresholdValue / 2 == 30
      && TempValueMin <= r.tempThresholdValue <= TempValueMax
      && 0 <= r.clockInputIndex < 5 && InputAt(r.clockInputIndex) == Hour2
  {
  }

  class Config {
    var setButton: bool
    var flash: bool
    var clockStartEnabled: bool
    var hourCursor2: u16
    var hourCursor1: u16
    var minuteCursor2: u16
    var minuteCursor1: u16
    var secondCursor2: u16
    var secondCursor1: u16
    var currentClockTime: int
    var moistureWet: bool
    var moistureDry: bool
    var tempThresholdValue: u16
    var clockInputIndex: int

    /** The six cursor fields as one value. */
    function Time(): Cursors
      reads this
    {
      Cursors(hourCursor2, hourCursor1, minuteCursor2, minuteCursor1, secondCursor2, secondCursor1)
    }

    /** All fields as one value. */
    function Record(): ConfigRecord
      reads this
    {
      ConfigRecord(setButton, flash, clockStartEnabled, Time(), currentClockTime,
                   moistureWet, moistureDry, tempThresholdValue, clockInputIndex)
    }

    constructor ()
      ensures Record() == BootConfig()
    {
      setButton := false;
      flash := false;
      clockStartEnabled := false;
      hourCursor2 := 0;
      hourCursor1 := 0;
      minuteCursor2 := 0;
      minuteCursor1 := 0;
      secondCursor2 := 0;
      secondCursor1 := 0;
      currentClockTime := 0;
      moistureWet := false;
      moistureDry := false;
      tempThresholdValue := 60;
      clockInputIndex := 0;
    }
  }
}
