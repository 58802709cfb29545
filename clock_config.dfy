/**
 * The clock-cursor editor of greenhouse_main_classes_2/Clock.cpp. It edits
 * the cursor fields of the Config record in place, and picks the digit by the
 * integer clockInputState_x (0 = hour tens, 1 = hour units, 2 = minute tens,
 * 3 = minute units).
 */
module ClockConfig {
  import opened Misc
  import opened ConfigState

  /** One SET-button step: the digit named by `selector` is incremented with its own wrap. No other digit moves. */
  function EditDigit(c: Cursors, selector: int, setButton: bool): (r: Cursors)
    ensures r.second2 == c.second2 && r.second1 == c.second1
    ensures selector != 0 ==> r.hour2 == c.hour2
    ensures selector != 1 ==> r.hour1 == c.hour1
    ensures selector != 2 ==> r.minute2 == c.minute2
    ensures selector != 3 ==> r.minute1 == c.minute1
    ensures !setButton || selector < 0 || 3 < selector ==> r == c
  {
    if !setButton then c
    else if selector == 0 then c.(hour2 := Bump(c.hour2, 3))
    else if selector == 1 then c.(hour1 := Bump(c.hour1, if c.hour2 == 2 then 5 else 10))
    else if selector == 2 then c.(minute2 := Bump(c.minute2, 6))
    else if selector == 3 then c.(minute1 := Bump(c.minute1, 10))
    else c
  }

  /** A running clock that shows 24 hours is put back to 00; nothing else is touched. */
  function FoldMidnight(c: Cursors, running: bool): (r: Cursors)
    ensures r.minute2 == c.minute2 && r.minute1 == c.minute1
    ensures r.second2 == c.second2 && r.second1 == c.second1
    ensures running && c.hour2 == 2 && c.hour1 == 4 ==> r.hour2 == 0 && r.hour1 == 0
    ensures !(running && c.hour2 == 2 && c.hour1 == 4) ==> r == c
  {
    if running && c.hour2 == 2 && c.hour1 == 4 then c.(hour2 := 0, hour1 := 0) else c
  }

  /** The cursors after one call of setTime. */
  function Edited(c: Cursors, selector: int, setButton: bool, running: bool): (r: Cursors)
    ensures r.second2 == c.second2 && r.second1 == c.second1
    ensures !setButton && !running ==> r == c
    ensures running && r.hour2 == 2 ==> r.hour1 != 4
  {
    FoldMidnight(EditDigit(c, selector, setButton), running)
  }

  /** The record after resetTime: clock stopped and every cursor at zero. */
  function Cleared(r: ConfigRecord): ConfigRecord
  {
    r.(clockStartEnabled := false, cursors := ZeroCursors)
  }

  /** Clock::setTime. */
  method SetTime(cfg: Config)
    modifies cfg
    ensures cfg.Time() == Edited(old(cfg.Time()), old(cfg.clockInputIndex), old(cfg.setButton), old(cfg.clockStartEnabled))
    ensures cfg.setButton == old(cfg.setButton) && cfg.flash == old(cfg.flash)
    ensures cfg.clockStartEnabled == old(cfg.clockStartEnabled) && cfg.currentClockTime == old(cfg.currentClockTime)
    ensures cfg.moistureWet == old(cfg.moistureWet) && cfg.moistureDry == old(cfg.moistureDry)
    ensures cfg.tempThresholdValue == old(cfg.tempThresholdValue) && cfg.clockInputIndex == old(cfg.clockInputIndex)
  {
    match cfg.clockInputIndex {
      case 0 =>
        if cfg.setButton {
          cfg.hourCursor2 := Inc16(cfg.hourCursor2);
          if cfg.hourCursor2 == 3 {
            cfg.hourCursor2 := 0;
          }
        }
      case 1 =>
        if cfg.setButton {
          cfg.hourCursor1 := Inc16(cfg.hourCursor1);
          if cfg.hourCursor2 == 2 {
            if cfg.hourCursor1 == 5 {
              cfg.hourCursor1 := 0;
            }
          } else {
            if cfg.hourCursor1 == 10 {
              cfg.hourCursor1 := 0;
            }
          }
        }
      case 2 =>
        if cfg.setButton {
          cfg.minuteCursor2 := Inc16(cfg.minuteCursor2);
          if cfg.minuteCursor2 == 6 {
            cfg.minuteCursor2 := 0;
          }
        }
      case 3 =>
        if cfg.setButton {
          cfg.minuteCursor1 := Inc16(cfg.minuteCursor1);
          if cfg.minuteCursor1 == 10 {
            cfg.minuteCursor1 := 0;
          }
        }
      case _ =>
    }
    if cfg.clockStartEnabled {
      if cfg.hourCursor2 == 2 && cfg.hourCursor1 == 4 {
        cfg.hourCursor2 := 0;
        cfg.hourCursor1 := 0;
      }
    }
  }

  /** Clock::resetTime. */
  method ResetTime(cfg: Config)
    modifies cfg
    ensures cfg.Record() == Cleared(old(cfg.Record()))
  {
    cfg.clockStartEnabled := false;
    cfg.hourCursor2 := 0;
    cfg.hourCursor1 := 0;
    cfg.minuteCursor2 := 0;
    cfg.minuteCursor1 := 0;
    cfg.secondCursor2 := 0;
    cfg.secondCursor1 := 0;
  }

  /** With SET released, setTime changes nothing but the 24 -> 00 fold. */
  lemma ReleasedSetOnlyFolds(c: Cursors, selector: int, running: bool)
    ensures Edited(c, selector, false, running) == FoldMidnight(c, running)
    ensures !running ==> Edited(c, selector, false, running) == c
  {
  }

  /** A selector outside 0..3 edits no digit. */
  lemma UnknownSelectorEditsNothing(c: Cursors, selector: int, setButton: bool, running: bool)
    requires selector < 0 || 3 < selector
    ensures Edited(c, selector, setButton, running) == FoldMidnight(c, running)
  {
  }

  /** Selector 0: the hour tens digit counts 0, 1, 2, 0, ... */
  lemma HourTensCycle(c: Cursors)
    requires c.hour2 <= 2
    ensures EditDigit(c, 0, true).hour2 == (c.hour2 + 1) % 3
    ensures EditDigit(c, 0, true).hour2 <= 2
  {
  }

  /** Selector 1: the hour units digit counts modulo 5 under a tens digit of 2, modulo 10 otherwise. */
  lemma HourUnitsCycle(c: Cursors)
    ensures c.hour2 == 2 && c.hour1 <= 4 ==> EditDigit(c, 1, true).hour1 == (c.hour1 + 1) % 5
    ensures c.hour2 != 2 && c.hour1 <= 9 ==> EditDigit(c, 1, true).hour1 == (c.hour1 + 1) % 10
  {
  }

  /** Selectors 2 and 3: minute tens count modulo 6, minute units modulo 10. */
  lemma MinuteCycles(c: Cursors)
    ensures c.minute2 <= 5 ==> EditDigit(c, 2, true).minute2 == (c.minute2 + 1) % 6
    ensures c.minute1 <= 9 ==> EditDigit(c, 3, true).minute1 == (c.minute1 + 1) % 10
  {
  }

  /** Under a tens digit of 2 the units digit only clears when it reaches exactly 5: a larger start value keeps counting up. */
  lemma HourUnitsPastCap(c: Cursors)
    requires c.hour2 == 2 && 5 <= c.hour1 < 0xFFFF
    ensures EditDigit(c, 1, true).hour1 == c.hour1 + 1
  {
  }

  /** The hour tens edit does not look at the units digit: 19 becomes 29. */
  lemma HourTensIgnoresUnits()
    ensures var c := Cursors(1, 9, 0, 0, 0, 0);
      ValidDigits(c) && Edited(c, 0, true, false) == Cursors(2, 9, 0, 0, 0, 0)
      && !ValidDigits(Edited(c, 0, true, false))
  {
  }

  /** Hour units from 23: the next press gives 24, the one after wraps to 20 (clock stopped) or 00 (clock running). */
  lemma HourUnitsCapAtTwentyFour()
    ensures Edited(Cursors(2, 3, 0, 0, 0, 0), 1, true, false) == Cursors(2, 4, 0, 0, 0, 0)
    ensures Edited(Cursors(2, 4, 0, 0, 0, 0), 1, true, false) == Cursors(2, 0, 0, 0, 0, 0)
    ensures Edited(Cursors(2, 3, 0, 0, 0, 0), 1, true, true) == Cursors(0, 0, 0, 0, 0, 0)
  {
  }

  /** setTime keeps every digit in range, provided the hour tens digit is only edited while the units digit is at most 4. */
  lemma EditKeepsDigitsValid(c: Cursors, selector: int, setButton: bool, running: bool)
    requires ValidDigits(c)
    requires selector == 0 ==> c.hour1 <= 4
    ensures ValidDigits(Edited(c, selector, setButton, running))
  {
  }

  /** resetTime stops the clock, zeroes the six cursors, keeps every other field, and a second call changes nothing. */
  lemma ResetTimeIdempotent(r: ConfigRecord)
    ensures !Cleared(r).clockStartEnabled && Cleared(r).cursors == ZeroCursors
    ensures Cleared(r).(clockStartEnabled := r.clockStartEnabled, cursors := r.cursors) == r
    ensures Cleared(Cleared(r)) == Cleared(r)
  {
  }
}
