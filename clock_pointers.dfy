/**
 * The clock-cursor editor of greenhouse_main_37_classes/Clock.cpp. This
 * revision edits the global `hourPointer*`, `minutePointer*` and
 * `secondPointer*` variables declared in Miscellaneous.h and picks the digit
 * by the enumeration `clockInputState` itself.
 */
module ClockPointers {
  import opened Misc
  import ClockConfig

  /** The pointers after one call of setTime in this revision. */
  function EditPointers(p: Cursors, state: ClockInputMode, setButton: bool, running: bool): (r: Cursors)
    ensures r.second2 == p.second2 && r.second1 == p.second1
    ensures running && r.hour2 == 2 ==> r.hour1 != 4
  {
    var q :=
      if !setButton then p
      else match state
        case Hour2 => p.(hour2 := Bump(p.hour2, 3))
        case Hour1 => p.(hour1 := Bump(p.hour1, if p.hour2 == 2 then 5 else 10))
        case Minute2 => p.(minute2 := Bump(p.minute2, 6))
        case Minute1 => p.(minute1 := Bump(p.minute1, 10))
        case Completed => p;
    if running && q.hour2 == 2 && q.hour1 == 4 then q.(hour2 := 0, hour1 := 0) else q
  }

  /** The clock globals of Miscellaneous.h that Clock.cpp reads and writes. */
  class ClockGlobals {
    var setButton: bool
    var clockStartEnabled: bool
    var clockInputState: ClockInputMode
    var hourPointer2: u16
    var hourPointer1: u16
    var minutePointer2: u16
    var minutePointer1: u16
    var secondPointer2: u16
    var secondPointer1: u16

    /** The six pointers as one value. */
    function Pointers(): Cursors
      reads this
    {
      Cursors(hourPointer2, hourPointer1, minutePointer2, minutePointer1, secondPointer2, secondPointer1)
    }

    /** The boot values the header gives these globals. */
    constructor ()
      ensures Pointers() == BootGlobals().pointers
      ensures setButton == BootGlobals().setButton && clockStartEnabled == BootGlobals().clockStartEnabled
      ensures clockInputState == BootGlobals().clockInputState
    {
      setButton := false;
      clockStartEnabled := false;
      clockInputState := Hour2;
      hourPointer2 := 0;
      hourPointer1 := 0;
      minutePointer2 := 0;
      minutePointer1 := 0;
      secondPointer2 := 0;
      secondPointer1 := 0;
    }

    /** Clock::setTime. */
    method SetTime()
      modifies this
      ensures Pointers() == EditPointers(old(Pointers()), clockInputState, setButton, clockStartEnabled)
      ensures setButton == old(setButton) && clockStartEnabled == old(clockStartEnabled)
      ensures clockInputState == old(clockInputState)
    {
      match clockInputState {
        case Hour2 =>
          if setButton {
            hourPointer2 := Inc16(hourPointer2);
            if hourPointer2 == 3 {
              hourPointer2 := 0;
            }
          }
        case Hour1 =>
          if setButton {
            hourPointer1 := Inc16(hourPointer1);
            if hourPointer2 == 2 {
              if hourPointer1 == 5 {
                hourPointer1 := 0;
              }
            } else {
              if hourPointer1 == 10 {
                hourPointer1 := 0;
              }
            }
          }
        case Minute2 =>
          if setButton {
            minutePointer2 := Inc16(minutePointer2);
            if minutePointer2 == 6 {
              minutePointer2 := 0;
            }
          }
        case Minute1 =>
          if setButton {
            minutePointer1 := Inc16(minutePointer1);
            if minutePointer1 == 10 {
              minutePointer1 := 0;
            }
          }
        case Completed =>
      }
      if clockStartEnabled {
        if hourPointer2 == 2 && hourPointer1 == 4 {
          hourPointer2 := 0;
          hourPointer1 := 0;
        }
      }
    }

    /** Clock::resetTime. */
    method ResetTime()
      modifies this
      ensures Pointers() == ZeroCursors && !clockStartEnabled
      ensures setButton == old(setButton) && clockInputState == old(clockInputState)
    {
      clockStartEnabled := false;
      hourPointer2 := 0;
      hourPointer1 := 0;
      minutePointer2 := 0;
      minutePointer1 := 0;
      secondPointer2 := 0;
      secondPointer1 := 0;
    }
  }

  /** Pointers move only while SET is held; otherwise only the 24 -> 00 fold applies. */
  lemma ReleasedSetOnlyFolds(p: Cursors, state: ClockInputMode, running: bool)
    ensures EditPointers(p, state, false, running) == ClockConfig.FoldMidnight(p, running)
  {
  }

  /** In Completed no pointer is edited: the switch has no case for it. */
  lemma CompletedEditsNothing(p: Cursors, setButton: bool, running: bool)
    ensures EditPointers(p, Completed, setButton, running) == ClockConfig.FoldMidnight(p, running)
  {
  }

  /** The per-digit wraps: hour tens modulo 3; hour units modulo 5 under a 2, else modulo 10; minute tens modulo 6; minute units modulo 10. */
  lemma PointerCycles(p: Cursors)
    requires ValidDigits(p)
    ensures EditPointers(p, Hour2, true, false).hour2 == (p.hour2 + 1) % 3
    ensures p.hour2 == 2 ==> EditPointers(p, Hour1, true, false).hour1 == (p.hour1 + 1) % 5
    ensures p.hour2 != 2 ==> EditPointers(p, Hour1, true, false).hour1 == (p.hour1 + 1) % 10
    ensures EditPointers(p, Minute2, true, false).minute2 == (p.minute2 + 1) % 6
    ensures EditPointers(p, Minute1, true, false).minute1 == (p.minute1 + 1) % 10
  {
  }

  /** A running clock showing 24 hours is folded to 00. */
  lemma RunningClockFoldsTwentyFour(p: Cursors, state: ClockInputMode)
    requires p.hour2 == 2 && p.hour1 == 4
    requires state != Hour2 && state != Hour1
    ensures EditPointers(p, state, false, true) == p.(hour2 := 0, hour1 := 0)
    ensures EditPointers(p, state, true, true).hour2 == 0 && EditPointers(p, state, true, true).hour1 == 0
  {
  }

  /**
   * The two revisions agree: the integer selector 0..3 edits like the
   * enumeration value with the same number, and any other selector edits
   * like Completed (nothing but the fold).
   */
  lemma RevisionsAgree(c: Cursors, selector: int, setButton: bool, running: bool)
    ensures 0 <= selector <= 3 ==>
      ClockConfig.Edited(c, selector, setButton, running) == EditPointers(c, InputAt(selector), setButton, running)
    ensures !(0 <= selector <= 3) ==>
      ClockConfig.Edited(c, selector, setButton, running) == EditPointers(c, Completed, setButton, running)
  {
  }
}
