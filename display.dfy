/**
 * The operator-facing state machine of greenhouse_main_classes_2/Display.cpp:
 * toggleDisplayMode, run once per MODE press, and the mode effects of
 * printToScreen and viewStartupImage, run once per pass of the main loop.
 * millis() becomes the parameter `now`; OLED drawing and logging are left out.
 */
module DisplayControl {
  import opened Misc
  import opened ConfigState
  import ClockConfig

  /** Everything toggleDisplayMode and printToScreen read or write: the display globals and the Config record. */
  datatype Panel = Panel(
    mode: DisplayMode,
    input: ClockInputMode,
    alarmMessageEnabled: bool,
    greenhouseProgramStart: bool,
    waterFlowFault: bool,
    pressTimePrev: u32,
    config: ConfigRecord)

  /** The panel at power-on. */
  function Boot(): Panel
  {
    var g := BootGlobals();
    Panel(g.displayState, g.clockInputState, g.alarmMessageEnabled, g.greenhouseProgramStart,
          g.waterFlowFault, g.pressTimePrev, BootConfig())
  }

  /** `millis() - pressTimePrev` in unsigned long arithmetic. */
  function Elapsed(now: u32, prev: u32): (e: u32)
    ensures prev <= now ==> e == now - prev
    ensures now < prev ==> e == now + 0x1_0000_0000 - prev
  {
    (now - prev) % 0x1_0000_0000
  }

  /** A MODE press is accepted when at least the debounce window has passed since the last accepted one. */
  predicate Accepted(now: u32, prev: u32)
  {
    Elapsed(now, prev) >= DebounceTimePeriod
  }

  /** The flow-fault screen's exit: reboot while the fault is latched, resume in service mode once it is cleared. */
  function ResolveFlowFault(p: Panel): (q: Panel)
    ensures !q.waterFlowFault
  {
    if p.waterFlowFault then
      p.(mode := StartupImage, waterFlowFault := false, greenhouseProgramStart := false, alarmMessageEnabled := false)
    else
      p.(mode := ServiceMode, greenhouseProgramStart := true, alarmMessageEnabled := true)
  }

  /** One step of the clock-setting sequence; the integer mirror follows, except that it is never set for Completed. */
  function AdvanceInput(p: Panel): (q: Panel)
    requires p.input != Completed
    ensures q.mode == p.mode && InputIndex(q.input) == InputIndex(p.input) + 1
    ensures q.config.cursors == p.config.cursors
  {
    var n := NextInput(p.input);
    if n == Completed then p.(input := n, config := p.config.(clockStartEnabled := true))
    else p.(input := n, config := p.config.(clockInputIndex := InputIndex(n)))
  }

  /** The transition table of an accepted press: a latched flow fault pre-empts everything. */
  function Transition(p: Panel): (q: Panel)
    ensures q.mode != FlowFault
    ensures q.config.cursors == p.config.cursors && q.pressTimePrev == p.pressTimePrev
  {
    if p.waterFlowFault then ResolveFlowFault(p)
    else match p.mode
      case StartupImage => p
      case SetClock =>
        if p.input == Completed then p.(mode := ReadoutValues, alarmMessageEnabled := true, greenhouseProgramStart := true)
        else AdvanceInput(p)
      case ReadoutValues => p.(mode := ServiceMode, alarmMessageEnabled := false)
      case ServiceMode => p.(mode := ReadoutValues, alarmMessageEnabled := false)
      case FlowFault => ResolveFlowFault(p)
  }

  /** The panel after one MODE press at time `now`. */
  function Press(p: Panel, now: u32): (q: Panel)
    ensures q.mode == FlowFault ==> q == p
    ensures q.config.cursors == p.config.cursors
  {
    if Accepted(now, p.pressTimePrev) then Transition(p).(pressTimePrev := now) else p
  }

  /** The mode effect of one printToScreen call. */
  function Show(p: Panel): (q: Panel)
    ensures q.mode != StartupImage && (q.mode == FlowFault <==> p.mode == FlowFault)
    ensures q.input == p.input && q.waterFlowFault == p.waterFlowFault && q.pressTimePrev == p.pressTimePrev
  {
    match p.mode
    case StartupImage => p.(mode := SetClock)
    case SetClock =>
      var c := p.config;
      p.(config := c.(cursors := ClockConfig.Edited(c.cursors, c.clockInputIndex, c.setButton, c.clockStartEnabled)))
    case _ => p
  }

  class Display {
    var displayState: DisplayMode
    var clockInputState: ClockInputMode
    var alarmMessageEnabled: bool
    var greenhouseProgramStart: bool
    var waterFlowFault: bool
    var pressTimePrev: u32
    /** Config::State(). */
    const cfg: Config

    /** The current panel. */
    function View(): Panel
      reads this, cfg
    {
      Panel(displayState, clockInputState, alarmMessageEnabled, greenhouseProgramStart,
            waterFlowFault, pressTimePrev, cfg.Record())
    }

    /** The globals at their boot values, sharing the given Config. */
    constructor (config: Config)
      requires config.Record() == BootConfig()
      ensures cfg == config && View() == Boot()
    {
      cfg := config;
      displayState := StartupImage;
      clockInputState := Hour2;
      alarmMessageEnabled := false;
      greenhouseProgramStart := false;
      waterFlowFault := false;
      pressTimePrev := 0;
    }

    /** Display::toggleDisplayMode, with millis() read as `now`. */
    method Toggle(now: u32)
      modifies this, cfg
      ensures View() == Press(old(View()), now)
    {
      if Elapsed(now, pressTimePrev) >= DebounceTimePeriod {
        if waterFlowFault {
          displayState := FlowFault;
        }
        match displayState {
          case SetClock =>
            match clockInputState {
              case Hour2 =>
                clockInputState := Hour1;
                cfg.clockInputIndex := 1;
              case Hour1 =>
                clockInputState := Minute2;
                cfg.clockInputIndex := 2;
              case Minute2 =>
                clockInputState := Minute1;
                cfg.clockInputIndex := 3;
              case Minute1 =>
                clockInputState := Completed;
                cfg.clockStartEnabled := true;
              case Completed =>
                displayState := ReadoutValues;
                alarmMessageEnabled := true;
                greenhouseProgramStart := true;
            }
          case ReadoutValues =>
            displayState := ServiceMode;
            alarmMessageEnabled := false;
          case ServiceMode =>
            displayState := ReadoutValues;
            alarmMessageEnabled := false;
          case FlowFault =>
            greenhouseProgramStart := false;
            alarmMessageEnabled := false;
            if !waterFlowFault {
              displayState := ServiceMode;
              greenhouseProgramStart := true;
              alarmMessageEnabled := true;
            } else {
              waterFlowFault := false;
              displayState := StartupImage;
            }
          case StartupImage =>
        }
        pressTimePrev := now;
      }
    }

    /** Display::viewStartupImage: the startup screen hands over to clock setting. */
    method ViewStartupImage()
      modifies this
      ensures View() == old(View()).(mode := SetClock)
    {
      displayState := SetClock;
    }

    /** The mode effects of Display::printToScreen. */
    method Render()
      modifies this, cfg
      ensures View() == Show(old(View()))
    {
      match displayState {
        case StartupImage =>
          ViewStartupImage();
        case SetClock =>
          ClockConfig.SetTime(cfg);
        case _ =>
      }
    }
  }

  // ---------------------------------------------------------------------
  // Properties of single presses and refreshes

  /** A press inside the debounce window changes nothing; an accepted press stamps `now`. */
  lemma DebounceWindow(p: Panel, now: u32)
    ensures !Accepted(now, p.pressTimePrev) ==> Press(p, now) == p
    ensures Accepted(now, p.pressTimePrev) ==> Press(p, now).pressTimePrev == now
    ensures p.pressTimePrev <= now ==> (Accepted(now, p.pressTimePrev) <==> now - p.pressTimePrev >= 170)
  {
  }

  /** The unsigned subtraction keeps debouncing correct across the 49-day millis() rollover. */
  lemma DebounceAcrossRollover()
    ensures Accepted(100, 0xFFFF_FF9C)
    ensures !Accepted(50, 0xFFFF_FF9C)
  {
  }

  /** In SET_CLOCK each press moves one digit forward; the mirror follows up to Minute1, and reaching Completed starts the clock instead. */
  lemma SetClockProgression(p: Panel, now: u32)
    requires Accepted(now, p.pressTimePrev) && !p.waterFlowFault
    requires p.mode == SetClock && p.input != Completed
    ensures var q := Press(p, now);
      && q.mode == SetClock
      && InputIndex(q.input) == InputIndex(p.input) + 1
      && q.alarmMessageEnabled == p.alarmMessageEnabled
      && q.greenhouseProgramStart == p.greenhouseProgramStart
      && q.config.cursors == p.config.cursors
      && (q.input != Completed ==> q.config.clockInputIndex == InputIndex(q.input)
                                    && q.config.clockStartEnabled == p.config.clockStartEnabled)
      && (q.input == Completed ==> q.config.clockStartEnabled
                                   && q.config.clockInputIndex == p.config.clockInputIndex)
  {
  }

  /** A press in SET_CLOCK / Completed shows the readout screen and starts the greenhouse program with alarms enabled. */
  lemma LeavingSetClock(p: Panel, now: u32)
    requires Accepted(now, p.pressTimePrev) && !p.waterFlowFault
    requires p.mode == SetClock && p.input == Completed
    ensures var q := Press(p, now);
      q == p.(mode := ReadoutValues, alarmMessageEnabled := true, greenhouseProgramStart := true, pressTimePrev := now)
  {
  }

  /** READOUT_VALUES and SERVICE_MODE alternate, each press disabling the alarm banner; two presses come back. */
  lemma ReadoutServiceAlternate(p: Panel, now1: u32, now2: u32)
    requires !p.waterFlowFault && (p.mode == ReadoutValues || p.mode == ServiceMode)
    requires Accepted(now1, p.pressTimePrev) && Accepted(now2, now1)
    ensures var q := Press(p, now1);
      && q.mode == (if p.mode == ReadoutValues then ServiceMode else ReadoutValues)
      && !q.alarmMessageEnabled
      && q.greenhouseProgramStart == p.greenhouseProgramStart
      && Press(q, now2).mode == p.mode
  {
  }

  /** A latched flow fault sends any screen to the startup image, clears the fault and stops program and alarms; the clock is untouched. */
  lemma FlowFaultReboots(p: Panel, now: u32)
    requires Accepted(now, p.pressTimePrev) && p.waterFlowFault
    ensures var q := Press(p, now);
      q == p.(mode := StartupImage, waterFlowFault := false, greenhouseProgramStart := false,
              alarmMessageEnabled := false, pressTimePrev := now)
  {
  }

  /** On the flow-fault screen with the fault cleared, a press resumes the program in service mode. */
  lemma ClearedFaultResumes(p: Panel, now: u32)
    requires Accepted(now, p.pressTimePrev) && !p.waterFlowFault && p.mode == FlowFault
    ensures var q := Press(p, now);
      q == p.(mode := ServiceMode, greenhouseProgramStart := true, alarmMessageEnabled := true, pressTimePrev := now)
  {
  }

  /** The startup image has no case in the toggle: a fault-free press only stamps the time. Rendering it moves on to SET_CLOCK. */
  lemma StartupImageLeftOnlyByRender(p: Panel, now: u32)
    requires p.mode == StartupImage && !p.waterFlowFault
    ensures Press(p, now).mode == StartupImage
    ensures Press(p, now).(pressTimePrev := p.pressTimePrev) == p
    ensures Show(p) == p.(mode := SetClock)
  {
  }

  /** Rendering SET_CLOCK runs the clock editor on the Config record and nothing else; the other screens change nothing. */
  lemma RenderRunsClockEditor(p: Panel)
    ensures p.mode == SetClock ==>
      Show(p) == p.(config := p.config.(cursors := ClockConfig.Edited(p.config.cursors, p.config.clockInputIndex, p.config.setButton, p.config.clockStartEnabled)))
    ensures p.mode != SetClock && p.mode != StartupImage ==> Show(p) == p
  {
  }

  /**
   * The mirror is left at 3 when Completed is reached, so on the SET_CLOCK /
   * Completed screen a held SET still edits the minute units digit.
   */
  lemma CompletedStillEditsMinuteUnits()
    ensures var p := Boot().(mode := SetClock, input := Completed,
                             config := BootConfig().(clockInputIndex := 3, clockStartEnabled := true, setButton := true,
                                                     cursors := Cursors(1, 2, 3, 5, 0, 0)));
      Show(p).config.cursors == Cursors(1, 2, 3, 6, 0, 0)
  {
  }

  // ---------------------------------------------------------------------
  // Runs of the main loop

  /** What can happen between two passes of the state machine: a MODE press, a render, the SET button level, the flow sensor's verdict. */
  datatype Event = ModePress(now: u32) | Refresh | SetLevel(down: bool) | FlowVerdict(fault: bool)

  function Apply(p: Panel, e: Event): Panel
  {
    match e
    case ModePress(now) => Press(p, now)
    case Refresh => Show(p)
    case SetLevel(down) => p.(config := p.config.(setButton := down))
    case FlowVerdict(fault) => p.(waterFlowFault := fault)
  }

  function Run(p: Panel, es: seq<Event>): Panel
    decreases |es|
  {
    if es == [] then p else Run(Apply(p, es[0]), es[1..])
  }

  /** The integer mirror agrees with the enumeration, except that it stays at 3 for Completed. */
  predicate MirrorAgrees(p: Panel)
  {
    p.config.clockInputIndex == if p.input == Completed then 3 else InputIndex(p.input)
  }

  /** Digits not yet reached in the setting sequence are still zero. */
  predicate LaterDigitsUntouched(p: Panel)
  {
    var c := p.config.cursors;
    && (p.input == Hour2 ==> c.hour1 == 0)
    && (InputIndex(p.input) <= 1 ==> c.minute2 == 0)
    && (InputIndex(p.input) <= 2 ==> c.minute1 == 0)
  }

  /** What holds of every panel reachable from power-on. */
  predicate Inv(p: Panel)
  {
    && p.mode != FlowFault
    && MirrorAgrees(p)
    && (p.config.clockStartEnabled <==> p.input == Completed)
    && (p.greenhouseProgramStart || p.alarmMessageEnabled || p.mode == ReadoutValues || p.mode == ServiceMode
        ==> p.input == Completed)
    && ValidDigits(p.config.cursors)
    && LaterDigitsUntouched(p)
  }

  lemma InvBoot()
    ensures Inv(Boot())
  {
  }

  lemma InvApply(p: Panel, e: Event)
    requires Inv(p)
    ensures Inv(Apply(p, e))
  {
    if e.Refresh? && p.mode == SetClock {
      var c := p.config;
      ClockConfig.EditKeepsDigitsValid(c.cursors, c.clockInputIndex, c.setButton, c.clockStartEnabled);
    }
  }

  lemma {:induction false} InvRun(p: Panel, es: seq<Event>)
    requires Inv(p)
    ensures Inv(Run(p, es))
    decreases |es|
  {
    if es != [] {
      InvApply(p, es[0]);
      InvRun(Apply(p, es[0]), es[1..]);
    }
  }

  /**
   * Whatever the operator and the sensors do, the flow-fault screen is never
   * the mode left behind: the forced FLOW_FAULT and its exit happen in the
   * same press.
   */
  lemma FlowFaultNeverShown(es: seq<Event>)
    ensures Run(Boot(), es).mode != FlowFault
  {
    InvBoot();
    InvRun(Boot(), es);
  }

  /** The greenhouse program and the alarm banner only ever run once the clock has been set and started. */
  lemma ProgramNeedsSetClock(es: seq<Event>)
    ensures var p := Run(Boot(), es);
      p.greenhouseProgramStart || p.alarmMessageEnabled ==> p.config.clockStartEnabled && p.input == Completed
  {
    InvBoot();
    InvRun(Boot(), es);
  }

  /** The clock digits stay within their decimal ranges, with at most 24 hours. */
  lemma DigitsStayValid(es: seq<Event>)
    ensures ValidDigits(Run(Boot(), es).config.cursors)
  {
    InvBoot();
    InvRun(Boot(), es);
  }

  /**
   * Power-on, one render, three SET-held renders in Hour2 (tens digit 1, 2, 0),
   * then five spaced MODE presses through Hour1, Minute2, Minute1, Completed
   * to the readout screen with program and alarm banner on.
   */
  lemma BootScenario()
    ensures var p0 := Show(Boot());
      var p1 := Show(p0.(config := p0.config.(setButton := true)));
      var p2 := Show(p1);
      var p3 := Show(p2);
      var p4 := p3.(config := p3.config.(setButton := false));
      var q := Press(Press(Press(Press(Press(p4, 1000), 2000), 3000), 4000), 5000);
      && p0.mode == SetClock && p0.input == Hour2
      && p1.config.cursors.hour2 == 1 && p2.config.cursors.hour2 == 2 && p3.config.cursors.hour2 == 0
      && q.mode == ReadoutValues && q.input == Completed
      && q.greenhouseProgramStart && q.alarmMessageEnabled && q.config.clockStartEnabled
  {
  }
}
