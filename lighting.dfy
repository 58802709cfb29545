/**
 * LED lighting decisions, in the two revisions greenhouse_main_classes_1
 * (Lighting.cpp reads the global clock time) and greenhouse_main_classes_2
 * (Lighting.cpp reads Config::State().currentClockTime). The clock time is
 * an HHMM integer, 06:31 being 631. The relay calls are commented out in both.
 */
module Lighting {
  import opened Misc
  import opened ConfigState

  /** Lighting::checkLightNeed of greenhouse_main_classes_1, with the global clock time as a parameter. */
  function CheckLightNeed(currentClockTime: int, uvValue: u16): bool
  {
    var insideTimeInterval := currentClockTime >= 631 && currentClockTime < 2332;
    insideTimeInterval && uvValue < UvThresholdValue
  }

  /**
   * Lighting::checkLightNeed of greenhouse_main_classes_2. The two revisions
   * differ only in where they read the clock time: here it is the Config
   * record's.
   */
  function CheckLightNeedFromConfig(cfg: Config, uvValue: u16): (need: bool)
    reads cfg
    ensures need <==> 631 <= cfg.currentClockTime < 2332 && uvValue < UvThresholdValue
  {
    CheckLightNeed(cfg.currentClockTime, uvValue)
  }

  /** Lighting::startLed: the LED state it reports. */
  function StartLed(ledLightEnabled: bool): bool
  {
    ledLightEnabled
  }

  /** Lighting::stopLed: the LED state it reports. */
  function StopLed(ledLightEnabled: bool): bool
  {
    ledLightEnabled
  }

  /** Lighting::ledLightCheck: a fault when the LED is on but too little light is measured. */
  function LedLightCheck(ledLightState: bool, uvValue: u16): bool
  {
    ledLightState && uvValue < UvThresholdValue
  }

  /** Light is wanted exactly inside [631, 2332) with UV below 4; outside the window never, whatever the UV. */
  lemma LightNeedIff(currentClockTime: int, uvValue: u16)
    ensures CheckLightNeed(currentClockTime, uvValue) <==> 631 <= currentClockTime < 2332 && uvValue < 4
    ensures currentClockTime < 631 || 2332 <= currentClockTime ==> !CheckLightNeed(currentClockTime, uvValue)
  {
  }

  /** The window's edges: 06:31 and 23:31 are inside, 06:30 and 23:32 outside. */
  lemma WindowBoundaries()
    ensures CheckLightNeed(631, 0) && CheckLightNeed(2331, 0)
    ensures !CheckLightNeed(630, 0) && !CheckLightNeed(2332, 0)
  {
  }

  /**
   * On a real time of day h:m, the HHMM comparison is the interval of
   * minutes from 06:31 to 23:31 inclusive.
   */
  lemma HhmmWindowIsTimeOfDay(h: int, m: int, uvValue: u16)
    requires 0 <= h < 24 && 0 <= m < 60
    ensures CheckLightNeed(100 * h + m, uvValue) <==> 6 * 60 + 31 <= 60 * h + m <= 23 * 60 + 31 && uvValue < 4
  {
  }

  /** Both switch functions simply report the enable flag: startLed is true iff enabled, stopLed is false iff not enabled. */
  lemma LedSwitchesReportEnable(ledLightEnabled: bool)
    ensures StartLed(ledLightEnabled) <==> ledLightEnabled
    ensures !StopLed(ledLightEnabled) <==> !ledLightEnabled
    ensures StartLed(ledLightEnabled) == StopLed(ledLightEnabled)
  {
  }

  /**
   * The LED fault holds exactly when the LED is on and the UV reading stays
   * below 4: an LED reported off by stopLed never faults, and one reported on
   * by startLed faults exactly in the dark.
   */
  lemma LedFaultIff(ledLightState: bool, uvValue: u16)
    ensures LedLightCheck(ledLightState, uvValue) <==> ledLightState && uvValue < 4
    ensures !ledLightState ==> !LedLightCheck(ledLightState, uvValue)
    ensures !LedLightCheck(StopLed(false), uvValue)
    ensures LedLightCheck(StartLed(true), uvValue) <==> uvValue < 4
  {
  }
}
