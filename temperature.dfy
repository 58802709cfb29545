/**
 * The temperature fault check, identical in greenhouse_main_classes_1 and
 * greenhouse_main_classes_2 (Temperature.cpp). The threshold is stored
 * doubled and halved with integer division before the comparison.
 */
module Temperature {
  import opened Misc

  /** Temperature::thresholdCompare. Halving loses nothing: the fault holds exactly when twice the temperature exceeds the stored threshold. */
  function ThresholdCompare(tempValue: u16, tempThresholdValue: u16): (fault: bool)
    ensures fault <==> 2 * tempValue > tempThresholdValue
  {
    tempValue > tempThresholdValue / 2
  }

  /** A temperature equal to the halved threshold is no fault. */
  lemma HalfIsNoFault(tempThresholdValue: u16)
    ensures !ThresholdCompare(tempThresholdValue / 2, tempThresholdValue)
  {
  }

  /** Odd thresholds round down: 2k and 2k+1 give the same verdict. */
  lemma OddThresholdRoundsDown(tempValue: u16, k: nat)
    requires 2 * k + 1 < 0x1_0000
    ensures ThresholdCompare(tempValue, 2 * k) == ThresholdCompare(tempValue, 2 * k + 1)
  {
  }

  /** Once a temperature faults, every higher temperature faults too. */
  lemma FaultMonotone(t1: u16, t2: u16, tempThresholdValue: u16)
    requires t1 <= t2
    ensures ThresholdCompare(t1, tempThresholdValue) ==> ThresholdCompare(t2, tempThresholdValue)
  {
  }

  /** With the boot threshold of 60 the cut-off is 30 degrees. */
  lemma BootCutoff(tempValue: u16)
    ensures ThresholdCompare(tempValue, BootGlobals().tempThresholdValue) <==> tempValue > 30
  {
  }
}
