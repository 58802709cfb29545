/**
 * Water pump decisions (greenhouse_main_classes_2/Watering.cpp): the flow
 * fault check, the water-need decision and the pump start/stop results.
 * The relay call is commented out in the source; the flow-rate formula is
 * floating point and the rotation count comes from an interrupt, so the
 * sampled flow is a parameter.
 */
module Watering {
  import opened Misc
  import Moisture

  /** Watering::flowCheck: a fault when the flow is below the threshold. */
  function FlowCheck(waterFlowValue: u16): bool
  {
    waterFlowValue < FlowThresholdValue
  }

  /** Watering::checkWaterNeed over the four flags it reads. */
  function CheckWaterNeed(moistureDry: bool, moistureWet: bool, waterLevelFault: bool, waterFlowFault: bool): bool
  {
    moistureDry && !moistureWet && !waterLevelFault && !waterFlowFault
  }

  /** Watering::stopPump: the pump state it reports. */
  function StopPump(): bool
  {
    false
  }

  /** What startPump returns and what it leaves in `*waterFlowValue`. */
  datatype PumpStart = PumpStart(state: bool, waterFlowValue: u16)

  /**
   * Watering::startPump. `sampledFlow` stands for the litres per hour computed
   * from one second of flow-sensor rotations, which is only taken while the
   * pump is already running.
   */
  function StartPump(waterPumpState: bool, sampledFlow: u16): (r: PumpStart)
    ensures r.state
    ensures !waterPumpState ==> r.waterFlowValue == 0
  {
    if waterPumpState then PumpStart(true, sampledFlow) else PumpStart(true, 0)
  }

  /** A fault exactly below 99 L/h: 99 itself is fine, and a lower flow is never better than a higher one. */
  lemma FlowThreshold(v: u16, w: u16)
    ensures FlowCheck(v) <==> v < 99
    ensures !FlowCheck(99) && FlowCheck(98)
    ensures v <= w && FlowCheck(w) ==> FlowCheck(v)
  {
  }

  /** Water is wanted exactly when the soil is dry, not wet, and no water fault is latched. */
  lemma WaterNeedIff(moistureDry: bool, moistureWet: bool, waterLevelFault: bool, waterFlowFault: bool)
    ensures CheckWaterNeed(moistureDry, moistureWet, waterLevelFault, waterFlowFault)
      <==> moistureDry && !moistureWet && !waterLevelFault && !waterFlowFault
    ensures waterLevelFault || waterFlowFault ==> !CheckWaterNeed(moistureDry, moistureWet, waterLevelFault, waterFlowFault)
  {
  }

  /** Fed with the moisture verdict, the pump is wanted exactly when the mean is at most 300 and no water fault is latched. */
  lemma WaterNeedFromMoisture(moistureMean: u16, waterLevelFault: bool, waterFlowFault: bool)
    ensures var v := Moisture.EvaluateValue(moistureMean);
      (CheckWaterNeed(v.dry, v.wet, waterLevelFault, waterFlowFault)
       <==> moistureMean <= MoistureThresholdLow && !waterLevelFault && !waterFlowFault)
  {
  }

  /** startPump always reports a running pump, and clears the flow value while the pump was off; stopPump always reports it stopped. */
  lemma PumpReports(waterPumpState: bool, sampledFlow: u16)
    ensures StartPump(waterPumpState, sampledFlow).state
    ensures !waterPumpState ==> StartPump(waterPumpState, sampledFlow).waterFlowValue == 0
    ensures waterPumpState ==> StartPump(waterPumpState, sampledFlow).waterFlowValue == sampledFlow
    ensures !StopPump()
  {
  }

  /** A pump started from off reports a zero flow, which the flow check then flags. */
  lemma StartFromOffFlagsFlow(sampledFlow: u16)
    ensures FlowCheck(StartPump(false, sampledFlow).waterFlowValue)
  {
  }
}
