// Resistor-divider bus voltage sensor: a first-order filter of the raw ADC
// reading and the over/under-voltage check, with optional hysteresis on the
// over-voltage side (used when the drive brakes on over-voltage).
module BusVoltage {
  import opened CInt

  /** Fault codes reported to the state machine; a reading that is skipped
    * reports 0, which is MC_NO_ERROR. */
  const MC_NO_ERROR: int := 0
  const MC_OVER_VOLT: int := 2
  const MC_UNDER_VOLT: int := 4

  /** The raw value the ADC layer uses for "no conversion available". */
  const INVALID_READING: int := 0xFFFF

  /** The initial average: midway between the two thresholds. */
  function InitialAverage(overVoltage: int, underVoltage: int): (avg: int)
    requires IsU16(overVoltage) && IsU16(underVoltage)
    ensures IsU16(avg)
    ensures underVoltage <= overVoltage ==> underVoltage <= avg <= overVoltage
    ensures 2 * avg <= overVoltage + underVoltage <= 2 * avg + 1
  {
    (overVoltage + underVoltage) / 2
  }

  /** One filter step: avg += (raw - avg) >> 8, the shift arithmetic. */
  function Filtered(avg: int, raw: int): (r: int)
    requires IsU16(avg) && IsU16(raw)
    ensures IsU16(r)
  {
    U16(avg + Asr(raw - avg, 8))
  }

  /** The filter moves the average toward the reading and never past it; it
    * stays put for readings 0..255 above the average and falls by at least one
    * for any reading below it; a reading 256 or more above raises it. */
  lemma FilterSteps(avg: int, raw: int)
    requires IsU16(avg) && IsU16(raw)
    ensures var r := Filtered(avg, raw);
            (raw >= avg ==> avg <= r <= raw) && (raw <= avg ==> raw <= r <= avg)
            && (avg <= raw < avg + 256 ==> r == avg)
            && (raw < avg ==> r <= avg - 1)
            && (raw >= avg + 256 ==> r >= avg + 1)
  {
    Pow2Values();
    var d := Asr(raw - avg, 8);
    assert d * 256 <= raw - avg < (d + 1) * 256;
    assert IsU16(avg + d);
  }

  /** The average after k equal readings. */
  function FilterRun(avg: int, raw: int, k: nat): (r: int)
    requires IsU16(avg) && IsU16(raw)
    ensures IsU16(r)
  {
    if k == 0 then avg else Filtered(FilterRun(avg, raw, k - 1), raw)
  }

  /** Under a constant reading the average moves monotonically toward it and
    * never overshoots. */
  lemma {:induction false} FilterConverges(avg: int, raw: int, k: nat)
    requires IsU16(avg) && IsU16(raw)
    ensures raw >= avg ==> avg <= FilterRun(avg, raw, k) <= raw
    ensures raw <= avg ==> raw <= FilterRun(avg, raw, k) <= avg
    ensures k > 0 && raw >= avg ==> FilterRun(avg, raw, k - 1) <= FilterRun(avg, raw, k)
    ensures k > 0 && raw <= avg ==> FilterRun(avg, raw, k) <= FilterRun(avg, raw, k - 1)
  {
    if k > 0 {
      FilterConverges(avg, raw, k - 1);
      FilterSteps(FilterRun(avg, raw, k - 1), raw);
    }
  }

  /** The outcome of the fault check: the code and the new hysteresis direction. */
  datatype Check = Check(fault: int, upDir: bool)

  /** RVBS_CheckFaultState. Equal over-voltage thresholds select the single
    * threshold check; different ones the hysteresis check. */
  function FaultCheck(avg: int, overVoltage: int, overVoltageLow: int, underVoltage: int, upDir: bool): Check
  {
    if overVoltage == overVoltageLow then
      Check(if avg > overVoltage then MC_OVER_VOLT
            else if avg < underVoltage then MC_UNDER_VOLT
            else MC_NO_ERROR, upDir)
    else if avg < underVoltage then Check(MC_UNDER_VOLT, upDir)
    else if !upDir then
      if avg < overVoltageLow then Check(MC_NO_ERROR, true) else Check(MC_OVER_VOLT, false)
    else
      if avg > overVoltage then Check(MC_OVER_VOLT, false) else Check(MC_NO_ERROR, true)
  }

  /** With a single threshold: over-voltage exactly above it, under-voltage
    * exactly below the lower threshold when not over, and the hysteresis
    * direction is left alone. */
  lemma SingleThreshold(avg: int, overVoltage: int, underVoltage: int, upDir: bool)
    ensures var c := FaultCheck(avg, overVoltage, overVoltage, underVoltage, upDir);
            c.upDir == upDir
            && (c.fault == MC_OVER_VOLT <==> avg > overVoltage)
            && (c.fault == MC_UNDER_VOLT <==> avg <= overVoltage && avg < underVoltage)
            && (c.fault == MC_NO_ERROR <==> underVoltage <= avg <= overVoltage)
  {
  }

  /** With hysteresis: under-voltage takes precedence and keeps the direction;
    * once over, the fault clears only below the low threshold; once cleared,
    * it returns only above the high threshold; in between the last decision
    * stands. */
  lemma Hysteresis(avg: int, overVoltage: int, overVoltageLow: int, underVoltage: int, upDir: bool)
    requires overVoltage != overVoltageLow
    ensures var c := FaultCheck(avg, overVoltage, overVoltageLow, underVoltage, upDir);
            (avg < underVoltage ==> c == Check(MC_UNDER_VOLT, upDir))
            && (avg >= underVoltage && !upDir ==>
                  (c.fault == MC_OVER_VOLT <==> avg >= overVoltageLow) && (c.upDir <==> avg < overVoltageLow))
            && (avg >= underVoltage && upDir ==>
                  (c.fault == MC_OVER_VOLT <==> avg > overVoltage) && (c.upDir <==> avg <= overVoltage))
            && (avg >= underVoltage && overVoltageLow <= avg <= overVoltage ==>
                  c == Check(if upDir then MC_NO_ERROR else MC_OVER_VOLT, upDir))
            && (c.fault != MC_UNDER_VOLT ==> (c.fault == MC_NO_ERROR <==> c.upDir))
  {
  }

  /** Re-checking the same average gives the same answer (for a low threshold
    * not above the high one): the check is a settled flip-flop. */
  lemma CheckSettles(avg: int, overVoltage: int, overVoltageLow: int, underVoltage: int, upDir: bool)
    requires overVoltageLow <= overVoltage
    ensures var c := FaultCheck(avg, overVoltage, overVoltageLow, underVoltage, upDir);
            FaultCheck(avg, overVoltage, overVoltageLow, underVoltage, c.upDir) == c
  {
  }

  /** RDivider_Handle_t with the bus voltage sensor fields it extends. */
  class RDivider {
    const OverVoltageThreshold: u16
    const OverVoltageThresholdLow: u16
    const UnderVoltageThreshold: u16
    var AvBusVoltage_d: u16
    var FaultState: int
    var OverVoltageHysteresisUpDir: bool

    constructor (overVoltage: u16, overVoltageLow: u16, underVoltage: u16, upDir: bool)
      ensures OverVoltageThreshold == overVoltage && OverVoltageThresholdLow == overVoltageLow
      ensures UnderVoltageThreshold == underVoltage && OverVoltageHysteresisUpDir == upDir
      ensures AvBusVoltage_d == 0 && FaultState == MC_NO_ERROR
    {
      OverVoltageThreshold := overVoltage;
      OverVoltageThresholdLow := overVoltageLow;
      UnderVoltageThreshold := underVoltage;
      AvBusVoltage_d := 0;
      FaultState := MC_NO_ERROR;
      OverVoltageHysteresisUpDir := upDir;
    }

    /** RVBS_Init: the average starts midway between the thresholds. */
    method Init()
      modifies this`AvBusVoltage_d
      ensures AvBusVoltage_d == InitialAverage(OverVoltageThreshold, UnderVoltageThreshold)
    {
      AvBusVoltage_d := (OverVoltageThreshold + UnderVoltageThreshold) / 2;
    }

    /** RVBS_CalcAvVbus: filters a reading and re-checks the faults; an
      * invalid reading changes nothing and reports 0. */
    method CalcAvVbus(rawValue: u16) returns (tempValue: int)
      modifies this`AvBusVoltage_d, this`FaultState, this`OverVoltageHysteresisUpDir
      ensures rawValue == INVALID_READING ==>
                tempValue == MC_NO_ERROR && AvBusVoltage_d == old(AvBusVoltage_d)
                && FaultState == old(FaultState) && OverVoltageHysteresisUpDir == old(OverVoltageHysteresisUpDir)
      ensures rawValue != INVALID_READING ==>
                AvBusVoltage_d == Filtered(old(AvBusVoltage_d), rawValue)
                && Check(FaultState, OverVoltageHysteresisUpDir)
                   == FaultCheck(AvBusVoltage_d, OverVoltageThreshold, OverVoltageThresholdLow,
                                 UnderVoltageThreshold, old(OverVoltageHysteresisUpDir))
                && tempValue == FaultState
    {
      tempValue := 0;
      var hAux := rawValue;
      if hAux != 0xFFFF {
        AvBusVoltage_d := U16(AvBusVoltage_d + Asr(hAux - AvBusVoltage_d, 8));
        FaultState := CheckFaultState();
        tempValue := FaultState;
      }
    }

    /** RVBS_CheckFaultState on the current average. */
    method CheckFaultState() returns (fault: int)
      modifies this`OverVoltageHysteresisUpDir
      ensures Check(fault, OverVoltageHysteresisUpDir)
              == FaultCheck(AvBusVoltage_d, OverVoltageThreshold, OverVoltageThresholdLow,
                            UnderVoltageThreshold, old(OverVoltageHysteresisUpDir))
    {
      if OverVoltageThreshold == OverVoltageThresholdLow {
        if AvBusVoltage_d > OverVoltageThreshold {
          fault := MC_OVER_VOLT;
        } else if AvBusVoltage_d < UnderVoltageThreshold {
          fault := MC_UNDER_VOLT;
        } else {
          fault := MC_NO_ERROR;
        }
      } else {
        if AvBusVoltage_d < UnderVoltageThreshold {
          fault := MC_UNDER_VOLT;
        } else if !OverVoltageHysteresisUpDir {
          if AvBusVoltage_d < OverVoltageThresholdLow {
            OverVoltageHysteresisUpDir := true;
            fault := MC_NO_ERROR;
          } else {
            fault := MC_OVER_VOLT;
          }
        } else {
          if AvBusVoltage_d > OverVoltageThreshold {
            OverVoltageHysteresisUpDir := false;
            fault := MC_OVER_VOLT;
          } else {
            fault := MC_NO_ERROR;
          }
        }
      }
    }
  }
}
