// Six-step speed and position feedback base component: the speed
// reliability error counter and its accessors.
module SpeedFeedback {
  import opened CInt

  /** The uint16_t magnitude the source compares; -32768 gives 32768. */
  function AbsSpeedUnit(speed: int): (a: int)
    requires IsI16(speed)
    ensures IsU16(a) && a == Abs(speed)
  {
    if speed < 0 then U16(I16(-speed)) else U16(speed)
  }

  /** A report is out of range when its magnitude is above the maximum or below the minimum. */
  predicate IsSpeedError(speed: int, minReliable: int, maxReliable: int)
    requires IsI16(speed)
  {
    AbsSpeedUnit(speed) > maxReliable || AbsSpeedUnit(speed) < minReliable
  }

  /** The error counter after one report: counts errors, is reset by a good
    * report, and is frozen once it has reached the maximum. */
  function NextErrorCount(count: int, maximum: int, error: bool): int
  {
    if count < maximum then (if error then count + 1 else 0) else count
  }

  /** The counter after a sequence of reports, in order. */
  function ErrorCountAfter(count: int, maximum: int, minReliable: int, maxReliable: int, speeds: seq<int>): int
    requires forall i :: 0 <= i < |speeds| ==> IsI16(speeds[i])
    decreases |speeds|
  {
    if speeds == [] then count
    else ErrorCountAfter(NextErrorCount(count, maximum, IsSpeedError(speeds[0], minReliable, maxReliable)),
                         maximum, minReliable, maxReliable, speeds[1..])
  }

  /** One report never lifts the counter above the maximum, increments it
    * exactly on an error below the maximum, and clears it exactly on a good
    * report below the maximum. */
  lemma NextErrorCountCases(count: int, maximum: int, error: bool)
    requires 0 <= count <= maximum
    ensures 0 <= NextErrorCount(count, maximum, error) <= maximum
    ensures NextErrorCount(count, maximum, error) == maximum <==> (count == maximum || (error && count + 1 == maximum))
    ensures !error && count < maximum ==> NextErrorCount(count, maximum, error) == 0
  {
  }

  /** Starting within range, any sequence of reports keeps the counter
    * within [0, maximum]. */
  lemma {:induction false} ErrorCountStaysBounded(count: int, maximum: int, minReliable: int, maxReliable: int, speeds: seq<int>)
    requires 0 <= count <= maximum
    requires forall i :: 0 <= i < |speeds| ==> IsI16(speeds[i])
    ensures 0 <= ErrorCountAfter(count, maximum, minReliable, maxReliable, speeds) <= maximum
    decreases |speeds|
  {
    if speeds != [] {
      var next := NextErrorCount(count, maximum, IsSpeedError(speeds[0], minReliable, maxReliable));
      ErrorCountStaysBounded(next, maximum, minReliable, maxReliable, speeds[1..]);
    }
  }

  /** Once the counter has reached the maximum (the sensor is reported
    * unreliable), no further report brings it back. */
  lemma {:induction false} UnreliableIsSticky(maximum: int, minReliable: int, maxReliable: int, speeds: seq<int>)
    requires forall i :: 0 <= i < |speeds| ==> IsI16(speeds[i])
    ensures ErrorCountAfter(maximum, maximum, minReliable, maxReliable, speeds) == maximum
    decreases |speeds|
  {
    if speeds != [] {
      UnreliableIsSticky(maximum, minReliable, maxReliable, speeds[1..]);
    }
  }

  /** `maximum` consecutive out-of-range reports from a zero counter make the
    * sensor unreliable. */
  lemma {:induction false} ConsecutiveErrorsReachMaximum(count: int, maximum: int, minReliable: int, maxReliable: int, speeds: seq<int>)
    requires 0 <= count <= maximum && |speeds| == maximum - count
    requires forall i :: 0 <= i < |speeds| ==> IsI16(speeds[i]) && IsSpeedError(speeds[i], minReliable, maxReliable)
    ensures ErrorCountAfter(count, maximum, minReliable, maxReliable, speeds) == maximum
    decreases |speeds|
  {
    if speeds != [] {
      ConsecutiveErrorsReachMaximum(count + 1, maximum, minReliable, maxReliable, speeds[1..]);
    }
  }

  /** SpeednPosFdbk_6S_Handle_t. */
  class SpeedPosFdbk {
    var bSpeedErrorNumber: u8
    var bElToMecRatio: u8
    var bMaximumSpeedErrorsNumber: u8
    var hAvrMecSpeedUnit: i16
    var hMaxReliableMecSpeedUnit: u16
    var hMinReliableMecSpeedUnit: u16
    var speedConvFactor: u32

    /** The handle as configured by the application's parameter tables. */
    constructor (elToMecRatio: u8, maximumSpeedErrors: u8, maxReliable: u16, minReliable: u16, convFactor: u32)
      ensures bSpeedErrorNumber == 0 && hAvrMecSpeedUnit == 0 && bElToMecRatio == elToMecRatio
      ensures bMaximumSpeedErrorsNumber == maximumSpeedErrors && hMaxReliableMecSpeedUnit == maxReliable
      ensures hMinReliableMecSpeedUnit == minReliable && speedConvFactor == convFactor
    {
      bSpeedErrorNumber := 0;
      bElToMecRatio := elToMecRatio;
      bMaximumSpeedErrorsNumber := maximumSpeedErrors;
      hAvrMecSpeedUnit := 0;
      hMaxReliableMecSpeedUnit := maxReliable;
      hMinReliableMecSpeedUnit := minReliable;
      speedConvFactor := convFactor;
    }

    /** SPD_GetAvrgMecSpeedUnit: the last average speed, as stored. */
    function GetAvrgMecSpeedUnit(): (s: i16)
      reads this
      ensures s == hAvrMecSpeedUnit
    {
      hAvrMecSpeedUnit
    }

    /** SPD_GetElToMecRatio: the pole-pair count, as stored. */
    function GetElToMecRatio(): (pp: u8)
      reads this
      ensures pp == bElToMecRatio
    {
      bElToMecRatio
    }

    /** SPD_SetElToMecRatio: a single field write, read back by the getter. */
    method SetElToMecRatio(pp: u8)
      modifies this`bElToMecRatio
      ensures GetElToMecRatio() == pp
    {
      bElToMecRatio := pp;
    }

    /** SPD_Check: the state of the last reliability check, without changing anything. */
    predicate Check()
      reads this
    {
      bSpeedErrorNumber != bMaximumSpeedErrorsNumber
    }

    /** SPD_IsMecSpeedReliable. */
    method IsMecSpeedReliable(mecSpeedUnit: i16) returns (reliable: bool)
      modifies this`bSpeedErrorNumber
      ensures bSpeedErrorNumber == NextErrorCount(old(bSpeedErrorNumber), bMaximumSpeedErrorsNumber,
                                                  IsSpeedError(mecSpeedUnit, hMinReliableMecSpeedUnit, hMaxReliableMecSpeedUnit))
      ensures reliable <==> bSpeedErrorNumber != bMaximumSpeedErrorsNumber
      ensures reliable == Check()
    {
      var speedError := false;
      var errorNumber := bSpeedErrorNumber;
      var absSpeed: int;
      if mecSpeedUnit < 0 {
        absSpeed := U16(I16(-(mecSpeedUnit as int)));
      } else {
        absSpeed := U16(mecSpeedUnit);
      }
      if absSpeed > hMaxReliableMecSpeedUnit {
        speedError := true;
      }
      if absSpeed < hMinReliableMecSpeedUnit {
        speedError := true;
      }
      if speedError {
        if errorNumber < bMaximumSpeedErrorsNumber {
          errorNumber := errorNumber + 1;
        }
      } else {
        if errorNumber < bMaximumSpeedErrorsNumber {
          errorNumber := 0;
        }
      }
      reliable := errorNumber != bMaximumSpeedErrorsNumber;
      bSpeedErrorNumber := errorNumber;
    }
  }
}
