// Hall-sensor speed and position feedback for six-step drives: sector
// decoding, transition checking, commutation step, the signed period
// FIFO with its running sum, prescaler adaptation and the overflow timeout.
module HallFeedback {
  import opened CInt
  import SpeedFeedback

  const HALL_SPEED_FIFO_SIZE: int := 18
  const DEGREES_120: int := 0
  const DEGREES_60: int := 1
  const LOW_RES_THRESHOLD: int := 0x5500
  const MIN_MEAS_FACT_SPEED: int := 4
  const MAX_MEAS_FACT_SPEED: int := 2
  const POSITIVE: int := 1
  const NEGATIVE: int := -1

  function Bit(b: bool): int { if b then 1 else 0 }

  /** The sector code read from the three Hall lines. */
  function HallCode(placement: int, h1: bool, h2: bool, h3: bool): (code: int)
    ensures 0 <= code <= 7 && code % 2 == Bit(h1)
    ensures placement == DEGREES_120 ==> code == 4 * Bit(h3) + 2 * Bit(h2) + Bit(h1)
    ensures placement != DEGREES_120 ==> code == 4 * (1 - Bit(h2)) + 2 * Bit(h3) + Bit(h1)
  {
    if placement == DEGREES_120 then 4 * Bit(h3) + 2 * Bit(h2) + Bit(h1)
    else 4 * (if h2 then 0 else 1) + 2 * Bit(h3) + Bit(h1)
  }

  /** Successor of a valid code in the positive rotation 4 -> 5 -> 1 -> 3 -> 2 -> 6 -> 4. */
  function PositiveNext(code: int): int
    requires 1 <= code <= 6
  {
    match code
    case 4 => 5
    case 5 => 1
    case 1 => 3
    case 3 => 2
    case 2 => 6
    case 6 => 4
  }

  /** Position of a valid code along the positive rotation, starting from 4. */
  function PositiveIndex(code: int): (k: int)
    requires 1 <= code <= 6
    ensures 0 <= k < 6
  {
    match code
    case 4 => 0
    case 5 => 1
    case 1 => 2
    case 3 => 3
    case 2 => 4
    case 6 => 5
  }

  /** A reading is accepted when the previous code is its predecessor along the
    * rotation selected by the direction; the negative rotation is the positive one reversed. */
  predicate Accepted(code: int, prev: int, dir: int)
  {
    1 <= code <= 6 && 1 <= prev <= 6
    && ((dir == POSITIVE && PositiveNext(prev) == code) || (dir == NEGATIVE && PositiveNext(code) == prev))
  }

  /** Offset of a code's commutation step relative to StepShift. */
  function StepOffset(code: int, positive: bool): (off: int)
    requires 1 <= code <= 6
    ensures 0 <= off < 6
  {
    if positive then
      match code
      case 4 => 0
      case 5 => 1
      case 1 => 2
      case 3 => 3
      case 2 => 4
      case 6 => 5
    else
      match code
      case 3 => 0
      case 2 => 1
      case 6 => 2
      case 4 => 3
      case 5 => 4
      case 1 => 5
  }

  /** The Step the source assigns for a valid code: the uint8_t sum with one
    * subtraction of 6, except that offset 0 stores StepShift as is. */
  function SectorStep(stepShift: int, code: int, positive: bool): (step: int)
    requires IsU8(stepShift) && 1 <= code <= 6
    ensures IsU8(step)
  {
    var off := StepOffset(code, positive);
    if off == 0 then stepShift
    else
      var s := U8(stepShift + off);
      if s >= 6 then s - 6 else s
  }

  /** The positive offset is the code's place in the positive rotation; the
    * negative offset is the positive one shifted by half a turn. */
  lemma OffsetsFollowRotation(code: int)
    requires 1 <= code <= 6
    ensures StepOffset(code, true) == PositiveIndex(code)
    ensures StepOffset(code, false) == (StepOffset(code, true) + 3) % 6
  {
  }

  /** With StepShift at most 5 the step is (StepShift + offset) mod 6. */
  lemma SectorStepInRange(stepShift: int, code: int, positive: bool)
    requires 0 <= stepShift <= 5 && 1 <= code <= 6
    ensures SectorStep(stepShift, code, positive) == (stepShift + StepOffset(code, positive)) % 6
    ensures 0 <= SectorStep(stepShift, code, positive) < 6
  {
  }

  /** Along an accepted positive transition the step moves one place forward. */
  lemma PositiveTransitionAdvancesStep(stepShift: int, prev: int, code: int)
    requires 0 <= stepShift <= 5 && Accepted(code, prev, POSITIVE)
    ensures SectorStep(stepShift, code, true) == (SectorStep(stepShift, prev, true) + 1) % 6
  {
    SectorStepInRange(stepShift, code, true);
    SectorStepInRange(stepShift, prev, true);
  }

  /** Along an accepted negative transition the step moves one place backward. */
  lemma NegativeTransitionRetreatsStep(stepShift: int, prev: int, code: int)
    requires 0 <= stepShift <= 5 && Accepted(code, prev, NEGATIVE)
    ensures SectorStep(stepShift, code, false) == (SectorStep(stepShift, prev, false) + 5) % 6
  {
    SectorStepInRange(stepShift, code, false);
    SectorStepInRange(stepShift, prev, false);
  }

  /** A repeated code, codes 0 and 7, and any direction other than +1/-1 are never accepted. */
  lemma RejectedReadings(code: int, prev: int, dir: int)
    ensures Accepted(code, prev, dir) ==> code != prev && 1 <= code <= 6
    ensures (dir != POSITIVE && dir != NEGATIVE) ==> !Accepted(code, prev, dir)
    ensures 1 <= prev <= 6 && (dir == POSITIVE || dir == NEGATIVE) ==>
              exists c :: 1 <= c <= 6 && Accepted(c, prev, dir)
  {
    if 1 <= prev <= 6 && dir == POSITIVE {
      assert Accepted(PositiveNext(prev), prev, dir);
    } else if 1 <= prev <= 6 && dir == NEGATIVE {
      var c :| 1 <= c <= 6 && PositiveNext(c) == prev by {
        assert PositiveNext(match prev case 5 => 4 case 1 => 5 case 3 => 1 case 2 => 3 case 6 => 2 case 4 => 6) == prev;
      }
      assert Accepted(c, prev, dir);
    }
  }

  /** Prescaler register and flag values after one capture. */
  datatype PrescalerUpdate = PrescalerUpdate(prsc: int, ratioInc: bool, ratioDec: bool)

  /** The factor that scales the raw capture: prsc+1, or prsc+2 on the
    * no-overflow capture right after a decrement (uint16_t arithmetic). */
  function CaptureScale(prsc: int, ovf: int, ratioDec: bool): (k: int)
    requires IsU16(prsc)
    ensures IsU16(k)
    ensures prsc < 0xFFFE ==> k == (if ovf == 0 && ratioDec then prsc + 2 else prsc + 1)
  {
    if ovf != 0 then U16(prsc + 1)
    else if ratioDec then U16(prsc + 2)
    else U16(prsc + 1)
  }

  /** Capture extended by the overflow count and scaled, in uint32_t. */
  function ScaledCapture(capture: int, ovf: int, scale: int): (w: int)
    requires IsU16(capture) && IsU16(ovf)
    ensures IsU32(w)
  {
    U32((capture + ovf * 0x10000) * scale)
  }

  /** Prescaler adaptation with a one-capture delay. */
  function NextPrescaler(prsc: int, ovf: int, capture: int, ratioInc: bool, ratioDec: bool, maxRatio: int): (u: PrescalerUpdate)
    requires 0 <= prsc <= maxRatio
    ensures 0 <= u.prsc <= maxRatio
    ensures u.prsc == prsc + 1 <==> (ovf != 0 && !ratioInc && prsc < maxRatio)
    ensures u.prsc == prsc - 1 <==> (ovf == 0 && !ratioDec && capture < LOW_RES_THRESHOLD && prsc > 0)
    ensures u.prsc == prsc - 1 || u.prsc == prsc || u.prsc == prsc + 1
    ensures ovf != 0 ==> u.ratioDec == ratioDec && (u.ratioInc <==> !ratioInc && prsc < maxRatio)
    ensures ovf == 0 ==> u.ratioInc == ratioInc && (u.ratioDec <==> !ratioDec && capture < LOW_RES_THRESHOLD && prsc > 0)
  {
    if ovf != 0 then
      if ratioInc then PrescalerUpdate(prsc, false, ratioDec)
      else if prsc < maxRatio then PrescalerUpdate(prsc + 1, true, ratioDec)
      else PrescalerUpdate(prsc, ratioInc, ratioDec)
    else
      if ratioDec then PrescalerUpdate(prsc, ratioInc, false)
      else if capture < LOW_RES_THRESHOLD && prsc > 0 then PrescalerUpdate(prsc - 1, ratioInc, true)
      else PrescalerUpdate(prsc, ratioInc, ratioDec)
  }

  /** The value stored for an accepted capture: min(capture, MaxPeriod) signed by the direction. */
  function StoredPeriod(wCapt: int, maxPeriod: int, dir: int): (p: int)
    requires IsU32(wCapt) && IsU32(maxPeriod)
    ensures IsI32(p)
    ensures maxPeriod < TWO31 && (dir == POSITIVE || dir == NEGATIVE) ==>
              p == (if wCapt >= maxPeriod then maxPeriod else wCapt) * dir
  {
    if wCapt >= maxPeriod then I32(I32(maxPeriod) * dir) else I32(I32(wCapt) * dir)
  }

  /** The value every slot is refilled with on a reset. */
  function ResetPeriod(maxPeriod: int, dir: int): (p: int)
    requires IsU32(maxPeriod)
    ensures IsI32(p)
    ensures maxPeriod < TWO31 && (dir == POSITIVE || dir == NEGATIVE) ==> p == maxPeriod * dir
  {
    I32(I32(maxPeriod) * dir)
  }

  /** The running sum the source stores on a reset. */
  function ResetSum(maxPeriod: int, size: int, dir: int): int
    requires IsU32(maxPeriod)
  {
    I32(I32(I32(maxPeriod) * size) * dir)
  }

  /** The refilled sum is the int32_t sum of `size` copies of the refill value. */
  lemma ResetSumIsSum(slots: seq<int>, maxPeriod: int, dir: int)
    requires IsU32(maxPeriod)
    requires forall k :: 0 <= k < |slots| ==> slots[k] == ResetPeriod(maxPeriod, dir)
    ensures ResetSum(maxPeriod, |slots|, dir) == I32(Sum(slots))
  {
    var v := ResetPeriod(maxPeriod, dir);
    SumConst(slots, v);
    assert |slots| * v == v * |slots|;
    WrapProd(I32(maxPeriod), |slots|, dir);
  }

  /** Replacing one slot keeps the stored int32_t sum equal to the int32_t sum of the slots. */
  lemma SlotReplaceKeepsSum(slots: seq<int>, i: nat, v: int, sum: int)
    requires i < |slots| && sum == I32(Sum(slots))
    ensures I32(I32(sum - slots[i]) + v) == I32(Sum(slots[i := v]))
  {
    SumUpdate(slots, i, v);
    var s := Sum(slots);
    CongAdd(sum, s, -slots[i], -slots[i]);
    CongAdd(I32(sum - slots[i]), sum - slots[i], v, v);
    CongTrans(I32(sum - slots[i]) + v, sum - slots[i] + v, s - slots[i] + v);
    I32Cong(I32(sum - slots[i]) + v, s - slots[i] + v);
  }

  /** Without int32_t overflow the stored sum is the exact sum of the slots. */
  lemma SumExactWithoutOverflow(slots: seq<int>, maxPeriod: int)
    requires 0 <= maxPeriod && |slots| * maxPeriod < TWO31
    requires forall k :: 0 <= k < |slots| ==> -maxPeriod <= slots[k] <= maxPeriod
    ensures I32(Sum(slots)) == Sum(slots)
  {
    SumBounded(slots, maxPeriod);
  }

  lemma {:induction false} SumBounded(slots: seq<int>, bound: int)
    requires 0 <= bound
    requires forall k :: 0 <= k < |slots| ==> -bound <= slots[k] <= bound
    ensures -|slots| * bound <= Sum(slots) <= |slots| * bound
    decreases |slots|
  {
    if slots != [] {
      SumBounded(slots[..|slots| - 1], bound);
    }
  }

  /** The averaged speed over a full buffer of equal periods equals the
    * instantaneous speed of that period. */
  lemma StationaryAverageIsInstantaneous(conv: int, slots: seq<int>, p: int)
    requires 1 <= |slots| <= HALL_SPEED_FIFO_SIZE && p != 0
    requires forall k :: 0 <= k < |slots| ==> slots[k] == p
    requires IsI32(|slots| * p)
    ensures SDiv32(conv, SDiv32(I32(Sum(slots)), |slots|)) == SDiv32(conv, p)
  {
    SumConst(slots, p);
    CDivExact(|slots|, p);
  }

  /** Lowest electrical speed the sensor is expected to measure: a quarter
    * of the reliable minimum (uint16_t product, then divided). */
  function MinMeasurableElSpeed(minReliableMec: int, elToMec: int): (r: int)
    ensures IsU16(r) && r <= U16(minReliableMec * elToMec)
  {
    U16(minReliableMec * elToMec) / MIN_MEAS_FACT_SPEED
  }

  /** Highest electrical speed the sensor is expected to measure: twice the
    * reliable maximum, kept in uint16_t. */
  function MaxMeasurableElSpeed(maxReliableMec: int, elToMec: int): (r: int)
    ensures IsU16(r) && (r - 2 * U16(maxReliableMec * elToMec)) % TWO16 == 0
  {
    U16(U16(maxReliableMec * elToMec) * MAX_MEAS_FACT_SPEED)
  }

  /** Time in milliseconds of one 60-degree sector at the lowest measurable
    * speed, or a fixed 150 ms when that speed is zero. */
  function SectorTimeout(minEl: int, speedUnit: int): (t: int)
    requires IsU16(minEl) && IsU16(speedUnit)
    ensures IsU16(t)
    ensures minEl == 0 ==> t == 150
  {
    if minEl == 0 then 150 else U16((1000 * speedUnit) / (6 * minEl))
  }

  /** When it fits in uint16_t, the timeout is the whole number of
    * milliseconds that six sectors at the lowest measurable speed take. */
  lemma SectorTimeoutIsFloor(minEl: int, speedUnit: int)
    requires 1 <= minEl < TWO16 && IsU16(speedUnit)
    requires 1000 * speedUnit / (6 * minEl) < TWO16
    ensures SectorTimeout(minEl, speedUnit) * (6 * minEl) <= 1000 * speedUnit
    ensures 1000 * speedUnit < (SectorTimeout(minEl, speedUnit) + 1) * (6 * minEl)
  {
    var a := 1000 * speedUnit;
    var b := 6 * minEl;
    DivBracket(a, b);
    DivBound(a, b);
    assert SectorTimeout(minEl, speedUnit) == a / b;
  }

  /** Number of timer overflows (at the lowest prescaler) in the timeout:
    * the product of two uint16_t values never wraps in uint32_t, and when the
    * quotient fits in uint16_t it is the whole number of thousandths of that
    * product; a larger quotient is stored modulo 2^16. */
  function MaxRatio(timeout: int, ovfFreq: int): (r: int)
    requires IsU16(timeout) && IsU16(ovfFreq)
    ensures IsU16(r)
    ensures timeout * ovfFreq / 1000 < TWO16 ==> r * 1000 <= timeout * ovfFreq < (r + 1) * 1000
    ensures (r - timeout * ovfFreq / 1000) % TWO16 == 0
  {
    MulBounds(timeout, ovfFreq);
    ProductFitsU32(timeout, ovfFreq);
    DivBracket(timeout * ovfFreq, 1000);
    U16(U32(timeout * ovfFreq) / 1000)
  }

  /** Two uint16_t values multiply without leaving uint32_t. */
  lemma ProductFitsU32(a: int, b: int)
    requires IsU16(a) && IsU16(b)
    ensures IsU32(a * b)
  {
    MulBounds(a, b);
    MulBounds(b, 0xFFFF - a);
    assert b * (0xFFFF - a) == 0xFFFF * b - a * b;
  }

  /** Timer ticks of one sector at the highest measurable speed. */
  function MinPeriodTicks(maxEl: int, speedUnit: int, timClockFreq: int): (t: int)
    requires IsU16(maxEl) && IsU16(speedUnit) && IsU32(timClockFreq)
    ensures IsU32(t)
    ensures maxEl == 0 ==> t == U32(speedUnit * (timClockFreq / 6))
  {
    if maxEl == 0 then U32(speedUnit * (timClockFreq / 6))
    else U32(speedUnit * (timClockFreq / 6)) / maxEl
  }

  /** With a non-zero maximum speed, MinPeriod is the floor of the sector
    * ticks at one speed unit divided by the maximum measurable speed. */
  lemma MinPeriodTicksIsFloor(maxEl: int, speedUnit: int, timClockFreq: int)
    requires 1 <= maxEl < TWO16 && IsU16(speedUnit) && IsU32(timClockFreq)
    ensures var ticks := U32(speedUnit * (timClockFreq / 6));
            MinPeriodTicks(maxEl, speedUnit, timClockFreq) * maxEl <= ticks
            < (MinPeriodTicks(maxEl, speedUnit, timClockFreq) + 1) * maxEl
  {
    var ticks := U32(speedUnit * (timClockFreq / 6));
    DivBracket(ticks, maxEl);
    assert MinPeriodTicks(maxEl, speedUnit, timClockFreq) == ticks / maxEl;
  }

  /** HALL_6S_Handle_t together with the timer prescaler register it adapts. */
  class Hall {
    const spd: SpeedFeedback.SpeedPosFdbk
    const SensorPlacement: u8
    const StepShift: u8
    const SpeedBufferSize: u8
    const TIMClockFreq: u32
    var SensorIsReliable: bool
    var RatioDec: bool
    var RatioInc: bool
    var FirstCapt: u8
    var BufferFilled: u8
    var OVFCounter: u16
    const SensorPeriod: array<i32>
    var SpeedFIFOIdx: u8
    var ElPeriodSum: i32
    var Direction: i8
    var HallState: u8
    var HALLMaxRatio: u16
    var MaxPeriod: u32
    var MinPeriod: u32
    var HallTimeout: u16
    var OvfFreq: u16
    var Step: u8
    /** TIMx->PSC. */
    var Prescaler: u16

    ghost predicate Valid()
      reads this, SensorPeriod
    {
      SensorPeriod.Length == HALL_SPEED_FIFO_SIZE && 1 <= SpeedBufferSize <= HALL_SPEED_FIFO_SIZE
      && BufferFilled <= SpeedBufferSize && SpeedFIFOIdx < SpeedBufferSize && Prescaler <= HALLMaxRatio
      && ElPeriodSum == I32(SlotSum())
    }

    /** The exact sum of slots [0, SpeedBufferSize), which the running sum tracks modulo 2^32. */
    ghost function SlotSum(): int
      reads SensorPeriod
      requires SpeedBufferSize <= SensorPeriod.Length
    {
      Sum(SensorPeriod[..SpeedBufferSize])
    }

    /** A zero-initialised handle with the given configuration. */
    constructor (super: SpeedFeedback.SpeedPosFdbk, placement: u8, stepShift: u8, bufferSize: u8, timClockFreq: u32)
      requires 1 <= bufferSize <= HALL_SPEED_FIFO_SIZE
      ensures Valid() && fresh(SensorPeriod) && spd == super
      ensures SensorPlacement == placement && StepShift == stepShift && SpeedBufferSize == bufferSize
      ensures TIMClockFreq == timClockFreq
    {
      spd := super;
      SensorPlacement := placement;
      StepShift := stepShift;
      SpeedBufferSize := bufferSize;
      TIMClockFreq := timClockFreq;
      SensorIsReliable := false;
      RatioDec, RatioInc := false, false;
      FirstCapt, BufferFilled, OVFCounter := 0, 0, 0;
      SensorPeriod := new i32[HALL_SPEED_FIFO_SIZE](_ => 0);
      SpeedFIFOIdx, ElPeriodSum, Direction, HallState := 0, 0, 0, 0;
      HALLMaxRatio, MaxPeriod, MinPeriod, HallTimeout, OvfFreq, Step, Prescaler := 0, 0, 0, 0, 0, 0, 0;
      new;
      assert SensorPeriod[..SpeedBufferSize] == SensorPeriod[..SpeedBufferSize][..SpeedBufferSize - 1] + [0];
      SumConst(SensorPeriod[..SpeedBufferSize], 0);
    }

    /** HALL_GetStep: the commutation step last derived from the sensors. */
    function GetStep(): (step: u8)
      reads this
      ensures step == Step
    {
      Step
    }

    /** HALL_SetDirection. */
    method SetDirection(direction: i8)
      requires Valid()
      modifies this`Direction
      ensures Valid() && Direction == direction
    {
      Direction := direction;
    }

    /** HALL_Init, software part: timeout, maximum prescaler ratio and the
      * accepted period range derived from the reliable speed range. The
      * SPEED_UNIT build constant is a parameter. */
    method Init(speedUnit: u16)
      requires Valid()
      modifies this`OvfFreq, this`HallTimeout, this`HALLMaxRatio, this`MaxPeriod, this`MinPeriod,
               this`SensorIsReliable, this`Prescaler
      ensures Valid()
      ensures OvfFreq == U16(TIMClockFreq / 65536)
      ensures HallTimeout == SectorTimeout(MinMeasurableElSpeed(spd.hMinReliableMecSpeedUnit, spd.bElToMecRatio), speedUnit)
      ensures HALLMaxRatio == MaxRatio(HallTimeout, OvfFreq)
      ensures MaxPeriod == HALLMaxRatio * 65536
      ensures MinPeriod == MinPeriodTicks(MaxMeasurableElSpeed(spd.hMaxReliableMecSpeedUnit, spd.bElToMecRatio), speedUnit, TIMClockFreq)
      ensures SensorIsReliable && Prescaler == HALLMaxRatio
    {
      var minEl := MinMeasurableElSpeed(spd.hMinReliableMecSpeedUnit, spd.bElToMecRatio);
      var maxEl := MaxMeasurableElSpeed(spd.hMaxReliableMecSpeedUnit, spd.bElToMecRatio);
      OvfFreq := U16(TIMClockFreq / 65536);
      HallTimeout := SectorTimeout(minEl, speedUnit);
      HALLMaxRatio := MaxRatio(HallTimeout, OvfFreq);
      MaxPeriod := HALLMaxRatio * 65536;
      MinPeriod := MinPeriodTicks(maxEl, speedUnit, TIMClockFreq);
      SensorIsReliable := true;
      Prescaler := HALLMaxRatio;
    }

    /** HALL_ReadState: decodes the lines and overwrites the reliability flag
      * with the verdict on this transition alone. */
    method ReadState(h1: bool, h2: bool, h3: bool)
      requires Valid()
      modifies this`HallState, this`SensorIsReliable
      ensures Valid()
      ensures HallState == HallCode(SensorPlacement, h1, h2, h3)
      ensures SensorIsReliable == Accepted(HallState, old(HallState), Direction)
    {
      var prev := HallState;
      var reliable := true;
      if SensorPlacement == DEGREES_120 {
        HallState := 4 * Bit(h3) + 2 * Bit(h2) + Bit(h1);
      } else {
        HallState := 4 * (if h2 then 0 else 1) + 2 * Bit(h3) + Bit(h1);
      }
      var st := HallState;
      if st == 5 {
        reliable := (prev == 4 && Direction == POSITIVE) || (prev == 1 && Direction == NEGATIVE);
      } else if st == 1 {
        reliable := (prev == 5 && Direction == POSITIVE) || (prev == 3 && Direction == NEGATIVE);
      } else if st == 3 {
        reliable := (prev == 1 && Direction == POSITIVE) || (prev == 2 && Direction == NEGATIVE);
      } else if st == 2 {
        reliable := (prev == 3 && Direction == POSITIVE) || (prev == 6 && Direction == NEGATIVE);
      } else if st == 6 {
        reliable := (prev == 2 && Direction == POSITIVE) || (prev == 4 && Direction == NEGATIVE);
      } else if st == 4 {
        reliable := (prev == 6 && Direction == POSITIVE) || (prev == 5 && Direction == NEGATIVE);
      } else {
        reliable := false;
      }
      SensorIsReliable := reliable;
    }

    /** HALL_State2Step: reads the lines, then maps the code and direction to
      * the commutation step; codes 0 and 7 leave Step and clear reliability. */
    method State2Step(h1: bool, h2: bool, h3: bool)
      requires Valid()
      modifies this`HallState, this`SensorIsReliable, this`Step
      ensures Valid()
      ensures HallState == HallCode(SensorPlacement, h1, h2, h3)
      ensures SensorIsReliable == Accepted(HallState, old(HallState), Direction)
      ensures Step == if 1 <= HallState <= 6 then SectorStep(StepShift, HallState, Direction == POSITIVE) else old(Step)
    {
      ReadState(h1, h2, h3);
      var st := HallState;
      if 1 <= st <= 6 {
        Step := SectorStep(StepShift, st, Direction == POSITIVE);
      } else {
        SensorIsReliable := false;
      }
    }

    /** Writes the refill value into slots [0, SpeedBufferSize) and the matching sum. */
    method RefillBuffer()
      requires Valid()
      modifies this`ElPeriodSum, SensorPeriod
      ensures Valid()
      ensures forall k :: 0 <= k < SpeedBufferSize ==> SensorPeriod[k] == ResetPeriod(MaxPeriod, Direction)
      ensures forall k :: SpeedBufferSize <= k < HALL_SPEED_FIFO_SIZE ==> SensorPeriod[k] == old(SensorPeriod[k])
      ensures ElPeriodSum == ResetSum(MaxPeriod, SpeedBufferSize, Direction)
    {
      var v := ResetPeriod(MaxPeriod, Direction);
      var i := 0;
      while i < SpeedBufferSize
        invariant 0 <= i <= SpeedBufferSize
        invariant forall k :: 0 <= k < i ==> SensorPeriod[k] == v
        invariant forall k :: i <= k < HALL_SPEED_FIFO_SIZE ==> SensorPeriod[k] == old(SensorPeriod[k])
      {
        SensorPeriod[i] := v;
        i := i + 1;
      }
      ElPeriodSum := ResetSum(MaxPeriod, SpeedBufferSize, Direction);
      ResetSumIsSum(SensorPeriod[..SpeedBufferSize], MaxPeriod, Direction);
    }

    /** The counter and flag resets at the start of HALL_Clear, including
      * the timer prescaler. */
    method ResetMeasurement()
      requires Valid()
      modifies this`RatioDec, this`RatioInc, this`SensorIsReliable, this`FirstCapt, this`BufferFilled,
               this`OVFCounter, this`SpeedFIFOIdx, this`Prescaler, spd`bSpeedErrorNumber
      ensures Valid()
      ensures !RatioDec && !RatioInc && SensorIsReliable && FirstCapt == 0 && BufferFilled == 0 && OVFCounter == 0
      ensures SpeedFIFOIdx == 0 && spd.bSpeedErrorNumber == 0 && Prescaler == HALLMaxRatio
    {
      RatioDec, RatioInc := false, false;
      SensorIsReliable := true;
      FirstCapt, BufferFilled, OVFCounter := 0, 0, 0;
      SpeedFIFOIdx := 0;
      spd.bSpeedErrorNumber := 0;
      Prescaler := HALLMaxRatio;
    }

    /** HALL_Clear: resets flags, counters and the error count, restores the
      * prescaler, re-reads the sensors and refills the buffer. The re-read
      * overwrites the reliability flag just set, so it ends up true only when
      * the sector has moved one place in the current direction since the
      * previous read. */
    method Clear(h1: bool, h2: bool, h3: bool)
      requires Valid()
      modifies this`RatioDec, this`RatioInc, this`SensorIsReliable, this`FirstCapt, this`BufferFilled,
               this`OVFCounter, this`SpeedFIFOIdx, this`Prescaler, this`HallState, this`Step, this`ElPeriodSum,
               spd`bSpeedErrorNumber, SensorPeriod
      ensures Valid()
      ensures !RatioDec && !RatioInc && FirstCapt == 0 && BufferFilled == 0 && OVFCounter == 0
      ensures SpeedFIFOIdx == 0 && spd.bSpeedErrorNumber == 0 && Prescaler == HALLMaxRatio
      ensures HallState == HallCode(SensorPlacement, h1, h2, h3)
      ensures SensorIsReliable == Accepted(HallState, old(HallState), Direction)
      ensures Step == if 1 <= HallState <= 6 then SectorStep(StepShift, HallState, Direction == POSITIVE) else old(Step)
      ensures forall k :: 0 <= k < SpeedBufferSize ==> SensorPeriod[k] == ResetPeriod(MaxPeriod, Direction)
      ensures ElPeriodSum == ResetSum(MaxPeriod, SpeedBufferSize, Direction)
    {
      ResetMeasurement();
      State2Step(h1, h2, h3);
      RefillBuffer();
    }

    /** HALL_CalcAvrgMecSpeedUnit: instantaneous speed until the buffer has
      * filled, averaged speed afterwards; periods below MinPeriod give 0
      * (not filled) or keep the previous average (filled). */
    method CalcAvrgMecSpeedUnit() returns (reliable: bool)
      requires Valid()
      modifies spd`bSpeedErrorNumber, spd`hAvrMecSpeedUnit
      ensures Valid()
      ensures var slot := SensorPeriod[SpeedFIFOIdx];
              var filled := BufferFilled >= SpeedBufferSize;
              var conv := I32(spd.speedConvFactor);
              spd.hAvrMecSpeedUnit ==
                (if Abs(slot) < MinPeriod then (if filled then old(spd.hAvrMecSpeedUnit) else 0)
                 else if filled then I16(SDiv32(conv, SDiv32(ElPeriodSum, SpeedBufferSize)))
                 else I16(SDiv32(conv, slot)))
      ensures spd.bSpeedErrorNumber == SpeedFeedback.NextErrorCount(old(spd.bSpeedErrorNumber), spd.bMaximumSpeedErrorsNumber,
                SpeedFeedback.IsSpeedError(spd.hAvrMecSpeedUnit, spd.hMinReliableMecSpeedUnit, spd.hMaxReliableMecSpeedUnit))
      ensures reliable == spd.Check()
    {
      var speed := spd.hAvrMecSpeedUnit;
      var slot := SensorPeriod[SpeedFIFOIdx];
      var wCaptBuf := if slot < 0 then U32(-(slot as int)) else U32(slot);
      if wCaptBuf < MinPeriod {
        if BufferFilled < SpeedBufferSize {
          speed := 0;
        }
      } else {
        if BufferFilled < SpeedBufferSize {
          speed := I16(SDiv32(I32(spd.speedConvFactor), slot));
        } else {
          speed := I16(SDiv32(I32(spd.speedConvFactor), SDiv32(ElPeriodSum, SpeedBufferSize)));
        }
      }
      reliable := spd.IsMecSpeedReliable(speed);
      spd.hAvrMecSpeedUnit := speed;
    }

    /** Extends and scales the raw capture, and adapts the prescaler with a
      * one-capture delay (the new value only applies from the next update). */
    method ScaleCapture(capture: u16) returns (w: u32)
      requires Valid()
      modifies this`Prescaler, this`RatioInc, this`RatioDec
      ensures Valid()
      ensures w == ScaledCapture(capture, OVFCounter, CaptureScale(old(Prescaler), OVFCounter, old(RatioDec)))
      ensures var u := NextPrescaler(old(Prescaler), OVFCounter, capture, old(RatioInc), old(RatioDec), HALLMaxRatio);
              Prescaler == u.prsc && RatioInc == u.ratioInc && RatioDec == u.ratioDec
    {
      var prscBuf: int := Prescaler;
      var ovf: int := OVFCounter;
      var wCaptBuf: int := U32((capture as int) + ovf * 0x10000);
      assert wCaptBuf == (capture as int) + ovf * 0x10000;
      ghost var scale := CaptureScale(prscBuf, ovf, RatioDec);
      if ovf != 0 {
        assert scale == U16(prscBuf + 1);
        wCaptBuf := U32(wCaptBuf * U16(prscBuf + 1));
        if RatioInc {
          RatioInc := false;
        } else if prscBuf < HALLMaxRatio {
          Prescaler := prscBuf + 1;
          RatioInc := true;
        }
      } else {
        if RatioDec {
          assert scale == U16(prscBuf + 2);
          wCaptBuf := U32(wCaptBuf * U16(prscBuf + 2));
          RatioDec := false;
        } else {
          assert scale == U16(prscBuf + 1);
          wCaptBuf := U32(wCaptBuf * U16(prscBuf + 1));
          if capture < LOW_RES_THRESHOLD && prscBuf > 0 {
            Prescaler := prscBuf - 1;
            RatioDec := true;
          }
        }
      }
      w := wCaptBuf;
    }

    /** Stores a period long enough to be trusted in the next FIFO slot and
      * keeps the running sum equal to the int32_t sum of the slots. */
    method StorePeriod(w: u32)
      requires Valid()
      modifies this`SpeedFIFOIdx, this`ElPeriodSum, SensorPeriod
      ensures Valid()
      ensures w < MinPeriod ==> SpeedFIFOIdx == old(SpeedFIFOIdx) && SensorPeriod[..] == old(SensorPeriod[..])
      ensures w >= MinPeriod ==> SpeedFIFOIdx == (old(SpeedFIFOIdx) + 1) % SpeedBufferSize
                                 && SensorPeriod[..] == old(SensorPeriod[..])[SpeedFIFOIdx := StoredPeriod(w, MaxPeriod, Direction)]
    {
      if w >= MinPeriod {
        ghost var before := SensorPeriod[..SpeedBufferSize];
        ModStep(SpeedFIFOIdx, SpeedBufferSize);
        SpeedFIFOIdx := SpeedFIFOIdx + 1;
        if SpeedFIFOIdx == SpeedBufferSize {
          SpeedFIFOIdx := 0;
        }
        var sum := I32(ElPeriodSum - SensorPeriod[SpeedFIFOIdx]);
        var v := StoredPeriod(w, MaxPeriod, Direction);
        SlotReplaceKeepsSum(before, SpeedFIFOIdx, v, ElPeriodSum);
        SensorPeriod[SpeedFIFOIdx] := v;
        assert SensorPeriod[..SpeedBufferSize] == before[SpeedFIFOIdx := v];
        ElPeriodSum := I32(sum + v);
      }
    }

    /** The state after an accepted edge has been measured, given the values
      * the edge started from: prescaler adapted, period stored when long
      * enough, fill count advanced twice, overflow count cleared. */
    ghost predicate EdgeMeasured(capture: u16, ovf0: u16, prsc0: u16, inc0: bool, dec0: bool, filled0: int, idx0: int, slots0: seq<int>)
      reads this, SensorPeriod
    {
      prsc0 <= HALLMaxRatio && 1 <= SpeedBufferSize && |slots0| == SensorPeriod.Length
      && var w := ScaledCapture(capture, ovf0, CaptureScale(prsc0, ovf0, dec0));
         var u := NextPrescaler(prsc0, ovf0, capture, inc0, dec0, HALLMaxRatio);
         && Prescaler == u.prsc && RatioInc == u.ratioInc && RatioDec == u.ratioDec && OVFCounter == 0
         && BufferFilled == (if filled0 + 2 <= SpeedBufferSize then filled0 + 2 else SpeedBufferSize)
         && (w < MinPeriod ==> SpeedFIFOIdx == idx0 && SensorPeriod[..] == slots0)
         && (w >= MinPeriod ==> SpeedFIFOIdx == (idx0 + 1) % SpeedBufferSize && SpeedFIFOIdx < |slots0|
                                && SensorPeriod[..] == slots0[SpeedFIFOIdx := StoredPeriod(w, MaxPeriod, Direction)])
    }

    /** The part of the capture handler that runs for an accepted edge after the first. */
    method MeasureEdge(capture: u16)
      requires Valid()
      modifies this`BufferFilled, this`Prescaler, this`RatioInc, this`RatioDec, this`SpeedFIFOIdx,
               this`ElPeriodSum, this`OVFCounter, SensorPeriod
      ensures Valid()
      ensures EdgeMeasured(capture, old(OVFCounter), old(Prescaler), old(RatioInc), old(RatioDec),
                           old(BufferFilled), old(SpeedFIFOIdx), old(SensorPeriod[..]))
    {
      if BufferFilled < SpeedBufferSize {
        BufferFilled := BufferFilled + 1;
      }
      var w := ScaleCapture(capture);
      StorePeriod(w);
      if BufferFilled < SpeedBufferSize {
        BufferFilled := BufferFilled + 1;
      }
      OVFCounter := 0;
    }

    /** HALL_TIMx_CC_IRQHandler without the CH2 phase-shift compare: the
      * first accepted edge only arms the measurement; later accepted edges
      * are measured; rejected edges change nothing but the sector state. */
    method CcIrqHandler(h1: bool, h2: bool, h3: bool, capture: u16)
      requires Valid()
      modifies this`HallState, this`SensorIsReliable, this`Step, this`FirstCapt, this`BufferFilled,
               this`Prescaler, this`RatioInc, this`RatioDec, this`SpeedFIFOIdx, this`ElPeriodSum,
               this`OVFCounter, SensorPeriod
      ensures Valid()
      ensures HallState == HallCode(SensorPlacement, h1, h2, h3)
      ensures SensorIsReliable == Accepted(HallState, old(HallState), Direction)
      ensures Step == if 1 <= HallState <= 6 then SectorStep(StepShift, HallState, Direction == POSITIVE) else old(Step)
      ensures FirstCapt == (if SensorIsReliable && old(FirstCapt) == 0 then 1 else old(FirstCapt))
      ensures !SensorIsReliable || old(FirstCapt) == 0 ==>
                SensorPeriod[..] == old(SensorPeriod[..]) && SpeedFIFOIdx == old(SpeedFIFOIdx)
                && BufferFilled == old(BufferFilled) && OVFCounter == old(OVFCounter)
                && Prescaler == old(Prescaler) && RatioInc == old(RatioInc) && RatioDec == old(RatioDec)
      ensures SensorIsReliable && old(FirstCapt) != 0 ==>
                EdgeMeasured(capture, old(OVFCounter), old(Prescaler), old(RatioInc), old(RatioDec),
                             old(BufferFilled), old(SpeedFIFOIdx), old(SensorPeriod[..]))
    {
      State2Step(h1, h2, h3);
      if SensorIsReliable {
        if FirstCapt == 0 {
          FirstCapt := FirstCapt + 1;
        } else {
          MeasureEdge(capture);
        }
      }
    }

    /** HALL_TIMx_UP_IRQHandler: counts overflows while reliable and resets the
      * measurement once the timeout count is reached. */
    method UpIrqHandler()
      requires Valid()
      modifies this`OVFCounter, this`FirstCapt, this`BufferFilled, this`SpeedFIFOIdx, this`ElPeriodSum, SensorPeriod
      ensures Valid()
      ensures !old(SensorIsReliable) ==>
                OVFCounter == old(OVFCounter) && FirstCapt == old(FirstCapt) && BufferFilled == old(BufferFilled)
                && SpeedFIFOIdx == old(SpeedFIFOIdx) && ElPeriodSum == old(ElPeriodSum) && SensorPeriod[..] == old(SensorPeriod[..])
      ensures old(SensorIsReliable) ==>
              var count := U16(old(OVFCounter) + 1);
              var limit := U16(U32(HallTimeout * OvfFreq) / ((Prescaler + 1) * 1000));
              if count >= limit then
                OVFCounter == 0 && FirstCapt == 0 && BufferFilled == 0 && SpeedFIFOIdx == 0
                && (forall k :: 0 <= k < SpeedBufferSize ==> SensorPeriod[k] == ResetPeriod(MaxPeriod, Direction))
                && (forall k :: SpeedBufferSize <= k < HALL_SPEED_FIFO_SIZE ==> SensorPeriod[k] == old(SensorPeriod[k]))
                && ElPeriodSum == ResetSum(MaxPeriod, SpeedBufferSize, Direction)
              else
                OVFCounter == count && FirstCapt == old(FirstCapt) && BufferFilled == old(BufferFilled)
                && SpeedFIFOIdx == old(SpeedFIFOIdx) && ElPeriodSum == old(ElPeriodSum) && SensorPeriod[..] == old(SensorPeriod[..])
    {
      if SensorIsReliable {
        OVFCounter := U16(OVFCounter + 1);
        var maxTimerOverflow := U16(U32(HallTimeout * OvfFreq) / ((Prescaler + 1) * 1000));
        if OVFCounter >= maxTimerOverflow {
          OVFCounter := 0;
          FirstCapt := 0;
          BufferFilled := 0;
          SpeedFIFOIdx := 0;
          RefillBuffer();
        }
      }
    }
  }
}
