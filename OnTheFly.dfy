// Six-step on-the-fly start: while the rotor coasts, the low sides are switched
// on, back-EMF zero crossings are timed, and once enough consistent crossings
// have been seen the speed buffers are seeded and the drive switches over.
module OnTheFly {
  import opened CInt
  import Ipd

  /** The commutation steps, as the power stage numbers them. */
  const STEP_1: int := Ipd.STEP_1
  const STEP_2: int := Ipd.STEP_2
  const STEP_3: int := Ipd.STEP_3
  const STEP_4: int := Ipd.STEP_4
  const STEP_5: int := Ipd.STEP_5
  const STEP_6: int := Ipd.STEP_6

  // ---------------------------------------------------------------------
  // Commutation while coasting
  // ---------------------------------------------------------------------

  /** The starting step: STEP_2 for a positive direction, STEP_1 otherwise. */
  function InitialStep(direction: int): (step: int)
    ensures step == STEP_2 || step == STEP_1
  {
    if direction > 0 then STEP_2 else STEP_1
  }

  /** The step after a zero crossing: two steps further on, so the low-side
    * pattern follows the coasting rotor. An unknown step goes to STEP_2. */
  function NextOtfStep(step: int): (next: int)
    ensures STEP_1 <= next <= STEP_6
  {
    if step == STEP_1 then STEP_5
    else if step == STEP_2 then STEP_4
    else if step == STEP_3 then STEP_1
    else if step == STEP_4 then STEP_6
    else if step == STEP_5 then STEP_3
    else STEP_2
  }

  predicate EvenSteps(step: int) { step == STEP_2 || step == STEP_4 || step == STEP_6 }
  predicate OddSteps(step: int) { step == STEP_1 || step == STEP_3 || step == STEP_5 }

  /** The step after k zero crossings from the start. */
  function StepAfter(step: int, k: nat): int
  {
    if k == 0 then step else NextOtfStep(StepAfter(step, k - 1))
  }

  /** Each of the two triples is a 3-cycle: 1 -> 5 -> 3 -> 1 and 2 -> 4 -> 6 -> 2,
    * and every step lands in one of them. */
  lemma OtfStepCycles(step: int)
    ensures STEP_1 <= step <= STEP_6 ==> NextOtfStep(NextOtfStep(NextOtfStep(step))) == step
    ensures EvenSteps(step) ==> EvenSteps(NextOtfStep(step))
    ensures OddSteps(step) ==> OddSteps(NextOtfStep(step))
    ensures EvenSteps(NextOtfStep(step)) || OddSteps(NextOtfStep(step))
  {
  }

  /** A positive start visits only STEP_2, STEP_4 and STEP_6; any other start
    * only STEP_1, STEP_3 and STEP_5. */
  lemma {:induction false} StepsStayInTriple(direction: int, k: nat)
    ensures direction > 0 ==> EvenSteps(StepAfter(InitialStep(direction), k))
    ensures direction <= 0 ==> OddSteps(StepAfter(InitialStep(direction), k))
  {
    if k > 0 {
      StepsStayInTriple(direction, k - 1);
      OtfStepCycles(StepAfter(InitialStep(direction), k - 1));
    }
  }

  // ---------------------------------------------------------------------
  // Timing the back-EMF transitions
  // ---------------------------------------------------------------------

  /** Half the timer ticks elapsed since the last call, across one counter wrap
    * at auto-reload + 1. */
  function BemfPeriod(counter: int, last: int, autoReload: int): (period: int)
    requires IsU32(counter) && IsU32(last) && IsU32(autoReload)
    ensures 0 <= period < TWO31
  {
    var counterAutoreload := U32(autoReload + 1);
    if counter < last then U32(counterAutoreload - (last - counter)) / 2
    else (counter - last) / 2
  }

  /** With both readings within the counter range, the period is half the
    * elapsed ticks modulo the counter period. */
  lemma BemfPeriodIsModular(counter: int, last: int, autoReload: int)
    requires 0 <= counter <= autoReload && 0 <= last <= autoReload && autoReload + 1 < TWO32
    ensures BemfPeriod(counter, last, autoReload) == ((counter - last) % (autoReload + 1)) / 2
  {
    var m := autoReload + 1;
    ModWindow(counter - last, m);
  }

  /** A difference of two counter readings, reduced modulo the counter period. */
  lemma ModWindow(x: int, m: int)
    requires m >= 1 && -m < x < m
    ensures x % m == (if x < 0 then x + m else x)
  {
    var q := x / m;
    var r := x % m;
    assert x == m * q + r && 0 <= r < m;
    MulBounds(m, q);
    MulBounds(m, q + 1);
    assert m * (q + 1) == m * q + m;
    if x < 0 {
      assert q == -1;
    } else {
      assert q == 0;
    }
  }

  /** A period shorter than three PWM periods of the speed timer is a glitch. */
  predicate IsGlitch(period: int, psc: int, pwmPeriod: int)
  {
    U32(period * psc) < 3 * pwmPeriod
  }

  /** The state OTF_6S_Task reads and writes: its own counters and flags, the
    * power stage's step, and the back-EMF sensing handle's speed fields. */
  datatype Bemf = Bemf(last: int, stepTimeLast: int, stepTimeUp: int, stepTimeDown: int,
                       buffer: seq<int>, fifoIdx: int, elPeriodSum: int, bufferFilled: int,
                       avrMecSpeed: int, avrSpeed: int, bemfErrors: int, abort: bool, step: int)

  /** The fixed parameters: speed timer prescaler, consecutive transitions
    * needed, error budget, speed conversion factor and speed buffer size. */
  datatype OtfConfig = OtfConfig(psc: int, maxConsecutive: int, maxErrors: int, convFactor: int, bufferSize: int)

  datatype TaskResult = TaskResult(state: Bemf, done: bool)

  predicate TaskReady(b: Bemf, c: OtfConfig)
  {
    0 <= b.fifoIdx <= c.maxConsecutive < |b.buffer| <= 0xFF && 0 <= c.bufferSize <= |b.buffer|
    && IsU8(b.bemfErrors)
  }

  /** The state after a transition is measured: a glitch only counts an error;
    * a good period is recorded and stored, signed by the direction. */
  function Measured(b: Bemf, counter: int, period: int, glitch: bool, direction: int): (m: Bemf)
    requires 0 <= b.fifoIdx < |b.buffer|
    ensures |m.buffer| == |b.buffer| && m.last == counter
  {
    if glitch then b.(bemfErrors := U8(b.bemfErrors + 1), last := counter)
    else b.(stepTimeLast := period, buffer := b.buffer[b.fifoIdx := I32(period * direction)],
            fifoIdx := b.fifoIdx + 1, last := counter)
  }

  /** The state once enough transitions are seen: the speed buffer holds the
    * last period everywhere, the averages are seeded from it. */
  function Locked(m: Bemf, c: OtfConfig): (s: Bemf)
    requires 1 <= m.fifoIdx <= |m.buffer| && 0 <= c.bufferSize <= |m.buffer|
    ensures |s.buffer| == |m.buffer|
  {
    var t := m.buffer[m.fifoIdx - 1];
    var avr := I16(SDiv32(I32(c.convFactor), t));
    m.(avrSpeed := avr, avrMecSpeed := avr, stepTimeUp := m.stepTimeLast, stepTimeDown := m.stepTimeLast,
       buffer := seq(c.bufferSize, _ => t) + m.buffer[c.bufferSize..], fifoIdx := 0,
       elPeriodSum := I32(t * c.bufferSize), bufferFilled := c.bufferSize)
  }

  /** OTF_6S_Task: time the transition, then either lock on, commutate to the
    * next step, or abort once the error budget is spent. */
  function TaskSpec(b: Bemf, c: OtfConfig, counter: int, autoReload: int, pwmPeriod: int, direction: int): (r: TaskResult)
    requires TaskReady(b, c) && IsU32(counter) && IsU32(b.last) && IsU32(autoReload)
    ensures |r.state.buffer| == |b.buffer|
  {
    var period := BemfPeriod(counter, b.last, autoReload);
    var m := Measured(b, counter, period, IsGlitch(period, c.psc, pwmPeriod), direction);
    if m.fifoIdx > c.maxConsecutive then TaskResult(Locked(m, c), true)
    else if m.bemfErrors < c.maxErrors then TaskResult(m.(step := NextOtfStep(m.step)), false)
    else TaskResult(m.(abort := true), false)
  }

  /** A glitch leaves the stored periods, the index and the last good period
    * alone and counts one error; it can never complete the lock. */
  lemma GlitchOnlyCountsError(b: Bemf, c: OtfConfig, counter: int, autoReload: int, pwmPeriod: int, direction: int)
    requires TaskReady(b, c) && IsU32(counter) && IsU32(b.last) && IsU32(autoReload)
    requires IsGlitch(BemfPeriod(counter, b.last, autoReload), c.psc, pwmPeriod)
    ensures var r := TaskSpec(b, c, counter, autoReload, pwmPeriod, direction);
            !r.done && r.state.buffer == b.buffer && r.state.fifoIdx == b.fifoIdx
            && r.state.stepTimeLast == b.stepTimeLast && r.state.bemfErrors == U8(b.bemfErrors + 1)
            && r.state.last == counter
  {
  }

  /** Task returns true exactly when the transition count passes the required
    * number; otherwise it commutates if errors remain below the budget, and
    * aborts without commutating when they do not. */
  lemma TaskOutcome(b: Bemf, c: OtfConfig, counter: int, autoReload: int, pwmPeriod: int, direction: int)
    requires TaskReady(b, c) && IsU32(counter) && IsU32(b.last) && IsU32(autoReload)
    ensures var period := BemfPeriod(counter, b.last, autoReload);
            var glitch := IsGlitch(period, c.psc, pwmPeriod);
            var r := TaskSpec(b, c, counter, autoReload, pwmPeriod, direction);
            (r.done <==> !glitch && b.fifoIdx == c.maxConsecutive)
            && (!r.done && r.state.bemfErrors < c.maxErrors ==> r.state.step == NextOtfStep(b.step) && r.state.abort == b.abort)
            && (!r.done && r.state.bemfErrors >= c.maxErrors ==> r.state.step == b.step && r.state.abort)
            && (r.done ==> r.state.step == b.step && r.state.abort == b.abort && r.state.fifoIdx == 0)
  {
  }

  /** After the lock every slot of the speed buffer holds the last period, the
    * period sum is that period times the buffer size (when it fits in int32_t)
    * and the average speed is the conversion factor over that period. */
  lemma LockSeedsBuffer(b: Bemf, c: OtfConfig, counter: int, autoReload: int, pwmPeriod: int, direction: int)
    requires TaskReady(b, c) && IsU32(counter) && IsU32(b.last) && IsU32(autoReload)
    requires TaskSpec(b, c, counter, autoReload, pwmPeriod, direction).done
    ensures var period := BemfPeriod(counter, b.last, autoReload);
            var r := TaskSpec(b, c, counter, autoReload, pwmPeriod, direction).state;
            var t := I32(period * direction);
            r.stepTimeLast == period && r.stepTimeUp == period && r.stepTimeDown == period
            && (forall i :: 0 <= i < c.bufferSize ==> r.buffer[i] == t)
            && r.buffer[c.bufferSize..] == b.buffer[b.fifoIdx := t][c.bufferSize..]
            && r.bufferFilled == c.bufferSize
            && (IsI32(t * c.bufferSize) ==> r.elPeriodSum == Sum(r.buffer[..c.bufferSize]))
            && r.avrSpeed == r.avrMecSpeed == I16(SDiv32(I32(c.convFactor), t))
  {
    var period := BemfPeriod(counter, b.last, autoReload);
    var r := TaskSpec(b, c, counter, autoReload, pwmPeriod, direction).state;
    var t := I32(period * direction);
    assert r.buffer[..c.bufferSize] == seq(c.bufferSize, _ => t);
    SumConst(r.buffer[..c.bufferSize], t);
    assert c.bufferSize * t == t * c.bufferSize;
  }

  // ---------------------------------------------------------------------
  // Duty-to-speed conversion
  // ---------------------------------------------------------------------

  /** One sample of the duty/speed ratio in 16.16: duty * 65536 / |speed|. */
  function DutyRatio(duty: int, speed: int): (ratio: int)
    requires IsU16(duty) && IsI16(speed) && speed != 0
    ensures IsU32(ratio)
  {
    DivBound(U32(duty * 0x1_0000), Abs(speed));
    U32(duty * 0x1_0000) / Abs(speed)
  }

  /** The filter output: the uint32_t sum of the first bw samples divided by bw. */
  function WindowMean(buffer: seq<int>, bw: int): (mean: int)
    requires 1 <= bw <= |buffer|
    ensures IsU32(mean)
  {
    DivBound(U32(Sum(buffer[..bw])), bw);
    U32(Sum(buffer[..bw])) / bw
  }

  /** The sample index after a store: cyclic over the bw samples. */
  function NextSample(index: int, bw: int): (next: int)
    requires 0 <= index < bw
    ensures 0 <= next < bw && next == (index + 1) % bw
  {
    ModStep(index, bw);
    if index < bw - 1 then index + 1 else 0
  }

  /** OTF_6S_CalcSpeedReference: factor * |speed| / 65536, as uint16_t. */
  function SpeedReference(factor: int, speed: int): (reference: int)
    requires IsU32(factor) && IsI16(speed)
    ensures IsU16(reference)
  {
    U16(U32(factor * Abs(speed)) / 0x1_0000)
  }

  /** A buffer of equal samples averages to that sample (when the sum fits). */
  lemma UniformMean(buffer: seq<int>, bw: int, v: int)
    requires 1 <= bw <= |buffer| && (forall i :: 0 <= i < bw ==> buffer[i] == v)
    requires 0 <= bw * v < TWO32
    ensures WindowMean(buffer, bw) == v
  {
    SumConst(buffer[..bw], v);
    DivMul(bw, v);
  }

  /** The speed reference computed back from a ratio learnt at the same speed
    * gives the duty again, rounded down by at most one. */
  lemma DutyRoundTrip(duty: int, speed: int)
    requires IsU16(duty) && IsI16(speed) && speed != 0
    ensures duty - 1 <= SpeedReference(DutyRatio(duty, speed), speed) <= duty
  {
    var a := Abs(speed);
    var v := DutyRatio(duty, speed);
    assert U32(duty * 0x1_0000) == duty * 0x1_0000;
    DivBracket(duty * 0x1_0000, a);
    assert v * a + a == (v + 1) * a;
    RoundTripBounds(duty, a, v * a);
  }

  /** The 16.16 product brackets the duty: one step of the ratio is at most one duty count. */
  lemma RoundTripBounds(duty: int, a: int, p: int)
    requires 0 <= duty < 0x1_0000 && 1 <= a <= 0x1_0000 && 0 <= p <= duty * 0x1_0000 < p + a
    ensures p < TWO32 && duty - 1 <= p / 0x1_0000 <= duty
  {
  }

  /** The sensing threshold Init programs: the threshold percentage of the bus
    * voltage over the bus-to-threshold factor, plus the correction, as uint16_t. */
  function SensingThreshold(percentage: int, busVoltage: int, convFactor: int, correction: int): (threshold: int)
    requires IsU16(percentage) && IsU16(busVoltage) && convFactor >= 0
    ensures IsU16(threshold)
  {
    U16(U16(UDiv(percentage * busVoltage, convFactor)) + correction)
  }

  // ---------------------------------------------------------------------
  // The handle
  // ---------------------------------------------------------------------

  /** OTF_6S_Handle_t, together with the fields of the back-EMF sensing handle
    * and of the power stage that the procedure reads and writes. */
  class OnTheFlyCtrl {
    // back-EMF sensing handle
    var Last_TimerSpeed_Counter: u32
    var StepTime_Last: u32
    var StepTime_Up: u32
    var StepTime_Down: u32
    const SpeedBufferDpp: array<i32>
    var SpeedFIFOIdx: u8
    const SpeedBufferSize: u8
    var ElPeriodSum: i32
    var BufferFilled: u8
    const speedConvFactor: u32
    var hAvrMecSpeedUnit: i16
    var sensingThreshold: u16
    // power stage
    var Step: int
    // on-the-fly handle
    var AvrSpeed: i16
    const speedTimerPsc: u32
    var OTFongoing: bool
    var OTFabort: bool
    const maxConsecutiveBemfTransitions: u8
    var BemfErrors: u8
    const maxBemfErrors: u16
    var speedDutyConvFactor: u32
    const aBuffer: array<u32>
    var index: u8
    const LowPassFilterBW: u8

    ghost predicate Valid()
      reads this
    {
      SpeedFIFOIdx <= maxConsecutiveBemfTransitions < SpeedBufferDpp.Length <= 0xFF
      && SpeedBufferSize <= SpeedBufferDpp.Length
      && aBuffer.Length == 8 && 1 <= LowPassFilterBW <= 8 && index < LowPassFilterBW
      && SpeedBufferDpp != aBuffer as object
    }

    function Config(): OtfConfig
      reads this
    {
      OtfConfig(speedTimerPsc, maxConsecutiveBemfTransitions, maxBemfErrors, speedConvFactor, SpeedBufferSize)
    }

    /** The state the task steps. */
    function State(): Bemf
      reads this, SpeedBufferDpp
    {
      Bemf(Last_TimerSpeed_Counter, StepTime_Last, StepTime_Up, StepTime_Down, SpeedBufferDpp[..], SpeedFIFOIdx,
           ElPeriodSum, BufferFilled, hAvrMecSpeedUnit, AvrSpeed, BemfErrors, OTFabort, Step)
    }

    /** The handles as the configuration tables initialise them. */
    constructor (psc: u32, maxConsecutive: u8, maxErrors: u16, bw: u8, convFactor: u32, bufferSize: u8, bufferLength: nat)
      requires maxConsecutive < bufferLength <= 0xFF && bufferSize <= bufferLength && 1 <= bw <= 8
      ensures Valid() && fresh(SpeedBufferDpp) && fresh(aBuffer)
      ensures speedTimerPsc == psc && maxConsecutiveBemfTransitions == maxConsecutive && maxBemfErrors == maxErrors
      ensures LowPassFilterBW == bw && speedConvFactor == convFactor && SpeedBufferSize == bufferSize
      ensures SpeedBufferDpp.Length == bufferLength && !OTFongoing && !OTFabort
    {
      Last_TimerSpeed_Counter := 0;
      StepTime_Last := 0;
      StepTime_Up := 0;
      StepTime_Down := 0;
      SpeedBufferDpp := new i32[bufferLength](_ => 0);
      SpeedFIFOIdx := 0;
      SpeedBufferSize := bufferSize;
      ElPeriodSum := 0;
      BufferFilled := 0;
      speedConvFactor := convFactor;
      hAvrMecSpeedUnit := 0;
      sensingThreshold := 0;
      Step := STEP_1;
      AvrSpeed := 0;
      speedTimerPsc := psc;
      OTFongoing := false;
      OTFabort := false;
      maxConsecutiveBemfTransitions := maxConsecutive;
      BemfErrors := 0;
      maxBemfErrors := maxErrors;
      speedDutyConvFactor := 0;
      aBuffer := new u32[8](_ => 0);
      index := 0;
      LowPassFilterBW := bw;
    }

    /** OTF_6S_Init: programs the sensing threshold from the bus voltage,
      * latches the speed timer, picks the starting step from the direction and
      * starts the procedure. */
    method Init(busVoltage: u16, thresholdPerc: u16, bus2ThresholdConv: u16, thresholdCorrect: u16,
                counter: u32, direction: i8)
      modifies this`sensingThreshold, this`Last_TimerSpeed_Counter, this`Step, this`OTFongoing, this`OTFabort,
               this`BemfErrors
      ensures sensingThreshold == SensingThreshold(thresholdPerc, busVoltage, bus2ThresholdConv, thresholdCorrect)
      ensures Last_TimerSpeed_Counter == counter && Step == InitialStep(direction)
      ensures OTFongoing && !OTFabort && BemfErrors == 0
    {
      var thresholdPwm := U16(U16(UDiv(thresholdPerc * busVoltage, bus2ThresholdConv)) + thresholdCorrect);
      sensingThreshold := thresholdPwm;
      Last_TimerSpeed_Counter := counter;
      if direction > 0 {
        Step := STEP_2;
      } else {
        Step := STEP_1;
      }
      OTFongoing := true;
      OTFabort := false;
      BemfErrors := 0;
    }

    /** OTF_6S_Clear: stops the procedure and restarts the duty filter. */
    method Clear()
      modifies this`OTFongoing, this`index
      ensures !OTFongoing && index == 0
    {
      OTFongoing := false;
      index := 0;
    }

    /** OTF_6S_SwitchOver: the procedure is over. */
    method SwitchOver()
      modifies this`OTFongoing
      ensures !OTFongoing
    {
      OTFongoing := false;
    }

    /** OTF_6S_IsOngoing: the procedure's running flag. */
    predicate IsOngoing()
      reads this
      ensures IsOngoing() <==> OTFongoing
    {
      OTFongoing
    }

    /** OTF_6S_IsAborted: the procedure's abort flag. */
    predicate IsAborted()
      reads this
      ensures IsAborted() <==> OTFabort
    {
      OTFabort
    }

    /** OTF_6S_Task, with the speed timer's counter and auto-reload, the PWM
      * period and the rev-up direction as inputs. */
    method Task(counter: u32, autoReload: u32, pwmPeriod: u16, direction: i8) returns (done: bool)
      requires Valid()
      modifies this`Last_TimerSpeed_Counter, this`StepTime_Last, this`StepTime_Up, this`StepTime_Down, SpeedBufferDpp,
               this`SpeedFIFOIdx, this`ElPeriodSum, this`BufferFilled, this`hAvrMecSpeedUnit, this`AvrSpeed,
               this`BemfErrors, this`OTFabort, this`Step
      ensures Valid()
      ensures TaskResult(State(), done) == TaskSpec(old(State()), Config(), counter, autoReload, pwmPeriod, direction)
    {
      ghost var b := State();
      var period := Measure(counter, autoReload, pwmPeriod, direction);
      ghost var m := Measured(b, counter, period, IsGlitch(period, speedTimerPsc, pwmPeriod), direction);
      assert State() == m;
      if SpeedFIFOIdx > maxConsecutiveBemfTransitions {
        Lock();
        done := true;
      } else {
        if BemfErrors < maxBemfErrors {
          Step := NextOtfStep(Step);
        } else {
          OTFabort := true;
        }
        done := false;
      }
    }

    /** The measuring half of the task: period, glitch check, store. */
    method Measure(counter: u32, autoReload: u32, pwmPeriod: u16, direction: i8) returns (period: u32)
      requires Valid()
      modifies this`Last_TimerSpeed_Counter, this`StepTime_Last, SpeedBufferDpp, this`SpeedFIFOIdx, this`BemfErrors
      ensures period == BemfPeriod(counter, old(Last_TimerSpeed_Counter), autoReload)
      ensures State() == Measured(old(State()), counter, period, IsGlitch(period, speedTimerPsc, pwmPeriod), direction)
      ensures SpeedFIFOIdx <= maxConsecutiveBemfTransitions + 1
    {
      period := Period(counter, autoReload);
      var scaled := U32(period * speedTimerPsc);
      if scaled < 3 * pwmPeriod {
        BemfErrors := U8(BemfErrors + 1);
      } else {
        StepTime_Last := period;
        SpeedBufferDpp[SpeedFIFOIdx] := I32(period * direction);
        SpeedFIFOIdx := SpeedFIFOIdx + 1;
      }
      Last_TimerSpeed_Counter := counter;
    }

    /** The half period of the last back-EMF transition, from the speed timer. */
    method Period(counter: u32, autoReload: u32) returns (period: u32)
      ensures period == BemfPeriod(counter, Last_TimerSpeed_Counter, autoReload)
    {
      var counterAutoreload := U32(autoReload + 1);
      if counter < Last_TimerSpeed_Counter {
        period := U32(counterAutoreload - (Last_TimerSpeed_Counter - counter)) / 2;
      } else {
        period := (counter - Last_TimerSpeed_Counter) / 2;
      }
    }

    /** The lock-on half of the task: seeds the speed buffer with the last period. */
    method Lock()
      requires 1 <= SpeedFIFOIdx <= SpeedBufferDpp.Length && SpeedBufferSize <= SpeedBufferDpp.Length
      modifies this`AvrSpeed, this`hAvrMecSpeedUnit, this`StepTime_Up, this`StepTime_Down, SpeedBufferDpp,
               this`SpeedFIFOIdx, this`ElPeriodSum, this`BufferFilled
      ensures State() == Locked(old(State()), Config())
    {
      ghost var locked := Locked(State(), Config());
      AvrSpeed := I16(SDiv32(I32(speedConvFactor), SpeedBufferDpp[SpeedFIFOIdx - 1]));
      var tSpeedBuffer := SpeedBufferDpp[SpeedFIFOIdx - 1];
      StepTime_Up := StepTime_Last;
      StepTime_Down := StepTime_Last;
      Fill(tSpeedBuffer);
      SpeedFIFOIdx := 0;
      ElPeriodSum := I32(tSpeedBuffer * SpeedBufferSize);
      hAvrMecSpeedUnit := AvrSpeed;
      BufferFilled := SpeedBufferSize;
      assert SpeedBufferDpp[..] == locked.buffer;
    }

    /** Writes the period into the first SpeedBufferSize slots of the speed buffer. */
    method Fill(t: i32)
      requires SpeedBufferSize <= SpeedBufferDpp.Length
      modifies SpeedBufferDpp
      ensures SpeedBufferDpp[..] == seq(SpeedBufferSize, _ => t) + old(SpeedBufferDpp[..])[SpeedBufferSize..]
    {
      var i := 0;
      while i < SpeedBufferSize
        invariant i <= SpeedBufferSize
        invariant forall k :: 0 <= k < i ==> SpeedBufferDpp[k] == t
        invariant forall k :: i <= k < SpeedBufferDpp.Length ==> SpeedBufferDpp[k] == old(SpeedBufferDpp[k])
      {
        SpeedBufferDpp[i] := t;
        i := i + 1;
      }
    }

    /** OTF_6S_UpdateDutyConv: stores one duty/speed sample and refreshes the
      * conversion factor as the mean of the filter window; nothing happens at
      * zero duty or zero speed. */
    method UpdateDutyConv(duty: u16)
      requires Valid()
      modifies aBuffer, this`speedDutyConvFactor, this`index
      ensures Valid()
      ensures duty == 0 || hAvrMecSpeedUnit == 0 ==>
                aBuffer[..] == old(aBuffer[..]) && speedDutyConvFactor == old(speedDutyConvFactor) && index == old(index)
      ensures duty != 0 && hAvrMecSpeedUnit != 0 ==>
                aBuffer[..] == old(aBuffer[..])[old(index) := DutyRatio(duty, hAvrMecSpeedUnit)]
                && speedDutyConvFactor == WindowMean(aBuffer[..], LowPassFilterBW)
                && index == NextSample(old(index), LowPassFilterBW)
    {
      if duty != 0 && hAvrMecSpeedUnit != 0 {
        var tspeed: int;
        if hAvrMecSpeedUnit > 0 {
          tspeed := hAvrMecSpeedUnit;
        } else {
          tspeed := -(hAvrMecSpeedUnit as int);
        }
        assert tspeed == Abs(hAvrMecSpeedUnit);
        DivBound(U32(duty * 0x1_0000), tspeed);
        aBuffer[index] := U32(duty * 0x1_0000) / tspeed;
        var wtemp := WindowSum();
        DivBound(wtemp, LowPassFilterBW);
        wtemp := wtemp / LowPassFilterBW;
        speedDutyConvFactor := wtemp;
        if index < LowPassFilterBW - 1 {
          index := index + 1;
        } else {
          index := 0;
        }
      }
    }

    /** The uint32_t sum of the filter window, as the conversion loop accumulates it. */
    method WindowSum() returns (wtemp: u32)
      requires 1 <= LowPassFilterBW as int <= aBuffer.Length
      ensures wtemp == U32(Sum(aBuffer[..LowPassFilterBW]))
    {
      wtemp := 0;
      var i := 0;
      while i < LowPassFilterBW
        invariant 0 <= i <= LowPassFilterBW
        invariant wtemp == U32(Sum(aBuffer[..i]))
      {
        SumPrefixStep(aBuffer[..], i);
        assert aBuffer[..i + 1] == aBuffer[..][..i + 1] && aBuffer[..i] == aBuffer[..][..i];
        U32AddWrap(Sum(aBuffer[..i]), aBuffer[i]);
        wtemp := U32(wtemp + aBuffer[i]);
        i := i + 1;
      }
    }

    /** OTF_6S_CalcSpeedReference. */
    function CalcSpeedReference(): (reference: u16)
      reads this
      ensures reference == SpeedReference(speedDutyConvFactor, AvrSpeed)
    {
      var tSpeed: int := if AvrSpeed >= 0 then AvrSpeed else U16(-(AvrSpeed as int));
      U16(U32(speedDutyConvFactor * tSpeed) / 0x1_0000)
    }
  }
}
