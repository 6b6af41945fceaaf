// Six-step initial position detection: the valid-step counters of the
// detection task, the twelve-bin flux table built from six current samples,
// the arg-max over three-bin windows and the angle-to-step map.
module Ipd {
  import opened CInt

  /** Commutation step numbers (STEP_1 .. STEP_6 are 0 .. 5). */
  const STEP_1: int := 0
  const STEP_2: int := 1
  const STEP_3: int := 2
  const STEP_4: int := 3
  const STEP_5: int := 4
  const STEP_6: int := 5

  /** int32_t minimum, the initial best window sum. */
  const S32_MIN: int := -0x8000_0000

  /** Six int16_t shunt samples, one per pulse direction. */
  predicate Samples(s: seq<int>)
  {
    |s| == 6 && forall i :: 0 <= i < 6 ==> IsI16(s[i])
  }

  /** The total of the six samples. */
  function Total(s: seq<int>): int
    requires |s| == 6
  {
    s[0] + s[1] + s[2] + s[3] + s[4] + s[5]
  }

  lemma Sum6(s: seq<int>)
    requires |s| == 6
    ensures Sum(s) == Total(s)
  {
    assert s[..6] == s && s[..0] == [];
    SumPrefixStep(s, 0);
    SumPrefixStep(s, 1);
    SumPrefixStep(s, 2);
    SumPrefixStep(s, 3);
    SumPrefixStep(s, 4);
    SumPrefixStep(s, 5);
  }

  /** The truncated mean of the six samples, as int32_t arithmetic computes it. */
  function Average(s: seq<int>): (avg: int)
    requires Samples(s)
    ensures -0x8000 <= avg < 0x8000
    ensures -6 < Total(s) - 6 * avg < 6
    ensures Total(s) >= 0 ==> Total(s) - 6 * avg >= 0
    ensures Total(s) <= 0 ==> Total(s) - 6 * avg <= 0
  {
    CDivRemainder(Total(s), 6);
    CDiv(Total(s), 6)
  }

  /** The remainder left by truncating division has the dividend's sign and is smaller than the divisor. */
  lemma CDivRemainder(a: int, b: int)
    requires b == 2 || b == 6
    ensures -b < a - b * CDiv(a, b) < b
    ensures a >= 0 ==> a - b * CDiv(a, b) >= 0
    ensures a <= 0 ==> a - b * CDiv(a, b) <= 0
    ensures a >= 0 ==> 0 <= CDiv(a, b) <= a
    ensures a <= 0 ==> a <= CDiv(a, b) <= 0
  {
    if b == 2 {
      if a < 0 {
        assert CDiv(a, 2) == -((-a) / 2);
      }
    } else {
      if a < 0 {
        assert CDiv(a, 6) == -((-a) / 6);
      }
    }
  }

  /** The next of the twelve bins, cyclically. */
  function Next(k: int): (j: int)
    requires 0 <= k < 12
    ensures 0 <= j < 12
  {
    if k == 11 then 0 else k + 1
  }

  /** An odd bin: the truncated mean of its two neighbours, which lies between them. */
  function Mid(x: int, y: int): int
  {
    CDiv(x + y, 2)
  }

  lemma MidBetween(x: int, y: int)
    ensures x <= y ==> x <= Mid(x, y) <= y
    ensures y <= x ==> y <= Mid(x, y) <= x
  {
    CDivRemainder(x + y, 2);
  }

  /** Flux_6_Steps: even bins are the samples minus their mean, odd bins the
    * truncated mean of their two cyclic neighbours. */
  function FluxTable(s: seq<int>): (f: seq<int>)
    requires Samples(s)
    ensures |f| == 12
  {
    Bins(s[0] - Average(s), s[2] - Average(s), s[4] - Average(s),
         s[1] - Average(s), s[3] - Average(s), s[5] - Average(s))
  }

  /** The twelve bins from the six even ones (0, 60, ..., 300 degrees), with the
    * odd bins (30, 90, ..., 330 degrees) between them. */
  function Bins(e0: int, e2: int, e4: int, e6: int, e8: int, e10: int): (f: seq<int>)
    ensures |f| == 12
  {
    [e0, Mid(e0, e2), e2, Mid(e2, e4), e4, Mid(e4, e6),
     e6, Mid(e6, e8), e8, Mid(e8, e10), e10, Mid(e10, e0)]
  }

  /** Odd bins lie between their neighbours, so bins within 17 signed bits stay there. */
  lemma BinsBounded(e0: int, e2: int, e4: int, e6: int, e8: int, e10: int)
    requires -0x1_0000 < e0 < 0x1_0000 && -0x1_0000 < e2 < 0x1_0000 && -0x1_0000 < e4 < 0x1_0000
    requires -0x1_0000 < e6 < 0x1_0000 && -0x1_0000 < e8 < 0x1_0000 && -0x1_0000 < e10 < 0x1_0000
    ensures FluxBounded(Bins(e0, e2, e4, e6, e8, e10))
  {
    MidBetween(e0, e2);
    MidBetween(e2, e4);
    MidBetween(e4, e6);
    MidBetween(e6, e8);
    MidBetween(e8, e10);
    MidBetween(e10, e0);
    TwelveBounded(e0, Mid(e0, e2), e2, Mid(e2, e4), e4, Mid(e4, e6),
                  e6, Mid(e6, e8), e8, Mid(e8, e10), e10, Mid(e10, e0));
  }

  lemma TwelveBounded(x0: int, x1: int, x2: int, x3: int, x4: int, x5: int,
                      x6: int, x7: int, x8: int, x9: int, x10: int, x11: int)
    requires -0x1_0000 < x0 < 0x1_0000 && -0x1_0000 < x1 < 0x1_0000 && -0x1_0000 < x2 < 0x1_0000
    requires -0x1_0000 < x3 < 0x1_0000 && -0x1_0000 < x4 < 0x1_0000 && -0x1_0000 < x5 < 0x1_0000
    requires -0x1_0000 < x6 < 0x1_0000 && -0x1_0000 < x7 < 0x1_0000 && -0x1_0000 < x8 < 0x1_0000
    requires -0x1_0000 < x9 < 0x1_0000 && -0x1_0000 < x10 < 0x1_0000 && -0x1_0000 < x11 < 0x1_0000
    ensures FluxBounded([x0, x1, x2, x3, x4, x5, x6, x7, x8, x9, x10, x11])
  {
  }

  /** Every bin of the table fits in 17 signed bits. */
  predicate FluxBounded(f: seq<int>)
  {
    forall i :: 0 <= i < |f| ==> -0x1_0000 < f[i] < 0x1_0000
  }

  /** The six even bins are zero-mean up to the truncation of the mean:
    * their sum lies strictly between -6 and 6. */
  lemma EvenBinsNearZeroMean(s: seq<int>)
    requires Samples(s)
    ensures var f := FluxTable(s);
            -6 < f[0] + f[2] + f[4] + f[6] + f[8] + f[10] < 6
  {
    var f := FluxTable(s);
    var a := Average(s);
    assert f[0] == s[0] - a && f[2] == s[2] - a && f[4] == s[4] - a;
    assert f[6] == s[1] - a && f[8] == s[3] - a && f[10] == s[5] - a;
    assert f[0] + f[2] + f[4] + f[6] + f[8] + f[10] == Total(s) - 6 * a;
  }

  /** The sum of the three consecutive bins starting at k, cyclically. */
  function Window(f: seq<int>, k: int): int
    requires |f| == 12 && 0 <= k < 12
  {
    f[k] + f[Next(k)] + f[Next(Next(k))]
  }

  /** The electrical angle (degrees, 0..330) of the middle bin of window k. */
  function AngleOfWindow(k: int): (angle: int)
    requires 0 <= k < 12
  {
    30 * Next(k)
  }

  /** What the scan holds after looking at windows 0 .. n-1 in order: the kept
    * window and its sum. A later window replaces the kept one only when its sum
    * is strictly larger. */
  function Scan(f: seq<int>, n: int): (r: (int, int))
    requires |f| == 12 && 1 <= n <= 12
    ensures 0 <= r.0 < n
    decreases n
  {
    if n == 1 then (0, Window(f, 0))
    else
      var r := Scan(f, n - 1);
      if r.1 < Window(f, n - 1) then (n - 1, Window(f, n - 1)) else r
  }

  /** The sum the scan keeps is the sum of the window it keeps. */
  lemma {:induction false} ScanSum(f: seq<int>, n: int)
    requires |f| == 12 && 1 <= n <= 12
    ensures Scan(f, n).1 == Window(f, Scan(f, n).0)
    decreases n
  {
    if n > 1 {
      ScanSum(f, n - 1);
    }
  }

  /** The window the scan keeps after windows 0 .. n-1. */
  function BestWindow(f: seq<int>, n: int): (b: int)
    requires |f| == 12 && 1 <= n <= 12
    ensures 0 <= b < n
  {
    Scan(f, n).0
  }

  /** One more window: the scan keeps its window unless the new one is strictly larger. */
  lemma BestWindowStep(f: seq<int>, n: int)
    requires |f| == 12 && 1 <= n < 12
    ensures Scan(f, n + 1) == if Scan(f, n).1 < Window(f, n) then (n, Window(f, n)) else Scan(f, n)
  {
  }

  /** b is the first window of 0 .. n-1 with the largest sum. */
  predicate IsFirstMaximum(f: seq<int>, n: int, b: int)
    requires |f| == 12 && 0 <= n <= 12
  {
    0 <= b < n
    && (forall j :: 0 <= j < n ==> Window(f, j) <= Window(f, b))
    && (forall j :: 0 <= j < b ==> Window(f, j) < Window(f, b))
  }

  /** The scan finds the first maximum window. */
  lemma {:induction false} BestWindowIsFirstMaximum(f: seq<int>, n: int)
    requires |f| == 12 && 1 <= n <= 12
    ensures IsFirstMaximum(f, n, BestWindow(f, n))
    decreases n
  {
    if n > 1 {
      BestWindowIsFirstMaximum(f, n - 1);
      ScanSum(f, n - 1);
    }
  }

  /** The first maximum is unique, so the scan's window is the only one with that property. */
  lemma FirstMaximumIsBestWindow(f: seq<int>, n: int, b: int)
    requires |f| == 12 && 1 <= n <= 12
    ensures IsFirstMaximum(f, n, b) <==> b == BestWindow(f, n)
  {
    BestWindowIsFirstMaximum(f, n);
  }

  /** The 30-degree sector (0 .. 11) of the middle bin of the winning window. */
  function RotorSector(s: seq<int>): (m: int)
    requires Samples(s)
    ensures 0 <= m < 12
  {
    Next(BestWindow(FluxTable(s), 12))
  }

  /** IPD_6S_ZeroSpeedRotorAngleCheck's result: the angle of the first maximum
    * window, minus 180, which is a multiple of 30 in [-180, 150]. */
  function RotorAngle(s: seq<int>): (angle: int)
    requires Samples(s)
    ensures -180 <= angle <= 150
  {
    FluxAngle(FluxTable(s))
  }

  /** The angle the window scan reports for a flux table. */
  function FluxAngle(f: seq<int>): (angle: int)
    requires |f| == 12
    ensures -180 <= angle <= 150
  {
    AngleOfWindow(BestWindow(f, 12)) - 180
  }

  /** The detected angle is 30 degrees times the winning sector, minus 180. */
  lemma RotorAngleSector(s: seq<int>)
    requires Samples(s)
    ensures RotorAngle(s) == 30 * RotorSector(s) - 180
  {
  }

  /** The if-chain of IPD_6S_Task from electrical angle to commutation step. */
  function StepOfAngle(angle: int): (step: int)
    ensures STEP_1 <= step <= STEP_6
  {
    if angle <= -150 then STEP_6
    else if angle <= -90 then STEP_1
    else if angle <= -30 then STEP_2
    else if angle <= 30 then STEP_3
    else if angle <= 90 then STEP_4
    else if angle <= 150 then STEP_5
    else STEP_6
  }

  /** For every angle the detection can produce (30 m - 180 with 0 <= m < 12) the
    * step is the 60-degree sector shifted back by one; the final catch-all
    * branch of the chain is never taken. */
  lemma StepOfDetectedAngle(m: int)
    requires 0 <= m < 12
    ensures StepOfAngle(30 * m - 180) == (m / 2 + 5) % 6
    ensures 30 * m - 180 <= 150
  {
  }

  /** Six samples with one clearly larger current, at the 240 degree pulse. */
  const EXAMPLE_SAMPLES: seq<int> := [100, 100, 100, 500, 100, 100]

  /** Their flux table: mean 166, bin 8 (240 degrees) at 334. */
  const EXAMPLE_FLUX: seq<int> := [-66, -66, -66, -66, -66, -66, -66, 134, 334, 134, -66, -66]

  lemma ExampleFluxTable()
    ensures Samples(EXAMPLE_SAMPLES) && FluxTable(EXAMPLE_SAMPLES) == EXAMPLE_FLUX
  {
    var s := EXAMPLE_SAMPLES;
    assert Total(s) == 1000;
    assert Average(s) == 166;
    assert FluxTable(s) == Bins(-66, -66, -66, -66, 334, -66);
    assert CDiv(-132, 2) == -66 && CDiv(268, 2) == 134;
    assert Mid(-66, -66) == -66 && Mid(-66, 334) == 134 && Mid(334, -66) == 134;
    assert Bins(-66, -66, -66, -66, 334, -66) == EXAMPLE_FLUX;
  }

  lemma ExampleBestWindow()
    ensures BestWindow(EXAMPLE_FLUX, 12) == 7
  {
    var f := EXAMPLE_FLUX;
    assert Window(f, 0) == -198 && Window(f, 1) == -198 && Window(f, 2) == -198;
    assert Window(f, 3) == -198 && Window(f, 4) == -198 && Window(f, 5) == 2;
    assert Scan(f, 6) == (5, 2);
    assert Window(f, 6) == 402 && Window(f, 7) == 602 && Window(f, 8) == 402;
    assert Scan(f, 9) == (7, 602);
    assert Window(f, 9) == 2 && Window(f, 10) == -198 && Window(f, 11) == -198;
  }

  /** For the six samples [100, 100, 100, 500, 100, 100] the 240 degree window
    * (starting at bin 7, sum 602) wins: the angle is 60 and the step STEP_4. */
  lemma WorkedExample()
    ensures RotorAngle(EXAMPLE_SAMPLES) == 60
    ensures StepOfAngle(RotorAngle(EXAMPLE_SAMPLES)) == STEP_4
  {
    ExampleSector();
  }

  lemma ExampleSector()
    ensures Samples(EXAMPLE_SAMPLES) && RotorSector(EXAMPLE_SAMPLES) == 8
  {
    ExampleFluxTable();
    ExampleBestWindow();
  }

  /** An even step number (STEP_2, STEP_4, STEP_6) is where zero-speed samples are counted. */
  predicate IsCountingStep(step: int)
  {
    step == STEP_2 || step == STEP_4 || step == STEP_6
  }

  /** IPD_6S_Handle_t. */
  class IpdHandle {
    const ValideBemfDetectedThreshold: u16
    const NumZeroSpeedStepValidThreshold: u16
    var NumZeroSpeedSamples: u16
    var NumZeroSpeedStepValid: u16
    var ElecAngle: i16
    const ADC_JDR_Currents: array<i16>
    const Flux_6_Steps: array<i32>
    var PreviousStep: u8
    var previous_angle: u8
    var IPDStartUpFlag: bool
    var IPDRunning: bool
    var IPDBEMFMeasured: bool
    var IPDPulseRunState: bool
    var IPDDebug: bool

    ghost predicate Valid()
      reads this
    {
      ADC_JDR_Currents.Length == 6 && Flux_6_Steps.Length == 12
      && ADC_JDR_Currents as object != Flux_6_Steps as object
    }

    /** The handle as configured by the application's parameter tables. */
    constructor (bemfThreshold: u16, stepValidThreshold: u16, debug: bool)
      ensures Valid() && fresh(ADC_JDR_Currents) && fresh(Flux_6_Steps)
      ensures ValideBemfDetectedThreshold == bemfThreshold
      ensures NumZeroSpeedStepValidThreshold == stepValidThreshold && IPDDebug == debug
    {
      ValideBemfDetectedThreshold := bemfThreshold;
      NumZeroSpeedStepValidThreshold := stepValidThreshold;
      IPDDebug := debug;
      ADC_JDR_Currents := new i16[6](_ => 0);
      Flux_6_Steps := new i32[12](_ => 0);
    }

    /** IPD_6S_Clear: counters, samples and flux bins to zero, no angle yet,
      * and a measurement pending so that the next task run pulses. */
    method Clear()
      requires Valid()
      modifies this`NumZeroSpeedSamples, this`ElecAngle, this`IPDRunning, this`IPDBEMFMeasured
      modifies this`NumZeroSpeedStepValid, this`PreviousStep, ADC_JDR_Currents, Flux_6_Steps
      ensures NumZeroSpeedSamples == 0 && NumZeroSpeedStepValid == 0 && PreviousStep == 0
      ensures ElecAngle == -1 && !IPDRunning && IPDBEMFMeasured
      ensures ADC_JDR_Currents[..] == [0, 0, 0, 0, 0, 0]
      ensures Flux_6_Steps[..] == seq(12, _ => 0)
    {
      NumZeroSpeedSamples := 0;
      ElecAngle := -1;
      IPDRunning := false;
      IPDBEMFMeasured := true;
      NumZeroSpeedStepValid := 0;
      PreviousStep := 0;
      var i := 0;
      while i <= 5
        invariant 0 <= i <= 6
        invariant forall k :: 0 <= k < i ==> ADC_JDR_Currents[k] == 0
        modifies ADC_JDR_Currents
      {
        ADC_JDR_Currents[i] := 0;
        i := i + 1;
      }
      var j := 0;
      while j <= 11
        invariant 0 <= j <= 12
        invariant forall k :: 0 <= k < j ==> Flux_6_Steps[k] == 0
        invariant ADC_JDR_Currents[..] == [0, 0, 0, 0, 0, 0]
        modifies Flux_6_Steps
      {
        Flux_6_Steps[j] := 0;
        j := j + 1;
      }
    }

    /** The sample counter has reached its threshold on a counting step. */
    predicate StepCounted(step: int)
      reads this
    {
      IsCountingStep(step) && NumZeroSpeedSamples >= ValideBemfDetectedThreshold
    }

    /** IPD_6S_Task. `step` is the PWM component's step on entry and `newStep`
      * the step it holds on exit; `pulse` stands for the six samples the
      * one-pulse sequence would measure. The BEMF ADC stop/clear/start calls
      * are outside the model. The detection block runs at most once per
      * signalled BEMF measurement, since it clears IPDBEMFMeasured. */
    method Task(step: u8, pulse: seq<int>) returns (running: bool, newStep: u8)
      requires Valid() && Samples(pulse)
      modifies this`NumZeroSpeedStepValid, this`NumZeroSpeedSamples, this`PreviousStep, this`IPDRunning
      modifies this`IPDBEMFMeasured, this`IPDPulseRunState, this`ElecAngle, this`previous_angle
      modifies ADC_JDR_Currents, Flux_6_Steps
      ensures Valid()
      ensures StepsCounted(step, old(StepCounted(step)), old(NumZeroSpeedStepValid), old(NumZeroSpeedSamples), old(PreviousStep))
      ensures var finished := old(StepCounted(step)) && NumZeroSpeedStepValid >= NumZeroSpeedStepValidThreshold;
              var pulsed := !finished && old(IPDBEMFMeasured);
              IPDBEMFMeasured == (old(IPDBEMFMeasured) && !pulsed)
              && IPDPulseRunState == (old(IPDPulseRunState) && !pulsed)
              && IPDRunning == (!finished && !(pulsed && IPDDebug))
              && Outcome(pulsed && !IPDDebug, step, pulse, newStep, old(ElecAngle), old(previous_angle),
                         old(ADC_JDR_Currents[..]), old(Flux_6_Steps[..]))
      ensures running == IPDRunning
    {
      newStep := step;
      IPDRunning := true;
      CountValidStep(step);
      if IPDRunning && IPDBEMFMeasured {
        newStep := Detect(step, pulse);
      }
      running := IPDRunning;
    }

    /** The counters after one task run: a counting step with enough zero-speed
      * samples validates one more step and restarts the sample count. */
    ghost predicate StepsCounted(step: int, counted: bool, valid0: int, samples0: int, previous0: int)
      reads this
    {
      NumZeroSpeedStepValid == (if counted then U16(valid0 + 1) else valid0)
      && NumZeroSpeedSamples == (if counted then 0 else samples0)
      && PreviousStep == (if counted then step else previous0)
    }

    /** Either a detection took place, or the step, the angle, the samples and
      * the flux bins are as they were. */
    ghost predicate Outcome(detected: bool, step: int, pulse: seq<int>, newStep: int, angle0: int, previous0: int,
                            samples0: seq<int>, flux0: seq<int>)
      requires Samples(pulse)
      reads this`ElecAngle, this`previous_angle, ADC_JDR_Currents, Flux_6_Steps
    {
      if detected then Detected(pulse, newStep)
      else newStep == step && ElecAngle == angle0 && previous_angle == previous0
           && ADC_JDR_Currents[..] == samples0 && Flux_6_Steps[..] == flux0
    }

    /** The detection results: samples, flux table, angle and the step it selects. */
    ghost predicate Detected(pulse: seq<int>, newStep: int)
      requires Samples(pulse)
      reads this`ElecAngle, this`previous_angle, ADC_JDR_Currents, Flux_6_Steps
    {
      ADC_JDR_Currents[..] == pulse && Flux_6_Steps[..] == FluxTable(pulse)
      && ElecAngle == FluxAngle(Flux_6_Steps[..]) && newStep == StepOfAngle(ElecAngle) && previous_angle == newStep
    }

    /** After a detection the stored angle is the angle of the pulse samples,
      * and the step is the one that angle selects. */
    lemma DetectedAngle(pulse: seq<int>, newStep: int)
      requires Samples(pulse) && Detected(pulse, newStep)
      ensures ElecAngle == RotorAngle(pulse) && newStep == StepOfAngle(RotorAngle(pulse))
    {
    }

    /** The first half of IPD_6S_Task: counting validated steps; the task stops
      * running once enough steps are validated. */
    method CountValidStep(step: u8)
      requires IPDRunning
      modifies this`NumZeroSpeedStepValid, this`NumZeroSpeedSamples, this`PreviousStep, this`IPDRunning
      ensures StepsCounted(step, old(StepCounted(step)), old(NumZeroSpeedStepValid), old(NumZeroSpeedSamples), old(PreviousStep))
      ensures IPDRunning == !(old(StepCounted(step)) && NumZeroSpeedStepValid >= NumZeroSpeedStepValidThreshold)
    {
      if step == STEP_2 || step == STEP_4 || step == STEP_6 {
        if NumZeroSpeedSamples >= ValideBemfDetectedThreshold {
          NumZeroSpeedStepValid := U16(NumZeroSpeedStepValid as int + 1);
          NumZeroSpeedSamples := 0;
          PreviousStep := step;
          if NumZeroSpeedStepValid >= NumZeroSpeedStepValidThreshold {
            IPDRunning := false;
          }
        }
      }
    }

    /** The second half of IPD_6S_Task, entered with a BEMF measurement pending:
      * pulse, compute the angle and select the step (skipped in debug mode,
      * which ends the detection instead). */
    method Detect(step: u8, pulse: seq<int>) returns (newStep: u8)
      requires Valid() && Samples(pulse) && IPDRunning && IPDBEMFMeasured
      modifies this`IPDRunning, this`IPDBEMFMeasured, this`IPDPulseRunState, this`ElecAngle, this`previous_angle
      modifies ADC_JDR_Currents, Flux_6_Steps
      ensures !IPDBEMFMeasured && !IPDPulseRunState && IPDRunning == !IPDDebug
      ensures Outcome(!IPDDebug, step, pulse, newStep, old(ElecAngle), old(previous_angle),
                      old(ADC_JDR_Currents[..]), old(Flux_6_Steps[..]))
    {
      newStep := step;
      IPDPulseRunState := true;
      IPDBEMFMeasured := false;
      if !IPDDebug {
        newStep := DetectStep(pulse);
      }
      IPDPulseRunState := false;
      if IPDDebug {
        IPDRunning := false;
      }
    }

    /** The detection proper: the angle check, the angle, and the step it selects. */
    method DetectStep(pulse: seq<int>) returns (newStep: u8)
      requires Valid() && Samples(pulse)
      modifies this`ElecAngle, this`previous_angle, ADC_JDR_Currents, Flux_6_Steps
      ensures Detected(pulse, newStep)
    {
      var angle := ZeroSpeedRotorAngleCheck(pulse);
      ElecAngle := angle;
      newStep := SelectStep(ElecAngle);
      if previous_angle != newStep {
        previous_angle := newStep;
      }
    }

    /** The if-chain of IPD_6S_Task that maps the electrical angle to a step. */
    static method SelectStep(angle: int) returns (step: u8)
      ensures step == StepOfAngle(angle)
    {
      if angle <= -150 {
        step := STEP_6;
      } else if angle <= -90 {
        step := STEP_1;
      } else if angle <= -30 {
        step := STEP_2;
      } else if angle <= 30 {
        step := STEP_3;
      } else if angle <= 90 {
        step := STEP_4;
      } else if angle <= 150 {
        step := STEP_5;
      } else {
        step := STEP_6;
      }
    }

    /** The arithmetic of IPD_6S_ZeroSpeedRotorAngleCheck. The one-pulse PWM
      * sequence is outside the model: it leaves the six samples `pulse` in
      * ADC_JDR_Currents. */
    method ZeroSpeedRotorAngleCheck(pulse: seq<int>) returns (angle: int)
      requires Valid() && Samples(pulse)
      modifies ADC_JDR_Currents, Flux_6_Steps
      ensures ADC_JDR_Currents[..] == pulse
      ensures Flux_6_Steps[..] == FluxTable(pulse)
      ensures angle == FluxAngle(Flux_6_Steps[..])
    {
      var i := 0;
      while i < 6
        invariant 0 <= i <= 6
        invariant ADC_JDR_Currents[..i] == pulse[..i]
        modifies ADC_JDR_Currents
      {
        ADC_JDR_Currents[i] := pulse[i];
        i := i + 1;
      }
      assert ADC_JDR_Currents[..] == pulse by {
        assert ADC_JDR_Currents[..] == ADC_JDR_Currents[..6];
      }
      var average := Average6(pulse);
      FillFlux(pulse, average);
      ghost var f := FluxTable(pulse);
      assert -0x1_0000 < f[0] < 0x1_0000 && -0x1_0000 < f[1] < 0x1_0000 && -0x1_0000 < f[2] < 0x1_0000;
      angle := ScanWindows(f);
    }

    /** The first loop of the angle check: the truncated mean of the samples. */
    method Average6(ghost s: seq<int>) returns (average: int)
      requires Valid() && Samples(s) && ADC_JDR_Currents[..] == s
      ensures average == Average(s)
    {
      var acc: int := 0;
      var i := 0;
      while i <= 5
        invariant 0 <= i <= 6
        invariant acc == Sum(s[..i])
      {
        SumPrefixStep(s, i);
        acc := acc + ADC_JDR_Currents[i];
        i := i + 1;
      }
      assert s[..6] == s;
      Sum6(s);
      average := CDiv(acc, 6);
    }

    /** The flux bins, even ones from the samples, odd ones from their neighbours. */
    method FillFlux(ghost s: seq<int>, average: int)
      requires Valid() && Samples(s) && ADC_JDR_Currents[..] == s
      requires average == Average(s)
      modifies Flux_6_Steps
      ensures Flux_6_Steps[..] == FluxTable(s) && FluxBounded(Flux_6_Steps[..])
    {
      var a := ADC_JDR_Currents;
      assert s[0] == a[0] && s[1] == a[1] && s[2] == a[2] && s[3] == a[3] && s[4] == a[4] && s[5] == a[5];
      var e0, e2, e4 := a[0] - average, a[2] - average, a[4] - average;
      var e6, e8, e10 := a[1] - average, a[3] - average, a[5] - average;
      ghost var f := Bins(e0, e2, e4, e6, e8, e10);
      BinsBounded(e0, e2, e4, e6, e8, e10);
      assert FluxTable(s) == f;
      var table := [e0, Mid(e0, e2), e2, Mid(e2, e4), e4, Mid(e4, e6),
                    e6, Mid(e6, e8), e8, Mid(e8, e10), e10, Mid(e10, e0)];
      assert table == f;
      forall k | 0 <= k < 12 {
        Flux_6_Steps[k] := table[k];
      }
      assert Flux_6_Steps[..] == table;
    }

    /** The window scan: ten windows in a loop, then the two that wrap around. */
    method ScanWindows(ghost f: seq<int>) returns (angle: int)
      requires Valid() && Flux_6_Steps[..] == f && S32_MIN < Window(f, 0)
      ensures angle == FluxAngle(f)
    {
      var max;
      max, angle := ScanTen(f);
      ghost var n := 10;
      BestWindowStep(f, n);
      var sum := Flux_6_Steps[10] as int + Flux_6_Steps[11] as int + Flux_6_Steps[0] as int;
      assert sum == Window(f, n);
      if max < sum {
        max := sum;
        angle := 330;
      }
      n := n + 1;
      BestWindowStep(f, n);
      sum := Flux_6_Steps[11] as int + Flux_6_Steps[0] as int + Flux_6_Steps[1] as int;
      assert sum == Window(f, n);
      if max < sum {
        angle := 0;
      }
      angle := angle - 180;
    }

    /** The loop over windows 0 .. 9: the first maximum so far and its angle. */
    method ScanTen(ghost f: seq<int>) returns (max: int, angle: int)
      requires Valid() && Flux_6_Steps[..] == f && S32_MIN < Window(f, 0)
      ensures max == Scan(f, 10).1 && angle == AngleOfWindow(Scan(f, 10).0)
    {
      max := S32_MIN;
      angle := 0;
      var i := 0;
      while i <= 9
        invariant 0 <= i <= 10
        invariant i == 0 ==> max == S32_MIN && angle == 0
        invariant i >= 1 ==> max == Scan(f, i).1 && angle == AngleOfWindow(Scan(f, i).0)
      {
        var sum := Flux_6_Steps[i] as int + Flux_6_Steps[i + 1] as int + Flux_6_Steps[i + 2] as int;
        assert sum == Window(f, i);
        if max < sum {
          max := sum;
          angle := 30 * (i + 1);
        }
        i := i + 1;
      }
    }
  }
}
