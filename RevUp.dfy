// Six-step rev-up sequencer: a chain of at most five phases, each ramping the
// 16.16 speed reference linearly to its target over a number of ticks and
// commanding a pulse to the speed-duty controller when it starts.
module RevUp {
  import opened CInt

  /** The length of the phase table. */
  const RUC_MAX_PHASE_NUMBER: int := 5

  /** RevUpCtrl_6S_PhaseParams_t. `next` stands for pNext: the index in the
    * handle's phase table of the phase it points to, or None for a null pointer. */
  datatype Phase = Phase(durationMs: u16, finalMecSpeedUnit: i16, finalPulse: u16, next: Option<nat>)

  /** The three programmable values of a phase, as SetPhase and GetPhase copy them. */
  datatype PhaseData = PhaseData(durationMs: u16, finalMecSpeedUnit: i16, finalPulse: u16)

  /** Every link points into the table. */
  predicate WellLinked(ps: seq<Phase>)
  {
    forall i :: 0 <= i < |ps| ==> ps[i].next.None? || ps[i].next.value < |ps|
  }

  predicate InTable(ps: seq<Phase>, p: Option<nat>)
  {
    p.None? || p.value < |ps|
  }

  // ---------------------------------------------------------------------
  // The phase chain and RUC_6S_Clear's walk
  // ---------------------------------------------------------------------

  /** The phase reached from phase 0 after following n links (a null link stays null). */
  function Follow(ps: seq<Phase>, n: nat): (q: Option<nat>)
    requires |ps| > 0 && WellLinked(ps)
    ensures InTable(ps, q)
  {
    if n == 0 then Some(0)
    else
      var q := Follow(ps, n - 1);
      if q.None? then None else ps[q.value].next
  }

  /** The iteration count of Clear's walk from b on: it stops at a null link or
    * once RUC_MAX_PHASE_NUMBER links have been counted. */
  function CountFrom(ps: seq<Phase>, b: nat): (n: nat)
    requires |ps| > 0 && WellLinked(ps) && b <= RUC_MAX_PHASE_NUMBER
    ensures b <= n <= RUC_MAX_PHASE_NUMBER
    decreases RUC_MAX_PHASE_NUMBER - b
  {
    if b == RUC_MAX_PHASE_NUMBER || Follow(ps, b).None? then b else CountFrom(ps, b + 1)
  }

  /** The number of phases Clear's walk counts. */
  function PhaseCount(ps: seq<Phase>): (n: nat)
    requires |ps| > 0 && WellLinked(ps)
    ensures 1 <= n <= RUC_MAX_PHASE_NUMBER
  {
    CountFrom(ps, 0)
  }

  /** The counted phases are exactly the first ones of the chain: every one of
    * them is reached, and the chain ends right after them unless the walk was
    * cut at RUC_MAX_PHASE_NUMBER. */
  lemma {:induction false} CountFromIsChainLength(ps: seq<Phase>, b: nat)
    requires |ps| > 0 && WellLinked(ps) && b <= RUC_MAX_PHASE_NUMBER
    ensures forall j :: b <= j < CountFrom(ps, b) ==> Follow(ps, j).Some?
    ensures CountFrom(ps, b) < RUC_MAX_PHASE_NUMBER ==> Follow(ps, CountFrom(ps, b)).None?
    decreases RUC_MAX_PHASE_NUMBER - b
  {
    if b < RUC_MAX_PHASE_NUMBER && Follow(ps, b).Some? {
      CountFromIsChainLength(ps, b + 1);
    }
  }

  /** The table after Clear: the link of slot PhaseCount - 1 is nulled. */
  function ClearedLinks(ps: seq<Phase>): (r: seq<Phase>)
    requires |ps| == RUC_MAX_PHASE_NUMBER && WellLinked(ps)
    ensures |r| == RUC_MAX_PHASE_NUMBER && WellLinked(r)
  {
    var n := PhaseCount(ps);
    ps[n - 1 := ps[n - 1].(next := None)]
  }

  /** Each link is null or points to the following slot, as the configuration tables lay them out. */
  predicate Sequential(ps: seq<Phase>)
  {
    forall i :: 0 <= i < |ps| ==> ps[i].next.None? || ps[i].next == Some(i + 1)
  }

  lemma {:induction false} SequentialFollow(ps: seq<Phase>, j: nat)
    requires |ps| > 0 && WellLinked(ps) && Sequential(ps) && Follow(ps, j).Some?
    ensures Follow(ps, j) == Some(j)
  {
    if j > 0 {
      SequentialFollow(ps, j - 1);
    }
  }

  lemma {:induction false} ClearedFollow(ps: seq<Phase>, j: nat)
    requires |ps| == RUC_MAX_PHASE_NUMBER && WellLinked(ps) && Sequential(ps)
    requires j < PhaseCount(ps)
    ensures Follow(ClearedLinks(ps), j) == Some(j)
  {
    if j > 0 {
      ClearedFollow(ps, j - 1);
      CountFromIsChainLength(ps, 0);
      SequentialFollow(ps, j - 1);
      SequentialFollow(ps, j);
    }
  }

  /** With sequential links, after Clear the chain from phase 0 visits exactly
    * the PhaseCount counted slots in order and then ends: at most five phases run. */
  lemma ClearEndsChain(ps: seq<Phase>)
    requires |ps| == RUC_MAX_PHASE_NUMBER && WellLinked(ps) && Sequential(ps)
    ensures forall j :: 0 <= j < PhaseCount(ps) ==> Follow(ClearedLinks(ps), j) == Some(j)
    ensures Follow(ClearedLinks(ps), PhaseCount(ps)).None?
  {
    var n := PhaseCount(ps);
    forall j | 0 <= j < n
      ensures Follow(ClearedLinks(ps), j) == Some(j)
    {
      ClearedFollow(ps, j);
    }
    ClearedFollow(ps, n - 1);
  }

  // ---------------------------------------------------------------------
  // RUC_6S_Exec as a function of the sequencer state
  // ---------------------------------------------------------------------

  /** The handle fields RUC_6S_Exec steps: hPhaseRemainingTicks,
    * pCurrentPhaseParams, bStageCnt, ElAccSpeedRefUnit, CurrentSpeedRefUnit. */
  datatype Ramp = Ramp(remaining: int, phase: Option<nat>, stage: int, acc: int, speedRef: int)

  /** The arguments of the SDC_ExecRamp call issued when a phase starts. */
  datatype RampCommand = RampCommand(pulse: int, durationMs: int)

  /** One call's new state, return value and speed-duty command. */
  datatype Step = Step(ramp: Ramp, ok: bool, command: Option<RampCommand>)

  /** A mechanical speed as a 16.16 speed reference: the int16_t widened to uint32_t, times 65536. */
  function SpeedRefOf(speed: int): (r: int)
    ensures IsU32(r)
  {
    U32(U32(speed) * 0x1_0000)
  }

  /** For a non-negative speed the reference is exact and its upper half is the speed. */
  lemma SpeedRefOfNonNegative(speed: int)
    requires 0 <= speed < 0x8000
    ensures SpeedRefOf(speed) == speed * 0x1_0000
    ensures SpeedRefOf(speed) / 0x1_0000 == speed
  {
    DivMul(0x1_0000, speed);
  }

  /** For a negative speed the widening wraps: the upper half is 65536 + speed. */
  lemma SpeedRefOfNegative(speed: int)
    requires -0x8000 <= speed < 0
    ensures SpeedRefOf(speed) == TWO32 + speed * 0x1_0000
    ensures SpeedRefOf(speed) / 0x1_0000 == 0x1_0000 + speed
  {
    assert U32(speed) == TWO32 + speed;
    assert (TWO32 + speed) * 0x1_0000 == TWO32 * 0xFFFF + (TWO32 + speed * 0x1_0000);
    assert U32(U32(speed) * 0x1_0000) == TWO32 + speed * 0x1_0000;
    DivMul(0x1_0000, 0x1_0000 + speed);
  }

  /** The pulse a phase commands: hFinalPulse * PulseUpdateFactor / 10 stored in a
    * uint16_t, then passed on as int16_t. */
  function CommandPulse(finalPulse: int, factor: int): (pulse: int)
    requires finalPulse >= 0 && factor >= 0
    ensures IsI16(pulse)
  {
    I16(U16((finalPulse * factor) / 10))
  }

  /** The tick count of a timed phase: duration * frequency / 1000 stored in a
    * uint16_t, then incremented in place (so 65535 wraps to 0). */
  function PhaseTicks(durationMs: int, freq: int): (ticks: int)
    requires durationMs >= 0 && freq >= 0
    ensures IsU16(ticks)
  {
    U16(U16((durationMs * freq) / 1000) + 1)
  }

  /** The increment of a timed phase: the difference taken in uint32_t, then
    * an unsigned division by the tick count. Toward a higher target it is the
    * plain quotient; toward a lower one the difference wraps to 2^32 - d. */
  function AsWrittenIncrement(target: int, current: int, ticks: int): (acc: int)
    requires ticks >= 0
    ensures IsU32(acc)
    ensures ticks >= 1 && current <= target < current + TWO32 ==> acc == (target - current) / ticks
    ensures ticks >= 1 && target < current < target + TWO32 ==> acc == (TWO32 - (current - target)) / ticks
  {
    UDiv(U32(target - current), ticks)
  }

  /** The evidently intended increment: a signed quotient of the difference,
    * truncated toward zero, so that a decelerating ramp counts down; a zero
    * tick count gives 0, as the division instruction does. For an
    * accelerating ramp it is the same quotient as the one written. */
  function SignedIncrement(target: int, current: int, ticks: int): (acc: int)
    requires ticks >= 0
    ensures ticks == 0 ==> acc == 0
    ensures Abs(acc) <= Abs(target - current)
    ensures ticks >= 1 && current <= target ==> acc == (target - current) / ticks
    ensures ticks >= 1 && target <= current ==> acc == -((current - target) / ticks)
  {
    if ticks == 0 then 0 else CDiv(target - current, ticks)
  }

  /** The start of phase k from state r. */
  function StartPhase(r: Ramp, k: nat, p: Phase, freq: int): (s: Ramp)
    requires freq >= 0
    ensures s.phase == Some(k) && s.stage == U8(r.stage + 1)
    ensures p.durationMs == 0 ==> s.remaining == 0 && s.speedRef == SpeedRefOf(p.finalMecSpeedUnit) && s.acc == r.acc
    ensures p.durationMs != 0 ==> s.remaining == PhaseTicks(p.durationMs, freq)
    ensures p.durationMs != 0 && p.finalMecSpeedUnit == 0 ==> s.speedRef == 0 && s.acc == 0
    ensures p.durationMs != 0 && p.finalMecSpeedUnit != 0 ==>
              s.speedRef == r.speedRef && s.acc == AsWrittenIncrement(SpeedRefOf(p.finalMecSpeedUnit), r.speedRef, s.remaining)
  {
    var final := SpeedRefOf(p.finalMecSpeedUnit);
    var started := r.(phase := Some(k), stage := U8(r.stage + 1));
    if p.durationMs == 0 then started.(remaining := 0, speedRef := final)
    else
      var ticks := PhaseTicks(p.durationMs, freq);
      if p.finalMecSpeedUnit == 0 then started.(remaining := ticks, speedRef := 0, acc := 0)
      else started.(remaining := ticks, acc := AsWrittenIncrement(final, r.speedRef, ticks))
  }

  /** The start of a phase with the intended signed increment: it differs from
    * StartPhase in the increment only, and not at all for an accelerating
    * phase. */
  function CorrectedStartPhase(r: Ramp, k: nat, p: Phase, freq: int): (s: Ramp)
    requires freq >= 0
    ensures s == StartPhase(r, k, p, freq).(acc := s.acc)
    ensures p.durationMs != 0 && p.finalMecSpeedUnit != 0 ==>
              s.acc == SignedIncrement(SpeedRefOf(p.finalMecSpeedUnit), r.speedRef, s.remaining)
    ensures 0 <= r.speedRef <= SpeedRefOf(p.finalMecSpeedUnit) ==> s == StartPhase(r, k, p, freq)
  {
    var s := StartPhase(r, k, p, freq);
    if p.durationMs != 0 && p.finalMecSpeedUnit != 0
    then s.(acc := SignedIncrement(SpeedRefOf(p.finalMecSpeedUnit), r.speedRef, s.remaining))
    else s
  }

  /** The state Exec may be called in: the current phase is in the table, a
    * running count has a phase, and the advance does not read a null pointer. */
  predicate CanExec(r: Ramp, ps: seq<Phase>)
  {
    WellLinked(ps) && InTable(ps, r.phase) && r.remaining >= 0 && IsU32(r.speedRef)
    && (r.remaining >= 1 ==> r.phase.Some?)
    && (r.remaining == 0 && r.stage != 0 ==> r.phase.Some?)
  }

  /** The phase an advancing call moves to: the link of the current phase, or the
    * current phase itself before the first stage. */
  function NextPhase(r: Ramp, ps: seq<Phase>): (q: Option<nat>)
    requires CanExec(r, ps)
    ensures InTable(ps, q)
  {
    if r.stage != 0 then ps[r.phase.value].next else r.phase
  }

  /** A call within a phase's countdown: decrement and add the increment
    * modulo 2^32, or, on the last tick, snap exactly to the target. */
  function Tick(r: Ramp, target: int): (s: Ramp)
    requires r.remaining >= 1
    ensures s.phase == r.phase && s.stage == r.stage && s.acc == r.acc && s.remaining == r.remaining - 1
    ensures IsU32(s.speedRef)
  {
    if r.remaining > 1 then r.(remaining := r.remaining - 1, speedRef := U32(r.speedRef + r.acc))
    else r.(remaining := 0, speedRef := SpeedRefOf(target))
  }

  /** RUC_6S_Exec's sequencing: count down, snap to the target on the last tick,
    * otherwise advance to the next phase and start it. */
  function ExecRamp(r: Ramp, ps: seq<Phase>, freq: int, factor: int): (s: Step)
    requires CanExec(r, ps) && freq >= 0 && factor >= 0
    ensures InTable(ps, s.ramp.phase) && s.ramp.remaining >= 0 && IsU32(s.ramp.speedRef)
    ensures s.ramp.remaining >= 1 ==> s.ramp.phase.Some?
    ensures r.remaining >= 1 ==> s == Step(Tick(r, ps[r.phase.value].finalMecSpeedUnit), true, None)
  {
    if r.remaining >= 1 then
      Step(Tick(r, ps[r.phase.value].finalMecSpeedUnit), true, None)
    else
      var next := NextPhase(r, ps);
      if next.None? then Step(r.(phase := None), false, None)
      else
        var p := ps[next.value];
        Step(StartPhase(r, next.value, p, freq), true,
             Some(RampCommand(CommandPulse(p.finalPulse, factor), p.durationMs)))
  }

  /** Exec returns false exactly when it advances and finds no phase; the rev-up
    * is then completed, nothing is commanded and the speed reference is kept. */
  lemma ExecFailsExactlyWithoutPhase(r: Ramp, ps: seq<Phase>, freq: int, factor: int)
    requires CanExec(r, ps) && freq >= 0 && factor >= 0
    ensures !ExecRamp(r, ps, freq, factor).ok <==> r.remaining == 0 && NextPhase(r, ps).None?
    ensures !ExecRamp(r, ps, freq, factor).ok ==>
              ExecRamp(r, ps, freq, factor).ramp == r.(phase := None) && ExecRamp(r, ps, freq, factor).command.None?
    ensures ExecRamp(r, ps, freq, factor).command.Some? <==> r.remaining == 0 && NextPhase(r, ps).Some?
  {
  }

  /** k consecutive calls that all fall within the current phase's countdown,
    * whose target is `target`. */
  function Run(r: Ramp, target: int, k: nat): (s: Ramp)
    requires k <= r.remaining
    ensures s.phase == r.phase && s.stage == r.stage && s.acc == r.acc && s.remaining == r.remaining - k
    ensures k == 0 ==> s == r
    ensures k > 0 ==> IsU32(s.speedRef)
    decreases k
  {
    if k == 0 then r else Run(Tick(r, target), target, k - 1)
  }

  /** Before the last tick every call adds the increment modulo 2^32. */
  lemma {:induction false} RunAccumulates(r: Ramp, target: int, k: nat)
    requires k < r.remaining && IsU32(r.speedRef)
    ensures Run(r, target, k).speedRef == U32(r.speedRef + k * r.acc)
    decreases k
  {
    if k > 0 {
      var s := Tick(r, target);
      RunAccumulates(s, target, k - 1);
      ghost var a := r.speedRef + r.acc;
      ghost var b := (k - 1) * r.acc;
      U32AddWrap(a, b);
      assert a + b == r.speedRef + k * r.acc;
    }
  }

  /** A phase's countdown ends with the speed reference exactly at its target
    * and the count at 0, the phase, stage and increment unchanged. */
  lemma {:induction false} RampReachesTarget(r: Ramp, target: int)
    requires r.remaining >= 1
    ensures Run(r, target, r.remaining).remaining == 0
    ensures Run(r, target, r.remaining).speedRef == SpeedRefOf(target)
    decreases r.remaining
  {
    if r.remaining > 1 {
      RampReachesTarget(Tick(r, target), target);
    }
  }

  /** Starting a timed phase that accelerates gives the increment
    * (target - current) / ticks, without wrap-around. */
  lemma StartAcceleratingPhase(r: Ramp, k: nat, p: Phase, freq: int)
    requires freq >= 0 && p.durationMs != 0 && p.finalMecSpeedUnit != 0
    requires 0 <= r.speedRef <= SpeedRefOf(p.finalMecSpeedUnit)
    requires PhaseTicks(p.durationMs, freq) != 0
    ensures StartPhase(r, k, p, freq).acc
            == (SpeedRefOf(p.finalMecSpeedUnit) - r.speedRef) / StartPhase(r, k, p, freq).remaining
  {
  }

  /** An accelerating ramp never overshoots: every reference before the final snap
    * lies between the start and the target, with no wrap-around. */
  lemma AcceleratingRampStaysBelowTarget(r: Ramp, target: int, k: nat)
    requires k < r.remaining
    requires 0 <= r.speedRef <= SpeedRefOf(target)
    requires r.acc == (SpeedRefOf(target) - r.speedRef) / r.remaining
    ensures Run(r, target, k).speedRef == r.speedRef + k * r.acc
    ensures r.speedRef <= Run(r, target, k).speedRef <= SpeedRefOf(target)
  {
    RunAccumulates(r, target, k);
    StepsWithin(SpeedRefOf(target) - r.speedRef, r.remaining, k);
  }

  /** k < ticks equal steps of d / ticks stay within d. */
  lemma StepsWithin(d: int, ticks: int, k: int)
    requires d >= 0 && ticks >= 1 && 0 <= k < ticks
    ensures 0 <= k * (d / ticks) <= d
  {
    var q := d / ticks;
    DivBracket(d, ticks);
    assert q >= 0;
    MulBounds(q, k);
    MulBounds(q, ticks - k);
    assert ticks * q - k * q == (ticks - k) * q;
  }

  /** A decelerating phase from 2000 to 1000 over two ticks (1 ms at 1000 Hz):
    * the uint32_t increment wraps to 2114715648, and the reference after the
    * first tick is 34268 in its upper half, far above both speeds, before the
    * snap to 1000. */
  lemma DeceleratingRampWraps()
    ensures var ps := [Phase(1, 1000, 0, None)];
            var r := StartPhase(Ramp(0, Some(0), 1, 0, 2000 * 0x1_0000), 0, ps[0], 1000);
            r.remaining == 2 && r.acc == 2114715648
            && ExecRamp(r, ps, 1000, 10).ramp.speedRef == 2245787648
            && ExecRamp(r, ps, 1000, 10).ramp.speedRef / 0x1_0000 == 34268
  {
    SpeedRefOfNonNegative(1000);
  }

  /** Every decelerating timed phase of two or more ticks between non-negative
    * speeds first moves away from its target: the wrapped increment is
    * positive, and the first tick lands above the starting reference. */
  lemma DeceleratingRampRisesFirst(r: Ramp, k: nat, p: Phase, freq: int)
    requires freq >= 0 && p.durationMs != 0 && 0 < p.finalMecSpeedUnit
    requires SpeedRefOf(p.finalMecSpeedUnit) < r.speedRef < TWO31
    requires PhaseTicks(p.durationMs, freq) >= 2
    ensures StartPhase(r, k, p, freq).acc >= 1
    ensures Tick(StartPhase(r, k, p, freq), p.finalMecSpeedUnit).speedRef > r.speedRef
  {
    var s := StartPhase(r, k, p, freq);
    WrappedIncrementRises(SpeedRefOf(p.finalMecSpeedUnit), r.speedRef, s.remaining);
  }

  /** The wrapped quotient (2^32 - d) / n of a decrease d below 2^31 over
    * 2 <= n < 2^16 ticks is positive and at most 2^31. */
  lemma WrappedIncrementRises(target: int, current: int, ticks: int)
    requires 0 <= target < current < TWO31 && 2 <= ticks < TWO16
    ensures 1 <= AsWrittenIncrement(target, current, ticks)
    ensures current + AsWrittenIncrement(target, current, ticks) < TWO32
  {
    var w := TWO32 - (current - target);
    var q := AsWrittenIncrement(target, current, ticks);
    assert q == w / ticks;
    DivBracket(w, ticks);
    assert q * ticks <= w < (q + 1) * ticks;
    assert w >= ticks;
    assert q >= 1;
    MulBounds(q, ticks - 2);
    assert q * ticks == q * (ticks - 2) + 2 * q;
    assert 2 * q <= w;
  }

  /** The same phase with the intended increment: the first tick lands
    * halfway, at 1500, and the second on the target. */
  lemma DeceleratingRampCountsDown()
    ensures var ps := [Phase(1, 1000, 0, None)];
            var r := CorrectedStartPhase(Ramp(0, Some(0), 1, 0, 2000 * 0x1_0000), 0, ps[0], 1000);
            r.remaining == 2 && r.acc == -32768000
            && Tick(r, 1000).speedRef == 1500 * 0x1_0000
            && Tick(Tick(r, 1000), 1000).speedRef == 1000 * 0x1_0000
  {
    SpeedRefOfNonNegative(1000);
  }

  /** With the signed increment every reference before the final snap lies
    * between the start and the target, whichever way the ramp goes. */
  lemma SignedRampStaysBetween(target: int, current: int, ticks: int, k: nat)
    requires ticks >= 1 && k < ticks
    ensures var v := current + k * SignedIncrement(target, current, ticks);
            (current <= target ==> current <= v <= target)
            && (target <= current ==> target <= v <= current)
  {
    var acc := SignedIncrement(target, current, ticks);
    if current <= target {
      StepsWithin(target - current, ticks, k);
    } else {
      var d := current - target;
      StepsWithin(d, ticks, k);
      assert acc == -(d / ticks);
      assert k * acc == -(k * (d / ticks));
    }
  }

  /** With the intended increment, every reference of a timed phase before
    * its final snap lies between the reference the phase started from and its
    * target, in either direction, with no wrap-around. */
  lemma {:induction false} PhaseRampStaysBetween(r: Ramp, k: nat, p: Phase, freq: int, j: nat)
    requires freq >= 0 && p.durationMs != 0 && p.finalMecSpeedUnit != 0 && IsU32(r.speedRef)
    requires j < CorrectedStartPhase(r, k, p, freq).remaining
    ensures var v := Run(CorrectedStartPhase(r, k, p, freq), p.finalMecSpeedUnit, j).speedRef;
            var target := SpeedRefOf(p.finalMecSpeedUnit);
            (r.speedRef <= target ==> r.speedRef <= v <= target)
            && (target <= r.speedRef ==> target <= v <= r.speedRef)
  {
    var s := CorrectedStartPhase(r, k, p, freq);
    var target := SpeedRefOf(p.finalMecSpeedUnit);
    RunAccumulates(s, p.finalMecSpeedUnit, j);
    SignedRampStaysBetween(target, r.speedRef, s.remaining, j);
    assert IsU32(r.speedRef + j * s.acc);
  }

  // ---------------------------------------------------------------------
  // The speed estimate after every call
  // ---------------------------------------------------------------------

  /** ElSpeedTimerDpp: the speed conversion factor, divided by the reference's
    * upper half once that is non-zero. */
  function TimerDpp(speedRef: int, convFactor: int): (dpp: int)
    requires IsU32(speedRef) && IsU32(convFactor)
    ensures 0 <= dpp <= convFactor
  {
    if speedRef <= 0xFFFF then convFactor
    else DivBound(convFactor, speedRef / 0x1_0000); convFactor / (speedRef / 0x1_0000)
  }

  /** hAvrMecSpeedUnit: conv / (dpp * direction) in int32_t, stored as int16_t;
    * kept as it was while the reference is 0. */
  function AverageSpeed(speedRef: int, convFactor: int, direction: int, previous: int): (avr: int)
    requires IsU32(speedRef) && IsU32(convFactor) && IsI16(previous)
    ensures IsI16(avr)
    ensures speedRef == 0 ==> avr == previous
  {
    if speedRef == 0 then previous
    else I16(SDiv32(I32(convFactor), I32(I32(TimerDpp(speedRef, convFactor)) * direction)))
  }

  /** At a speed reference s*65536 the timer period is conv / s; when s divides
    * conv the reported average speed is s signed by the direction. */
  lemma SpeedEstimateAtTarget(speed: int, convFactor: int, direction: int)
    requires 1 <= speed < 0x8000 && 1 <= convFactor < TWO31 && convFactor % speed == 0
    requires direction == 1 || direction == -1
    ensures TimerDpp(SpeedRefOf(speed), convFactor) == convFactor / speed
    ensures AverageSpeed(SpeedRefOf(speed), convFactor, direction, 0) == direction * speed
  {
    DppAtSpeed(speed, convFactor);
    var q := convFactor / speed;
    ExactDivision(convFactor, speed);
    AverageWithPeriod(convFactor, q, speed, direction);
  }

  lemma ExactDivision(a: int, b: int)
    requires a >= 1 && b >= 1 && a % b == 0
    ensures a == (a / b) * b && 1 <= a / b <= a
  {
    DivBound(a, b);
  }

  lemma AverageWithPeriod(convFactor: int, q: int, speed: int, direction: int)
    requires convFactor == q * speed && 1 <= q <= convFactor < TWO31 && 1 <= speed < 0x8000
    requires direction == 1 || direction == -1
    ensures I16(SDiv32(I32(convFactor), I32(I32(q) * direction))) == direction * speed
  {
    assert I32(q) == q;
    assert q * direction == q || q * direction == -q;
    assert I32(q * direction) == q * direction;
    SignedExactQuotient(q, speed, direction);
    assert q * speed == convFactor;
  }

  lemma DppAtSpeed(speed: int, convFactor: int)
    requires 1 <= speed < 0x8000 && IsU32(convFactor)
    ensures TimerDpp(SpeedRefOf(speed), convFactor) == convFactor / speed
  {
    SpeedRefOfNonNegative(speed);
  }

  lemma SignedExactQuotient(q: int, s: int, direction: int)
    requires q >= 1 && s >= 1 && (direction == 1 || direction == -1)
    ensures CDiv(q * s, q * direction) == direction * s
  {
    DivMul(q, s);
    MulBounds(q, s);
    if direction == -1 {
      assert q * direction == -q;
    }
  }

  // ---------------------------------------------------------------------
  // The pulse update factor and the observer speed check
  // ---------------------------------------------------------------------

  /** RUC_6S_UpdatePulse: 10 * nominal / measured bus voltage, stored as uint16_t;
    * a zero measurement divides to 0 on the target. */
  function PulseUpdateFactorOf(nominalV: int, busV: int): (factor: int)
    requires IsU16(nominalV) && IsU16(busV)
    ensures IsU16(factor)
  {
    U16(UDiv(10 * nominalV, busV))
  }

  /** At the nominal voltage the factor is 10 and every phase commands its
    * programmed pulse; above it the factor is at most 10. */
  lemma NominalBusKeepsPulse(nominalV: int, busV: int, finalPulse: int)
    requires 1 <= nominalV <= busV < 0x1_0000 && IsU16(finalPulse)
    ensures PulseUpdateFactorOf(nominalV, busV) <= 10
    ensures busV == nominalV ==> PulseUpdateFactorOf(nominalV, busV) == 10
    ensures CommandPulse(finalPulse, 10) == I16(finalPulse)
  {
    var q := UDiv(10 * nominalV, busV);
    assert q * busV <= 10 * busV;
    CancelFactor(q, 10, busV);
    if busV == nominalV {
      DivMul(nominalV, 10);
      assert 10 * nominalV == nominalV * 10;
    }
    DivMul(10, finalPulse);
    assert finalPulse * 10 == 10 * finalPulse;
  }

  lemma CancelFactor(q: int, c: int, b: int)
    requires b >= 1 && q * b <= c * b
    ensures q <= c
  {
  }

  /** The observer speed check on a reference: its upper half reaches the minimum. */
  predicate SpeedReached(speedRef: int, minSpeed: int)
  {
    speedRef / 0x1_0000 >= minSpeed
  }

  /** At a phase target the check holds exactly when the target reaches the
    * minimum; a negative target wraps and reads as 65536 + speed. */
  lemma SpeedReachedAtTarget(speed: int, minSpeed: int)
    requires IsI16(speed)
    ensures 0 <= speed ==> (SpeedReached(SpeedRefOf(speed), minSpeed) <==> speed >= minSpeed)
    ensures speed < 0 ==> (SpeedReached(SpeedRefOf(speed), minSpeed) <==> 0x1_0000 + speed >= minSpeed)
  {
    if speed >= 0 {
      SpeedRefOfNonNegative(speed);
    } else {
      SpeedRefOfNegative(speed);
    }
  }

  // ---------------------------------------------------------------------
  // A worked sequence: phase 0 ramps to 1000 in 100 ms, phase 1 jumps to 2000
  // ---------------------------------------------------------------------

  const EXAMPLE_PHASES: seq<Phase> := [Phase(100, 1000, 200, Some(1)), Phase(0, 2000, 300, None),
                                       Phase(0, 0, 0, None), Phase(0, 0, 0, None), Phase(0, 0, 0, None)]

  /** At 1000 Hz, from the state Clear leaves, the first call starts phase 0
    * with 100 * 1000 / 1000 + 1 = 101 ticks, the increment 65536000 / 101 and
    * the pulse 200 * 10 / 10. */
  lemma ExampleStart()
    ensures WellLinked(EXAMPLE_PHASES)
    ensures ExecRamp(Ramp(0, Some(0), 0, 0, 0), EXAMPLE_PHASES, 1000, 10)
            == Step(Ramp(101, Some(0), 1, 648871, 0), true, Some(RampCommand(200, 100)))
  {
    SpeedRefOfNonNegative(1000);
  }

  /** When phase 0's countdown is over, the next call starts phase 1, whose zero
    * duration applies 2000 * 65536 at once and leaves the count at 0. */
  lemma ExampleJump(r: Ramp)
    requires r.remaining == 0 && r.phase == Some(0) && r.stage == 1 && IsU32(r.speedRef)
    ensures WellLinked(EXAMPLE_PHASES) && CanExec(r, EXAMPLE_PHASES)
    ensures ExecRamp(r, EXAMPLE_PHASES, 1000, 10)
            == Step(r.(phase := Some(1), stage := 2, speedRef := 2000 * 0x1_0000), true, Some(RampCommand(300, 0)))
  {
    SpeedRefOfNonNegative(2000);
  }

  /** Phase 1 has no successor: the following call returns false. */
  lemma ExampleEnd(r: Ramp)
    requires r.remaining == 0 && r.phase == Some(1) && r.stage == 2 && IsU32(r.speedRef)
    ensures WellLinked(EXAMPLE_PHASES) && CanExec(r, EXAMPLE_PHASES)
    ensures ExecRamp(r, EXAMPLE_PHASES, 1000, 10) == Step(r.(phase := None), false, None)
  {
  }

  /** The whole sequence: after the start and its 101 ticks the reference is
    * exactly 1000 * 65536, the next call applies 2000 * 65536, and the one after
    * returns false and completes the rev-up at that speed. */
  lemma WorkedSequence()
    ensures WellLinked(EXAMPLE_PHASES)
    ensures ExecRamp(Ramp(0, Some(0), 0, 0, 0), EXAMPLE_PHASES, 1000, 10)
            == Step(Ramp(101, Some(0), 1, 648871, 0), true, Some(RampCommand(200, 100)))
    ensures Run(Ramp(101, Some(0), 1, 648871, 0), 1000, 101) == Ramp(0, Some(0), 1, 648871, 65536000)
    ensures ExecRamp(Ramp(0, Some(0), 1, 648871, 65536000), EXAMPLE_PHASES, 1000, 10)
            == Step(Ramp(0, Some(1), 2, 648871, 131072000), true, Some(RampCommand(300, 0)))
    ensures ExecRamp(Ramp(0, Some(1), 2, 648871, 131072000), EXAMPLE_PHASES, 1000, 10)
            == Step(Ramp(0, None, 2, 648871, 131072000), false, None)
  {
    ExampleStart();
    RampReachesTarget(Ramp(101, Some(0), 1, 648871, 0), 1000);
    SpeedRefOfNonNegative(1000);
    ExampleJump(Ramp(0, Some(0), 1, 648871, 65536000));
    ExampleEnd(Ramp(0, Some(1), 2, 648871, 131072000));
  }

  // ---------------------------------------------------------------------
  // The handle
  // ---------------------------------------------------------------------

  /** RevUpCtrl_6S_Handle_t, with the two fields of the speed feedback base it writes. */
  class RevUpCtrl {
    const speedConvFactor: u32
    var hAvrMecSpeedUnit: i16
    const hRUCFrequencyHz: u16
    var hPhaseRemainingTicks: u16
    var hDirection: i8
    var pCurrentPhaseParams: Option<nat>
    const ParamsData: array<Phase>
    var PulseUpdateFactor: u16
    var bPhaseNbr: u8
    const hMinStartUpValidSpeed: u16
    var bStageCnt: u8
    var ElAccSpeedRefUnit: u32
    var ElSpeedTimerDpp: u32
    var CurrentSpeedRefUnit: u32

    ghost predicate Valid()
      reads this, ParamsData
    {
      ParamsData.Length == RUC_MAX_PHASE_NUMBER && WellLinked(ParamsData[..])
      && InTable(ParamsData[..], pCurrentPhaseParams)
      && (hPhaseRemainingTicks >= 1 ==> pCurrentPhaseParams.Some?)
    }

    /** The sequencer state. */
    function Snapshot(): Ramp
      reads this
    {
      Ramp(hPhaseRemainingTicks, pCurrentPhaseParams, bStageCnt, ElAccSpeedRefUnit, CurrentSpeedRefUnit)
    }

    /** The handle as the configuration tables initialise it, before any Clear. */
    constructor (convFactor: u32, frequencyHz: u16, minStartUpSpeed: u16, pulseFactor: u16, phases: seq<Phase>)
      requires |phases| == RUC_MAX_PHASE_NUMBER && WellLinked(phases)
      ensures Valid() && fresh(ParamsData) && ParamsData[..] == phases
      ensures speedConvFactor == convFactor && hRUCFrequencyHz == frequencyHz
      ensures hMinStartUpValidSpeed == minStartUpSpeed && PulseUpdateFactor == pulseFactor
      ensures Snapshot() == Ramp(0, None, 0, 0, 0)
    {
      speedConvFactor := convFactor;
      hRUCFrequencyHz := frequencyHz;
      hMinStartUpValidSpeed := minStartUpSpeed;
      PulseUpdateFactor := pulseFactor;
      ParamsData := new Phase[RUC_MAX_PHASE_NUMBER](i requires 0 <= i < RUC_MAX_PHASE_NUMBER => phases[i]);
      hAvrMecSpeedUnit := 0;
      hPhaseRemainingTicks := 0;
      hDirection := 0;
      pCurrentPhaseParams := None;
      bPhaseNbr := 0;
      bStageCnt := 0;
      ElAccSpeedRefUnit := 0;
      ElSpeedTimerDpp := 0;
      CurrentSpeedRefUnit := 0;
      new;
      assert ParamsData[..] == phases;
    }

    /** RUC_6S_Clear: walks the chain, nulls the link of the last counted slot
      * and restarts at phase 0; the speed reference is left as it was and the
      * phase number ends at 1. */
    method Clear(motorDirection: i16)
      requires Valid()
      modifies this`hAvrMecSpeedUnit, this`hPhaseRemainingTicks, this`hDirection, this`pCurrentPhaseParams,
               this`bPhaseNbr, this`bStageCnt, this`ElAccSpeedRefUnit, this`ElSpeedTimerDpp, ParamsData
      ensures Valid()
      ensures ParamsData[..] == ClearedLinks(old(ParamsData[..]))
      ensures Snapshot() == Ramp(0, Some(0), 0, 0, old(CurrentSpeedRefUnit))
      ensures hDirection == I8(motorDirection) && bPhaseNbr == 1
      ensures ElSpeedTimerDpp == speedConvFactor && hAvrMecSpeedUnit == 0
    {
      ghost var ps := ParamsData[..];
      var bPhase := CountPhases();
      if bPhase != 0 {
        ParamsData[bPhase - 1] := ParamsData[bPhase - 1].(next := None);
        bPhaseNbr := bPhase;
      }
      assert ParamsData[..] == ClearedLinks(ps);
      pCurrentPhaseParams := Some(0);
      hDirection := I8(motorDirection);
      bStageCnt := 0;
      bPhaseNbr := 1;
      ElAccSpeedRefUnit := 0;
      ElSpeedTimerDpp := speedConvFactor;
      hAvrMecSpeedUnit := 0;
      hPhaseRemainingTicks := 0;
    }

    /** The walk of RUC_6S_Clear: follows links from phase 0 while they are not
      * null, counting at most RUC_MAX_PHASE_NUMBER of them. */
    method CountPhases() returns (bPhase: int)
      requires Valid()
      ensures bPhase == PhaseCount(ParamsData[..])
    {
      ghost var ps := ParamsData[..];
      var p: Option<nat> := Some(0);
      bPhase := 0;
      while p.Some? && bPhase < RUC_MAX_PHASE_NUMBER
        invariant 0 <= bPhase <= RUC_MAX_PHASE_NUMBER && p == Follow(ps, bPhase)
        invariant CountFrom(ps, bPhase) == PhaseCount(ps)
        decreases RUC_MAX_PHASE_NUMBER - bPhase
      {
        p := ParamsData[p.value].next;
        bPhase := bPhase + 1;
      }
    }

    /** RUC_6S_UpdatePulse, with the nominal and the measured bus voltage as inputs. */
    method UpdatePulse(nominalV: u16, busV: u16)
      modifies this`PulseUpdateFactor
      ensures PulseUpdateFactor == PulseUpdateFactorOf(nominalV, busV)
    {
      PulseUpdateFactor := U16(UDiv(10 * nominalV, busV));
    }

    /** RUC_6S_Exec: one step of the sequence, returning false once the chain is
      * exhausted, and the SDC_ExecRamp command of a starting phase. */
    method Exec() returns (ok: bool, command: Option<RampCommand>)
      requires Valid()
      requires hPhaseRemainingTicks == 0 && bStageCnt != 0 ==> pCurrentPhaseParams.Some?
      modifies this`hAvrMecSpeedUnit, this`hPhaseRemainingTicks, this`pCurrentPhaseParams, this`bStageCnt,
               this`ElAccSpeedRefUnit, this`ElSpeedTimerDpp, this`CurrentSpeedRefUnit
      ensures Valid()
      ensures Step(Snapshot(), ok, command) == ExecRamp(old(Snapshot()), ParamsData[..], hRUCFrequencyHz, PulseUpdateFactor)
      ensures ElSpeedTimerDpp == TimerDpp(CurrentSpeedRefUnit, speedConvFactor)
      ensures hAvrMecSpeedUnit == AverageSpeed(CurrentSpeedRefUnit, speedConvFactor, hDirection, old(hAvrMecSpeedUnit))
    {
      ok, command := Sequence();
      UpdateSpeedEstimate();
    }

    /** The sequencing half of RUC_6S_Exec. */
    method Sequence() returns (ok: bool, command: Option<RampCommand>)
      requires Valid()
      requires hPhaseRemainingTicks == 0 && bStageCnt != 0 ==> pCurrentPhaseParams.Some?
      modifies this`hPhaseRemainingTicks, this`pCurrentPhaseParams, this`bStageCnt,
               this`ElAccSpeedRefUnit, this`CurrentSpeedRefUnit
      ensures Valid()
      ensures Step(Snapshot(), ok, command) == ExecRamp(old(Snapshot()), ParamsData[..], hRUCFrequencyHz, PulseUpdateFactor)
    {
      ok := true;
      command := None;
      if hPhaseRemainingTicks > 1 {
        hPhaseRemainingTicks := hPhaseRemainingTicks - 1;
        CurrentSpeedRefUnit := U32(CurrentSpeedRefUnit + ElAccSpeedRefUnit);
      } else if hPhaseRemainingTicks == 1 {
        hPhaseRemainingTicks := 0;
        CurrentSpeedRefUnit := SpeedRefOf(ParamsData[pCurrentPhaseParams.value].finalMecSpeedUnit);
      } else {
        if bStageCnt != 0 {
          pCurrentPhaseParams := ParamsData[pCurrentPhaseParams.value].next;
        }
        if pCurrentPhaseParams.Some? {
          command := Start();
        } else {
          ok := false;
        }
      }
    }

    /** Starting the current phase: the SDC_ExecRamp command, the new count, the
      * increment or the applied target, and the next stage. */
    method Start() returns (command: Option<RampCommand>)
      requires Valid() && pCurrentPhaseParams.Some?
      modifies this`hPhaseRemainingTicks, this`bStageCnt, this`ElAccSpeedRefUnit, this`CurrentSpeedRefUnit
      ensures Valid()
      ensures Snapshot() == StartPhase(old(Snapshot()), pCurrentPhaseParams.value, ParamsData[pCurrentPhaseParams.value], hRUCFrequencyHz)
      ensures command == Some(RampCommand(CommandPulse(ParamsData[pCurrentPhaseParams.value].finalPulse, PulseUpdateFactor),
                                          ParamsData[pCurrentPhaseParams.value].durationMs))
    {
      var p := ParamsData[pCurrentPhaseParams.value];
      var hPulse := U16((p.finalPulse * PulseUpdateFactor) / 10);
      command := Some(RampCommand(I16(hPulse), p.durationMs));
      var final := SpeedRefOf(p.finalMecSpeedUnit);
      if p.durationMs == 0 {
        CurrentSpeedRefUnit := final;
        hPhaseRemainingTicks := 0;
      } else {
        hPhaseRemainingTicks := U16((p.durationMs * hRUCFrequencyHz) / 1000);
        hPhaseRemainingTicks := U16(hPhaseRemainingTicks + 1);
        if p.finalMecSpeedUnit == 0 {
          CurrentSpeedRefUnit := 0;
          ElAccSpeedRefUnit := 0;
        } else {
          ElAccSpeedRefUnit := U32(final - CurrentSpeedRefUnit);
          ElAccSpeedRefUnit := UDiv(ElAccSpeedRefUnit, hPhaseRemainingTicks);
        }
      }
      bStageCnt := U8(bStageCnt + 1);
    }

    /** The speed-estimate half of RUC_6S_Exec. */
    method UpdateSpeedEstimate()
      modifies this`ElSpeedTimerDpp, this`hAvrMecSpeedUnit
      ensures ElSpeedTimerDpp == TimerDpp(CurrentSpeedRefUnit, speedConvFactor)
      ensures hAvrMecSpeedUnit == AverageSpeed(CurrentSpeedRefUnit, speedConvFactor, hDirection, old(hAvrMecSpeedUnit))
    {
      if CurrentSpeedRefUnit == 0 {
        ElSpeedTimerDpp := speedConvFactor;
      } else if CurrentSpeedRefUnit <= 0xFFFF {
        ElSpeedTimerDpp := speedConvFactor;
        hAvrMecSpeedUnit := I16(SDiv32(I32(speedConvFactor), I32(I32(ElSpeedTimerDpp) * hDirection)));
      } else {
        DivBound(speedConvFactor, CurrentSpeedRefUnit / 0x1_0000);
        ElSpeedTimerDpp := speedConvFactor / (CurrentSpeedRefUnit / 0x1_0000);
        hAvrMecSpeedUnit := I16(SDiv32(I32(speedConvFactor), I32(I32(ElSpeedTimerDpp) * hDirection)));
      }
    }

    /** RUC_6S_IsAlignStageNow: the current phase targets speed 0. */
    predicate IsAlignStageNow()
      requires Valid() && pCurrentPhaseParams.Some?
      reads this, ParamsData
      ensures IsAlignStageNow() <==> GetPhaseFinalMecSpeedUnit(pCurrentPhaseParams.value as u8) == 0
    {
      ParamsData[pCurrentPhaseParams.value].finalMecSpeedUnit == 0
    }

    /** RUC_6S_ObserverSpeedReached: the reference has reached the minimum
      * start-up speed in 16.16 units. */
    predicate ObserverSpeedReached()
      reads this
      ensures ObserverSpeedReached() <==> CurrentSpeedRefUnit >= hMinStartUpValidSpeed as int * 0x1_0000
    {
      DivBracket(CurrentSpeedRefUnit, 0x1_0000);
      SpeedReached(CurrentSpeedRefUnit, hMinStartUpValidSpeed)
    }

    /** RUC_6S_Stop: leaves the rev-up at the current speed reference. */
    method Stop()
      modifies this`pCurrentPhaseParams, this`hPhaseRemainingTicks, this`ElAccSpeedRefUnit
      ensures Snapshot() == old(Snapshot()).(phase := None, remaining := 0, acc := 0)
      ensures Completed()
    {
      pCurrentPhaseParams := None;
      hPhaseRemainingTicks := 0;
      ElAccSpeedRefUnit := 0;
    }

    /** RUC_6S_Completed: no current phase is left. */
    predicate Completed()
      reads this
      ensures Completed() <==> Snapshot().phase.None?
    {
      pCurrentPhaseParams.None?
    }

    /** RUC_6S_SetPhase: copies pulse, speed and duration into slot n, keeping its
      * link; a null data pointer is refused. */
    method SetPhase(n: u8, data: Option<PhaseData>) returns (ok: bool)
      requires Valid() && n < RUC_MAX_PHASE_NUMBER
      modifies ParamsData
      ensures Valid() && ok == data.Some?
      ensures data.None? ==> ParamsData[..] == old(ParamsData[..])
      ensures data.Some? ==> ParamsData[..] == old(ParamsData[..])[n := Phase(data.value.durationMs,
                data.value.finalMecSpeedUnit, data.value.finalPulse, old(ParamsData[n].next))]
      ensures data.Some? ==> GetPhase(n) == data.value
    {
      if data.None? {
        ok := false;
      } else {
        ParamsData[n] := ParamsData[n].(finalPulse := data.value.finalPulse,
                                        finalMecSpeedUnit := data.value.finalMecSpeedUnit,
                                        durationMs := data.value.durationMs);
        ok := true;
      }
    }

    /** RUC_6S_GetPhase: the three programmable values of slot n. */
    function GetPhase(n: u8): (d: PhaseData)
      requires Valid() && n < RUC_MAX_PHASE_NUMBER
      reads this, ParamsData
      ensures d.durationMs == GetPhaseDurationms(n) && d.finalMecSpeedUnit == GetPhaseFinalMecSpeedUnit(n)
      ensures d.finalPulse == ParamsData[n].finalPulse
    {
      PhaseData(ParamsData[n].durationMs, ParamsData[n].finalMecSpeedUnit, ParamsData[n].finalPulse)
    }

    /** RUC_6S_GetNumberOfPhases: the phase count Clear recorded. */
    function GetNumberOfPhases(): (n: u8)
      reads this
      ensures n == bPhaseNbr
    {
      bPhaseNbr
    }

    /** RUC_6S_GetDirection: the int8_t direction widened to int16_t. */
    function GetDirection(): (d: i16)
      reads this
      ensures d == hDirection && -128 <= d < 128
    {
      hDirection
    }

    /** RUC_6S_SetPhaseDurationms. */
    method SetPhaseDurationms(n: u8, durationMs: u16)
      requires Valid() && n < RUC_MAX_PHASE_NUMBER
      modifies ParamsData
      ensures Valid() && ParamsData[..] == old(ParamsData[..])[n := old(ParamsData[n]).(durationMs := durationMs)]
      ensures GetPhaseDurationms(n) == durationMs
    {
      ParamsData[n] := ParamsData[n].(durationMs := durationMs);
    }

    /** RUC_6S_SetPhaseFinalMecSpeedUnit. */
    method SetPhaseFinalMecSpeedUnit(n: u8, finalMecSpeedUnit: i16)
      requires Valid() && n < RUC_MAX_PHASE_NUMBER
      modifies ParamsData
      ensures Valid() && ParamsData[..] == old(ParamsData[..])[n := old(ParamsData[n]).(finalMecSpeedUnit := finalMecSpeedUnit)]
      ensures GetPhaseFinalMecSpeedUnit(n) == finalMecSpeedUnit
    {
      ParamsData[n] := ParamsData[n].(finalMecSpeedUnit := finalMecSpeedUnit);
    }

    /** RUC_6S_SetPhaseFinalPulse. */
    method SetPhaseFinalPulse(n: u8, finalPulse: u16)
      requires Valid() && n < RUC_MAX_PHASE_NUMBER
      modifies ParamsData
      ensures Valid() && ParamsData[..] == old(ParamsData[..])[n := old(ParamsData[n]).(finalPulse := finalPulse)]
      ensures GetPhaseFinalPulse(n) == I16(finalPulse)
    {
      ParamsData[n] := ParamsData[n].(finalPulse := finalPulse);
    }

    /** RUC_6S_GetPhaseDurationms: the duration of slot n. */
    function GetPhaseDurationms(n: u8): (ms: u16)
      requires n < RUC_MAX_PHASE_NUMBER && ParamsData.Length == RUC_MAX_PHASE_NUMBER
      reads ParamsData
      ensures ms == ParamsData[n].durationMs
    {
      ParamsData[n].durationMs
    }

    /** RUC_6S_GetPhaseFinalMecSpeedUnit: the target speed of slot n. */
    function GetPhaseFinalMecSpeedUnit(n: u8): (speed: i16)
      requires n < RUC_MAX_PHASE_NUMBER && ParamsData.Length == RUC_MAX_PHASE_NUMBER
      reads ParamsData
      ensures speed == ParamsData[n].finalMecSpeedUnit
    {
      ParamsData[n].finalMecSpeedUnit
    }

    /** RUC_6S_GetPhaseFinalPulse: the uint16_t pulse reinterpreted as int16_t. */
    function GetPhaseFinalPulse(n: u8): (pulse: i16)
      requires n < RUC_MAX_PHASE_NUMBER && ParamsData.Length == RUC_MAX_PHASE_NUMBER
      reads ParamsData
      ensures pulse == ParamsData[n].finalPulse || pulse == ParamsData[n].finalPulse - TWO16
    {
      I16(ParamsData[n].finalPulse)
    }
  }
}
