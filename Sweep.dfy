// The three-channel PWM demo: every 10 ms the duty walks one percent up or
// down between 0 and 100, and channels 2 and 3 follow at a cyclic offset of
// 33 and 66 percent.
module Sweep {
  import opened CInt

  const STEP_MS := 10
  const DUTY_FULL := 100

  /** The triangle's position: duty in percent and direction. */
  datatype Tri = Tri(duty: int, dir: int)

  /** One sweep step: move by one; at 100 or above stop there and turn
    * down, at 0 or below stop there and turn up. */
  function SweepStep(t: Tri): Tri
  {
    var d := t.duty + t.dir;
    var t1 := if d >= DUTY_FULL then Tri(DUTY_FULL, -1) else Tri(d, t.dir);
    if t1.duty <= 0 then Tri(0, 1) else t1
  }

  predicate InRange(t: Tri)
  {
    0 <= t.duty <= DUTY_FULL && (t.dir == 1 || t.dir == -1)
  }

  /** The step keeps the duty in [0, 100] and the direction a unit; it moves
    * by one inside the range and turns at each end. */
  lemma StepInRange(t: Tri)
    requires InRange(t)
    ensures InRange(SweepStep(t))
    ensures 0 < t.duty + t.dir < DUTY_FULL ==> SweepStep(t) == Tri(t.duty + t.dir, t.dir)
    ensures t.duty + t.dir >= DUTY_FULL ==> SweepStep(t) == Tri(DUTY_FULL, -1)
    ensures t.duty + t.dir <= 0 ==> SweepStep(t) == Tri(0, 1)
  {
  }

  /** A channel's duty at an offset: duty + off, less 100 when above 100. */
  function Offset(duty: int, off: int): int
  {
    var d := duty + off;
    if d > DUTY_FULL then d - DUTY_FULL else d
  }

  /** The offset channels stay in [1, 100] and are the main duty shifted
    * cyclically by their offset, modulo 100. */
  lemma OffsetsInRange(duty: int)
    requires 0 <= duty <= DUTY_FULL
    ensures 1 <= Offset(duty, 33) <= DUTY_FULL && 1 <= Offset(duty, 66) <= DUTY_FULL
    ensures (Offset(duty, 33) - duty - 33) % DUTY_FULL == 0
    ensures (Offset(duty, 66) - duty - 66) % DUTY_FULL == 0
  {
  }

  function Sweeps(t: Tri, n: nat): Tri
  {
    if n == 0 then t else SweepStep(Sweeps(t, n - 1))
  }

  lemma {:induction false} SweepsAdd(t: Tri, a: nat, b: nat)
    ensures Sweeps(t, a + b) == Sweeps(Sweeps(t, a), b)
    decreases b
  {
    if b > 0 {
      SweepsAdd(t, a, b - 1);
    }
  }

  lemma {:induction false} Up(k: nat)
    requires k <= 99
    ensures Sweeps(Tri(0, 1), k) == Tri(k, 1)
  {
    if k > 0 {
      Up(k - 1);
    }
  }

  lemma {:induction false} Down(k: nat)
    requires k <= 99
    ensures Sweeps(Tri(DUTY_FULL, -1), k) == Tri(DUTY_FULL - k, -1)
  {
    if k > 0 {
      Down(k - 1);
    }
  }

  /** From 0 going up the duty reaches 100 after 100 steps and turns down;
    * 100 steps later it is back at 0 going up. */
  lemma SweepPeriod()
    ensures Sweeps(Tri(0, 1), DUTY_FULL) == Tri(DUTY_FULL, -1)
    ensures Sweeps(Tri(0, 1), 2 * DUTY_FULL) == Tri(0, 1)
  {
    Up(99);
    Down(99);
    SweepsAdd(Tri(0, 1), 100, 100);
  }

  /** The loop's statics and the three duties last written to the PWM. */
  datatype SState = SState(last: int, tri: Tri, ch1: int, ch2: int, ch3: int)

  /** app_loop at tick now: nothing until 10 ms (unsigned difference) have
    * passed since the last step; then step and write all three channels. */
  function Loop(s: SState, now: int): SState
  {
    if U32(now - s.last) < STEP_MS then s
    else
      var t := SweepStep(s.tri);
      SState(now, t, t.duty, Offset(t.duty, 33), Offset(t.duty, 66))
  }

  /** The loop keeps the triangle in range and every channel in [0, 100],
    * and between gates nothing changes. */
  lemma LoopKeeps(s: SState, now: int)
    requires InRange(s.tri) && 0 <= s.ch1 <= DUTY_FULL && 0 <= s.ch2 <= DUTY_FULL && 0 <= s.ch3 <= DUTY_FULL
    ensures var r := Loop(s, now);
      InRange(r.tri) && 0 <= r.ch1 <= DUTY_FULL && 0 <= r.ch2 <= DUTY_FULL && 0 <= r.ch3 <= DUTY_FULL
    ensures U32(now - s.last) < STEP_MS ==> Loop(s, now) == s
  {
    StepInRange(s.tri);
    OffsetsInRange(SweepStep(s.tri).duty);
  }

  class SweepApp {
    var s_last_ms: u32
    var s_dir: int
    var s_duty: int
    /** The duty percentages last written to channels 1, 2 and 3. */
    var ch1: int
    var ch2: int
    var ch3: int

    function State(): SState
      reads this
    {
      SState(s_last_ms, Tri(s_duty, s_dir), ch1, ch2, ch3)
    }

    constructor ()
      ensures State() == SState(0, Tri(0, 1), 0, 0, 0)
    {
      s_last_ms := 0;
      s_dir := 1;
      s_duty := 0;
      ch1, ch2, ch3 := 0, 0, 0;
    }

    /** app_init: all three channels start at 0 percent (binding and
      * starting the timer are hardware calls). */
    method AppInit()
      modifies this`ch1, this`ch2, this`ch3
      ensures State() == old(State()).(ch1 := 0, ch2 := 0, ch3 := 0)
    {
      ch1, ch2, ch3 := 0, 0, 0;
    }

    method AppLoop(now: u32)
      modifies this
      ensures State() == Loop(old(State()), now)
    {
      if U32(now - s_last_ms) < 10 {
        return;
      }
      s_last_ms := now;
      s_duty := s_duty + s_dir;
      if s_duty >= 100 {
        s_duty := 100;
        s_dir := -1;
      }
      if s_duty <= 0 {
        s_duty := 0;
        s_dir := 1;
      }
      var d1 := s_duty;
      var d2 := s_duty + 33;
      if d2 > 100 {
        d2 := d2 - 100;
      }
      var d3 := s_duty + 66;
      if d3 > 100 {
        d3 := d3 - 100;
      }
      ch1, ch2, ch3 := d1, d2, d3;
    }
  }
}
