// The breathing-LED task: it takes duty and enable commands from a message
// queue and, while breathing is enabled, walks the PWM duty up and down
// between 0 and 999 in steps of 5.
module Breathe {
  import opened CInt

  const BREATHE_STEP := 5
  const DUTY_TOP := 999

  datatype CmdType = CmdSetDuty | CmdSetEnable

  /** One queued command: its kind and its value (a duty, or 0/1). */
  datatype BreatheMsg = BreatheMsg(kind: CmdType, value: u16)

  /** Where the triangle wave is: the current duty and the direction. */
  datatype Phase = Phase(duty: int, dir: int)

  /** The whole state of the task: the stored duty and enable flag, the
    * task's direction variable and the last duty written to the PWM. */
  datatype BState = BState(duty: int, en: bool, dir: int, pwm: int)

  /** One breathe step: move by 5 in the current direction; at or past 999
    * stop at 999 and turn down, at or below 0 stop at 0 and turn up. */
  function Step(p: Phase): (r: Phase)
  {
    var next := p.duty + p.dir * BREATHE_STEP;
    var (next, dir) := if next >= DUTY_TOP then (DUTY_TOP, -1) else (next, p.dir);
    var (next, dir) := if next <= 0 then (0, 1) else (next, dir);
    Phase(U16(next), dir)
  }

  /** What a received message (or a timeout, None) does to the state. */
  function Receive(st: BState, msg: Option<BreatheMsg>): BState
  {
    match msg
    case None => st
    case Some(m) =>
      if m.kind == CmdSetEnable then st.(en := m.value != 0)
      else
        var d := if m.value as int > DUTY_TOP then DUTY_TOP else m.value as int;
        st.(duty := d, en := false, pwm := d)
  }

  /** One pass of the task's loop: handle the message, then step if enabled. */
  function Iteration(st: BState, msg: Option<BreatheMsg>): BState
  {
    var r := Receive(st, msg);
    if r.en then
      var p := Step(Phase(r.duty, r.dir));
      r.(duty := p.duty, dir := p.dir, pwm := p.duty)
    else r
  }

  /** n breathe steps in a row. */
  function Steps(p: Phase, n: nat): Phase
  {
    if n == 0 then p else Step(Steps(p, n - 1))
  }

  /** A step lands in [0, 999] whatever the duty was, keeps the direction
    * a unit, moves by exactly 5 away from the bounds and turns at them. */
  lemma StepMeaning(p: Phase)
    requires 0 <= p.duty < TWO16 && (p.dir == 1 || p.dir == -1)
    ensures 0 <= Step(p).duty <= DUTY_TOP
    ensures Step(p).dir == 1 || Step(p).dir == -1
    ensures 0 < p.duty + 5 * p.dir < DUTY_TOP ==> Step(p) == Phase(p.duty + 5 * p.dir, p.dir)
    ensures p.duty + 5 * p.dir >= DUTY_TOP ==> Step(p) == Phase(DUTY_TOP, -1)
    ensures p.duty + 5 * p.dir <= 0 ==> Step(p) == Phase(0, 1)
  {
  }

  /** A duty command clamps to 999, turns breathing off and is written to
    * the PWM at once; the step does not run after it. */
  lemma SetDutyMeaning(st: BState, v: u16)
    ensures var r := Iteration(st, Some(BreatheMsg(CmdSetDuty, v)));
      r == st.(duty := Min(v as int, DUTY_TOP), en := false, pwm := Min(v as int, DUTY_TOP))
  {
  }

  /** An enable command sets the flag to value != 0; when it turns breathing
    * on, the step runs in the same pass. */
  lemma SetEnableMeaning(st: BState, v: u16)
    ensures Iteration(st, Some(BreatheMsg(CmdSetEnable, v))).en == (v != 0)
    ensures v != 0 ==>
      var p := Step(Phase(st.duty, st.dir));
      Iteration(st, Some(BreatheMsg(CmdSetEnable, v))) == st.(en := true, duty := p.duty, dir := p.dir, pwm := p.duty)
    ensures v == 0 ==> Iteration(st, Some(BreatheMsg(CmdSetEnable, v))) == st.(en := false)
  {
  }

  /** The task's invariant: a unit direction and a 16-bit duty, and a duty
    * in [0, 999] stays there. */
  lemma IterationKeeps(st: BState, msg: Option<BreatheMsg>)
    requires 0 <= st.duty < TWO16 && (st.dir == 1 || st.dir == -1)
    ensures var r := Iteration(st, msg);
      0 <= r.duty < TWO16 && (r.dir == 1 || r.dir == -1)
      && (r.en ==> 0 <= r.duty <= DUTY_TOP)
      && (st.duty <= DUTY_TOP ==> r.duty <= DUTY_TOP)
      && (r.duty != st.duty ==> r.pwm == r.duty)
  {
    var r := Receive(st, msg);
    if r.en {
      StepMeaning(Phase(r.duty, r.dir));
    }
  }

  lemma {:induction false} StepsAdd(p: Phase, a: nat, b: nat)
    ensures Steps(p, a + b) == Steps(Steps(p, a), b)
    decreases b
  {
    if b > 0 {
      StepsAdd(p, a, b - 1);
    }
  }

  /** From the bottom, k <= 199 steps rise by 5 each. */
  lemma {:induction false} Rising(k: nat)
    requires k <= 199
    ensures Steps(Phase(0, 1), k) == Phase(5 * k, 1)
  {
    if k > 0 {
      Rising(k - 1);
    }
  }

  /** From the top, j <= 199 steps fall by 5 each. */
  lemma {:induction false} Falling(j: nat)
    requires j <= 199
    ensures Steps(Phase(DUTY_TOP, -1), j) == Phase(DUTY_TOP - 5 * j, -1)
  {
    if j > 0 {
      Falling(j - 1);
    }
  }

  /** The wave is periodic: 200 steps from the bottom reach the top, turned
    * down, and 200 more come back to the bottom, turned up. */
  lemma BreathePeriod()
    ensures Steps(Phase(0, 1), 200) == Phase(DUTY_TOP, -1)
    ensures Steps(Phase(0, 1), 400) == Phase(0, 1)
  {
    Rising(199);
    Falling(199);
    StepsAdd(Phase(0, 1), 200, 200);
    assert Steps(Phase(DUTY_TOP, -1), 200) == Step(Phase(4, -1));
  }

  /** The task's statics and its loop's locals. */
  class BreatheTask {
    var s_duty: u16
    var s_en: bool
    var dir: int
    /** The last duty written to the PWM output. */
    var pwm: u16

    function State(): BState
      reads this
    {
      BState(s_duty as int, s_en, dir, pwm as int)
    }

    ghost predicate Valid()
      reads this
    {
      dir == 1 || dir == -1
    }

    /** The statics' initial values and the task's start-up direction. */
    constructor ()
      ensures Valid() && State() == BState(0, true, 1, 0)
    {
      s_duty := 0;
      s_en := true;
      dir := 1;
      pwm := 0;
    }

    /** App_Breathe_Init: store both values as given, without clamping, and
      * write the duty to the PWM. */
    method Init(duty: u16, en: bool)
      modifies this`s_duty, this`s_en, this`pwm
      ensures State() == old(State()).(duty := duty as int, en := en, pwm := duty as int)
    {
      s_duty := duty;
      s_en := en;
      pwm := s_duty;
    }

    function GetDuty(): (d: u16)
      reads this
      ensures d as int == State().duty
    {
      s_duty
    }

    function GetEnable(): (e: bool)
      reads this
      ensures e == State().en
    {
      s_en
    }

    /** One pass of App_BreatheTask's loop; msg is what the queue delivered
      * before the timeout, if anything. */
    method Iterate(msg: Option<BreatheMsg>)
      requires Valid()
      modifies this
      ensures Valid() && State() == Iteration(old(State()), msg)
    {
      if msg.Some? {
        var m := msg.value;
        if m.kind == CmdSetEnable {
          s_en := m.value != 0;
        } else {
          s_duty := m.value;
          if s_duty > 999 {
            s_duty := 999;
          }
          s_en := false;
          pwm := s_duty;
        }
      }
      if s_en {
        var next := s_duty as int + dir * BREATHE_STEP;
        if next >= 999 {
          next := 999;
          dir := -1;
        }
        if next <= 0 {
          next := 0;
          dir := 1;
        }
        s_duty := U16(next) as u16;
        pwm := s_duty;
      }
    }
  }
}
