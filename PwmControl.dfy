// The closed-loop PWM firmware: a 1 kHz tick runs a PI loop that steers the
// PWM duty (5..95 %) toward an ADC target, or applies a fixed open-loop duty;
// single-line serial commands switch between idle and run and set the duty or
// the target.
module PwmControl {
  import opened CInt
  import opened CText

  const DUTY_MIN: int := 5
  const DUTY_MAX: int := 95
  const KP: int := 6
  const I_MAX: int := 4095 * 8
  const I_MIN: int := -I_MAX
  const ADC_MAX: int := 4095
  /** The serial line buffer: 31 characters and a terminator. */
  const LINE_SIZE: int := 32

  /** sys_state_t. */
  datatype SysState = Idle | Run | Fault

  /** clampi. */
  function Clampi(v: int, lo: int, hi: int): (r: int)
    ensures v < lo ==> r == lo
    ensures lo <= v <= hi ==> r == v
    ensures lo <= v && hi < v ==> r == hi
    ensures lo <= hi ==> lo <= r <= hi
  {
    if v < lo then lo else if v > hi then hi else v
  }

  // ---------------------------------------------------------------------
  // Number parsing
  // ---------------------------------------------------------------------

  /** parse_num2: succeeds exactly when the first two characters are digits,
    * with their value. */
  method ParseNum2(s: seq<char>) returns (ok: bool, out: int)
    requires |s| >= 2
    ensures ok <==> IsDigit(s[0]) && IsDigit(s[1])
    ensures ok ==> out == Decimal(s[..2]) && 0 <= out <= 99
  {
    if s[0] < '0' || s[0] > '9' || s[1] < '0' || s[1] > '9' {
      return false, 0;
    }
    out := (s[0] as int - '0' as int) * 10 + (s[1] as int - '0' as int);
    ok := true;
    DecimalDigits(s[..2]);
  }

  /** parse_num4: succeeds exactly when the first four characters are
    * digits, with their value. */
  method ParseNum4(s: seq<char>) returns (ok: bool, out: int)
    requires |s| >= 4
    ensures ok <==> AllDigits(s[..4])
    ensures ok ==> out == Decimal(s[..4]) && 0 <= out <= 9999
  {
    for i := 0 to 4
      invariant forall j :: 0 <= j < i ==> IsDigit(s[j])
    {
      if s[i] < '0' || s[i] > '9' {
        return false, 0;
      }
    }
    out := ((s[0] as int - '0' as int) * 1000) + ((s[1] as int - '0' as int) * 100)
           + ((s[2] as int - '0' as int) * 10) + (s[3] as int - '0' as int);
    ok := true;
    DecimalDigits(s[..4]);
  }

  // ---------------------------------------------------------------------
  // The control state and the 1 kHz tick
  // ---------------------------------------------------------------------

  /** The controller's globals: state, loop mode, duty command, ADC target,
    * integrator, and the duty last handed to the PWM driver. */
  datatype Ctl = Ctl(state: SysState, useCl: bool, duty: int, target: int, iAcc: int, pwm: int)

  /** What every reachable state satisfies: the duty within 5..95, the
    * integrator within its limits, a 12-bit target, and no fault state (no
    * code enters it). */
  ghost predicate Bounded(c: Ctl)
  {
    DUTY_MIN <= c.duty <= DUTY_MAX && I_MIN <= c.iAcc <= I_MAX && 0 <= c.target <= ADC_MAX
    && c.state != Fault && 0 <= c.pwm <= DUTY_MAX
  }

  /** Anti-windup: the integrator holds while the duty is saturated and the
    * error pushes further into the saturation. */
  predicate Frozen(duty: int, err: int)
  {
    (duty >= DUTY_MAX && err > 0) || (duty <= DUTY_MIN && err < 0)
  }

  /** The integrator after one tick. */
  function Integrated(iAcc: int, duty: int, err: int): int
  {
    if Frozen(duty, err) then iAcc else Clampi(iAcc + err, I_MIN, I_MAX)
  }

  /** The duty after one tick, from the new integrator: duty plus
    * (6 * err + iAcc) >> 7, clamped. */
  function Stepped(duty: int, iAcc: int, err: int): int
  {
    Clampi(duty + Asr(KP * err + iAcc, 7), DUTY_MIN, DUTY_MAX)
  }

  /** control_tick_1kHz on the controller state, with the averaged ADC value. */
  function Tick(c: Ctl, adc: int): Ctl
  {
    if c.state == Run then
      if c.useCl then
        var err := c.target - adc;
        var i := Integrated(c.iAcc, c.duty, err);
        var d := Stepped(c.duty, i, err);
        c.(iAcc := i, duty := d, pwm := d)
      else c.(pwm := c.duty)
    else c.(pwm := 0)
  }

  /** The tick keeps every bound. Out of RUN the output is 0 and nothing else
    * moves; open-loop RUN outputs the duty command unchanged; closed-loop RUN
    * outputs the new duty command, which lies in 5..95 whatever it was. */
  lemma TickMeaning(c: Ctl, adc: int)
    requires Bounded(c) && IsU16(adc)
    ensures Bounded(Tick(c, adc))
    ensures c.state != Run ==> Tick(c, adc) == c.(pwm := 0)
    ensures c.state == Run && !c.useCl ==> Tick(c, adc) == c.(pwm := c.duty)
    ensures c.state == Run && c.useCl ==>
              Tick(c, adc).pwm == Tick(c, adc).duty
              && Tick(c, adc).state == c.state && Tick(c, adc).target == c.target
  {
  }

  /** The integrator moves with the error unless frozen, never leaves its
    * limits, and a frozen integrator keeps its value. */
  lemma IntegratorMoves(iAcc: int, duty: int, err: int)
    requires I_MIN <= iAcc <= I_MAX
    ensures I_MIN <= Integrated(iAcc, duty, err) <= I_MAX
    ensures Frozen(duty, err) ==> Integrated(iAcc, duty, err) == iAcc
    ensures !Frozen(duty, err) && err >= 0 ==> iAcc <= Integrated(iAcc, duty, err) <= iAcc + err
    ensures !Frozen(duty, err) && err <= 0 ==> iAcc + err <= Integrated(iAcc, duty, err) <= iAcc
  {
  }

  /** The duty moves in the direction the loop asks for: up (or stays) when
    * the error and the integrator are both non-negative, down (or stays)
    * when both are non-positive; with no error and an empty integrator it
    * stays. */
  lemma DutyFollowsError(duty: int, iAcc: int, err: int)
    requires DUTY_MIN <= duty <= DUTY_MAX
    ensures err >= 0 && iAcc >= 0 ==> duty <= Stepped(duty, iAcc, err)
    ensures err <= 0 && iAcc <= 0 ==> Stepped(duty, iAcc, err) <= duty
    ensures err == 0 && iAcc == 0 ==> Stepped(duty, iAcc, err) == duty
  {
    var p := Pow2(7);
    assert p == 128;
    var q := Asr(KP * err + iAcc, 7);
    if err >= 0 && iAcc >= 0 {
      assert q * p <= KP * err + iAcc < (q + 1) * p;
      assert q >= 0;
    }
    if err <= 0 && iAcc <= 0 {
      assert q * p <= KP * err + iAcc;
      assert q <= 0;
    }
  }

  // ---------------------------------------------------------------------
  // Commands
  // ---------------------------------------------------------------------

  /** enter_run: only when armed and not in fault. */
  function EnterRun(c: Ctl, armOk: bool): Ctl
  {
    if armOk && c.state != Fault then c.(state := Run) else c
  }

  /** process_command_line on the controller state. */
  function Command(c: Ctl, armOk: bool, cmd: seq<char>): Ctl
  {
    if cmd == [] then c
    else if cmd == "c" || cmd == "C" || cmd == "k" || cmd == "K" then c.(state := Idle, pwm := 0)
    else if cmd == "e" || cmd == "E" then EnterRun(c, armOk)
    else if cmd == "s" || cmd == "S" then c
    else if (cmd[0] == 'd' || cmd[0] == 'D') && |cmd| >= 3 then
      if IsDigit(cmd[1]) && IsDigit(cmd[2]) then
        EnterRun(c.(duty := Clampi(Decimal(cmd[1..3]), DUTY_MIN, DUTY_MAX), useCl := false), armOk)
      else c
    else if (cmd[0] == 't' || cmd[0] == 'T') && |cmd| >= 5 then
      if AllDigits(cmd[1..5]) then
        EnterRun(c.(target := Min(Decimal(cmd[1..5]), ADC_MAX), useCl := true), armOk)
      else c
    else c
  }

  /** Commands keep every bound and never enter the fault state. The stop
    * commands go idle with the output at 0; "e" runs exactly when armed;
    * "dXX" sets the open-loop duty to XX clamped to 5..95 and "tXXXX" the
    * closed-loop target to XXXX capped at 4095, each then trying to run;
    * with malformed digits, or any other line, nothing changes. */
  lemma CommandMeaning(c: Ctl, armOk: bool, cmd: seq<char>)
    requires Bounded(c)
    ensures var r := Command(c, armOk, cmd);
            Bounded(r) && r.iAcc == c.iAcc
    ensures var r := Command(c, armOk, cmd);
            r.duty != c.duty ==> !r.useCl
    ensures var r := Command(c, armOk, cmd);
            cmd in {"c", "C", "k", "K"} ==> r.state == Idle && r.pwm == 0 && r.duty == c.duty
    ensures var r := Command(c, armOk, cmd);
            cmd in {"e", "E"} ==> (r.state == Run <==> armOk || c.state == Run) && r.duty == c.duty
    ensures var r := Command(c, armOk, cmd);
            |cmd| >= 3 && cmd[0] in "dD" && IsDigit(cmd[1]) && IsDigit(cmd[2]) ==>
              r.duty == Clampi(10 * (cmd[1] as int - 48) + (cmd[2] as int - 48), DUTY_MIN, DUTY_MAX)
              && !r.useCl && (r.state == Run <==> armOk || c.state == Run)
    ensures var r := Command(c, armOk, cmd);
            |cmd| >= 3 && cmd[0] in "dD" && !(IsDigit(cmd[1]) && IsDigit(cmd[2])) ==> r == c
    ensures var r := Command(c, armOk, cmd);
            |cmd| >= 5 && cmd[0] in "tT" && AllDigits(cmd[1..5]) ==>
              r.target == Min(Decimal(cmd[1..5]), ADC_MAX) && r.useCl && r.duty == c.duty
              && (r.state == Run <==> armOk || c.state == Run)
    ensures var r := Command(c, armOk, cmd);
            |cmd| >= 5 && cmd[0] in "tT" && !AllDigits(cmd[1..5]) ==> r == c
  {
    if |cmd| >= 3 && cmd[0] in "dD" {
      DecimalDigits(cmd[1..3]);
    }
    if |cmd| >= 5 && cmd[0] in "tT" && AllDigits(cmd[1..5]) {
      DecimalBound(cmd[1..5]);
    }
  }

  /** The part of CommandMeaning the firmware's invariant needs. */
  lemma CommandBounded(c: Ctl, armOk: bool, cmd: seq<char>)
    requires Bounded(c)
    ensures Bounded(Command(c, armOk, cmd))
  {
    if |cmd| >= 5 && cmd[0] in "tT" && AllDigits(cmd[1..5]) {
      DecimalBound(cmd[1..5]);
    }
  }

  // ---------------------------------------------------------------------
  // The firmware
  // ---------------------------------------------------------------------

  /** The globals of the PWM firmware and the receive line of uart_poll_cmd. */
  class Controller {
    var g_state: SysState
    const arm_ok: bool
    var use_cl: bool
    var duty_cmd: u8
    var target_adc: u16
    var I_acc: i32
    var ms: u32
    /** The duty percentage last handed to the PWM driver. */
    var pwm_percent: int
    const line: array<char>
    var idx: u8

    function State(): Ctl
      reads this
    {
      Ctl(g_state, use_cl, duty_cmd, target_adc, I_acc, pwm_percent)
    }

    ghost predicate Valid()
      reads this
    {
      line.Length == LINE_SIZE && idx < LINE_SIZE && Bounded(State())
    }

    /** The static initial values, with the boot-time output of the default
      * 10 % duty. */
    constructor ()
      ensures Valid() && fresh(line) && idx == 0 && ms == 0 && arm_ok
      ensures State() == Ctl(Idle, false, 10, 2600, 0, 10)
    {
      g_state := Idle;
      arm_ok := true;
      use_cl := false;
      duty_cmd := 10;
      target_adc := 2600;
      I_acc := 0;
      ms := 0;
      pwm_percent := 10;
      line := new char[LINE_SIZE](_ => '\0');
      idx := 0;
    }

    /** control_tick_1kHz with the averaged ADC value adc. */
    method ControlTick(adc: u16)
      requires Valid()
      modifies this`duty_cmd, this`I_acc, this`pwm_percent
      ensures Valid() && State() == Tick(old(State()), adc)
    {
      TickMeaning(State(), adc);
      if g_state == Run {
        if use_cl {
          var err := target_adc - adc;
          var at_upper := duty_cmd >= DUTY_MAX;
          var at_lower := duty_cmd <= DUTY_MIN;
          var freeze_I := (at_upper && err > 0) || (at_lower && err < 0);
          if !freeze_I {
            var acc := I_acc + err;
            if acc > I_MAX {
              acc := I_MAX;
            }
            if acc < I_MIN {
              acc := I_MIN;
            }
            I_acc := acc;
          }
          var pi := KP * err + I_acc;
          var d := duty_cmd + Asr(pi, 7);
          if d < DUTY_MIN {
            d := DUTY_MIN;
          }
          if d > DUTY_MAX {
            d := DUTY_MAX;
          }
          duty_cmd := d;
        }
        pwm_percent := duty_cmd;
      } else {
        pwm_percent := 0;
      }
    }

    /** HAL_TIM_PeriodElapsedCallback: TIM4 advances the millisecond count
      * and runs the tick; other timers are ignored. */
    method TimerElapsed(isTim4: bool, adc: u16)
      requires Valid()
      modifies this`ms, this`duty_cmd, this`I_acc, this`pwm_percent
      ensures Valid()
      ensures isTim4 ==> ms == U32(old(ms) + 1) && State() == Tick(old(State()), adc)
      ensures !isTim4 ==> ms == old(ms) && State() == old(State())
    {
      if isTim4 {
        ms := U32(ms + 1);
        ControlTick(adc);
      }
    }

    /** enter_idle. */
    method EnterIdle()
      modifies this`g_state, this`pwm_percent
      ensures g_state == Idle && pwm_percent == 0
    {
      g_state := Idle;
      pwm_percent := 0;
    }

    /** enter_run. */
    method EnterRunning()
      modifies this`g_state
      ensures State() == EnterRun(old(State()), arm_ok)
    {
      if arm_ok && g_state != Fault {
        g_state := Run;
      }
    }

    /** process_command_line on the command string (the line up to its NUL). */
    method ProcessCommandLine(cmd: seq<char>)
      requires Valid()
      modifies this`g_state, this`pwm_percent, this`duty_cmd, this`use_cl, this`target_adc
      ensures Valid() && State() == Command(old(State()), arm_ok, cmd)
    {
      CommandBounded(State(), arm_ok, cmd);
      if |cmd| == 0 {
        return;
      }
      if cmd == "c" || cmd == "C" {
        EnterIdle();
        return;
      }
      if cmd == "k" || cmd == "K" {
        EnterIdle();
        return;
      }
      if cmd == "e" || cmd == "E" {
        EnterRunning();
        return;
      }
      if cmd == "s" || cmd == "S" {
        return;
      }
      if (cmd[0] == 'd' || cmd[0] == 'D') && |cmd| >= 3 {
        var ok, v := ParseNum2(cmd[1..]);
        if ok {
          assert cmd[1..][..2] == cmd[1..3];
          duty_cmd := Clampi(v, DUTY_MIN, DUTY_MAX);
          use_cl := false;
          EnterRunning();
        }
        return;
      }
      if (cmd[0] == 't' || cmd[0] == 'T') && |cmd| >= 5 {
        var ok, v := ParseNum4(cmd[1..]);
        assert cmd[1..][..4] == cmd[1..5];
        if ok {
          if v > ADC_MAX {
            v := ADC_MAX;
          }
          target_adc := v;
          use_cl := true;
          EnterRunning();
        }
        return;
      }
    }

    /** The characters received since the last line end. */
    function Pending(): seq<char>
      requires Valid()
      reads this, line
    {
      line[..idx]
    }

    /** uart_poll_cmd, with the byte the UART returned (None when none was
      * waiting). CR or LF runs a non-empty line as a C string and starts a
      * new one; any other byte is stored while fewer than 31 are pending,
      * and the 32nd discards the line. */
    method UartPollCmd(rx: Option<u8>)
      requires Valid()
      modifies line, this`idx, this`g_state, this`pwm_percent, this`duty_cmd, this`use_cl, this`target_adc
      ensures Valid()
      ensures rx.None? ==> idx == old(idx) && Pending() == old(Pending()) && State() == old(State())
      ensures rx.Some? && rx.value in {10, 13} ==>
                if old(idx) > 0 then
                  idx == 0 && State() == Command(old(State()), arm_ok, CStr(old(Pending())))
                else idx == 0 && State() == old(State())
      ensures rx.Some? && rx.value !in {10, 13} ==>
                State() == old(State())
                && if old(idx) < LINE_SIZE - 1 then Pending() == old(Pending()) + [rx.value as char]
                   else idx == 0
    {
      if rx.None? {
        return;
      }
      var ch := rx.value;
      if ch == 13 || ch == 10 {
        if idx > 0 {
          line[idx] := '\0';
          var cmd := CStr(line[..idx]);
          ProcessCommandLine(cmd);
          idx := 0;
        }
      } else {
        if idx < LINE_SIZE - 1 {
          line[idx] := ch as char;
          idx := idx + 1;
        } else {
          idx := 0;
        }
      }
    }
  }
}
