// The benchmark board's command line: received bytes are collected into a
// 96-byte line that the main loop copies out once CR or LF marks it ready; the
// software reference filter is a 32-tap moving average over int16_t samples,
// fed by a linear congruential generator; and the dump command lists the last
// entries of the capture log.
module PlatCli {
  import opened CInt
  import opened CText
  import FmacRt

  const CLI_LINE_MAX: int := 96
  const FMAC_TAPS: int := 32
  const FMAC_INPUT_N: int := 5000

  // ---------------------------------------------------------------------
  // The received line
  // ---------------------------------------------------------------------

  /** The static line buffer, its length and the ready flag. */
  datatype LineState = LineState(line: seq<char>, len: int, ready: bool)

  ghost predicate Wf(s: LineState)
  {
    |s.line| == CLI_LINE_MAX && 0 <= s.len < CLI_LINE_MAX
  }

  predicate Printable(b: int) { 0x20 <= b <= 0x7E }

  /** cli_on_rx_byte on the line state. */
  function RxByte(s: LineState, b: u8): (t: LineState)
    requires Wf(s)
    ensures Wf(t)
  {
    if b == 13 || b == 10 then
      if s.len > 0 then s.(ready := true) else s
    else if b == 0x08 || b == 0x7F then
      if s.len > 0 then s.(len := s.len - 1) else s
    else if !Printable(b) then s
    else if s.len < CLI_LINE_MAX - 1 then
      LineState(s.line[s.len := b as char][s.len + 1 := '\0'], s.len + 1, s.ready)
    else
      s.(len := 0)
  }

  /** What cli_poll hands to the command interpreter: the line copied with
    * strncpy into 96 bytes whose last byte is then forced to NUL. */
  function Copied(line: seq<char>): seq<char>
    requires |line| == CLI_LINE_MAX
  {
    CStr(line[..CLI_LINE_MAX - 1])
  }

  /** The typed characters (those before len) are printable. */
  ghost predicate Typed(s: LineState)
  {
    Wf(s) && forall k :: 0 <= k < s.len ==> Printable(s.line[k] as int)
  }

  /** The byte at len is the terminator. */
  ghost predicate Terminated(s: LineState)
  {
    Wf(s) && s.line[s.len] == '\0'
  }

  /** The static initial state: an all-NUL line, empty, not ready. */
  function InitialLine(): (s: LineState)
    ensures Typed(s) && Terminated(s) && !s.ready
  {
    LineState(seq(CLI_LINE_MAX, _ => '\0'), 0, false)
  }

  /** Every byte keeps the typed characters printable. CR or LF marks the line
    * ready exactly when something was typed (or it was ready already) and
    * changes nothing else; backspace and DEL shorten a non-empty line and
    * leave the buffer alone; other control bytes and bytes above 0x7E are
    * ignored; a printable byte is appended with a terminator after it while
    * fewer than 95 are typed, and at 95 the whole line is discarded. */
  lemma RxByteMeaning(s: LineState, b: u8)
    requires Typed(s)
    ensures var t := RxByte(s, b); Typed(t)
    ensures var t := RxByte(s, b);
            (b == 13 || b == 10) ==> t.line == s.line && t.len == s.len && (t.ready <==> s.ready || s.len > 0)
    ensures var t := RxByte(s, b);
            (b == 8 || b == 0x7F) ==> t.line == s.line && t.ready == s.ready && t.len == Max(0, s.len - 1)
    ensures var t := RxByte(s, b);
            !Printable(b) && b !in {8, 10, 13, 0x7F} ==> t == s
    ensures var t := RxByte(s, b);
            Printable(b) && s.len < CLI_LINE_MAX - 1 ==>
              t.len == s.len + 1 && t.line[..t.len] == s.line[..s.len] + [b as char]
              && Terminated(t) && t.ready == s.ready
    ensures var t := RxByte(s, b);
            Printable(b) && s.len == CLI_LINE_MAX - 1 ==> t == s.(len := 0)
  {
    var t := RxByte(s, b);
    if Printable(b) && s.len < CLI_LINE_MAX - 1 {
      assert t.line[..t.len] == s.line[..s.len] + [b as char];
    }
  }

  /** The copied command always starts with the typed characters, and is
    * exactly them when the terminator sits at len. */
  lemma CopiedLine(s: LineState)
    requires Typed(s)
    ensures |Copied(s.line)| >= s.len && Copied(s.line)[..s.len] == s.line[..s.len]
    ensures Terminated(s) ==> Copied(s.line) == s.line[..s.len]
  {
    var l := s.line[..CLI_LINE_MAX - 1];
    if s.len < CLI_LINE_MAX - 1 {
      CStrPrefix(l, s.len);
      assert l[..s.len] == s.line[..s.len];
      if Terminated(s) {
        assert l[s.len..][0] == '\0';
      }
    } else {
      CStrPrefix(l, s.len);
      assert l[..s.len] == s.line[..s.len];
      assert l[s.len..] == [];
    }
  }

  /** Backspace does not erase: after typing c on a terminated line, a
    * backspace brings len back, but the command copied on the next CR or LF
    * still ends with c. */
  lemma BackspaceKeepsErased(s: LineState, c: u8)
    requires Typed(s) && Terminated(s) && s.len < CLI_LINE_MAX - 1 && Printable(c)
    ensures var t := RxByte(RxByte(s, c), 8);
            t.len == s.len && Copied(t.line) == s.line[..s.len] + [c as char]
  {
    var u := RxByte(s, c);
    RxByteMeaning(s, c);
    CopiedLine(u);
    RxByteMeaning(u, 8);
  }

  /** The line state of cli.c. */
  class LineBuffer {
    const line: array<char>
    var linelen: u16
    var line_ready: bool

    ghost predicate Valid()
      reads this
    {
      line.Length == CLI_LINE_MAX && linelen < CLI_LINE_MAX
    }

    function State(): (s: LineState)
      requires Valid()
      reads this, line
      ensures Wf(s)
    {
      LineState(line[..], linelen, line_ready)
    }

    /** The zero-initialised static buffer. */
    constructor ()
      ensures Valid() && fresh(line) && State() == InitialLine()
    {
      line := new char[CLI_LINE_MAX](_ => '\0');
      linelen := 0;
      line_ready := false;
    }

    /** cli_on_rx_byte, called from the receive interrupt. */
    method OnRxByte(b: u8)
      requires Valid()
      modifies line, this`linelen, this`line_ready
      ensures Valid() && State() == RxByte(old(State()), b)
    {
      if b == 13 || b == 10 {
        if linelen > 0 {
          line_ready := true;
        }
        return;
      }
      if b == 0x08 || b == 0x7F {
        if linelen > 0 {
          linelen := linelen - 1;
        }
        return;
      }
      if b < 0x20 || b > 0x7E {
        return;
      }
      if linelen < CLI_LINE_MAX - 1 {
        line[linelen] := b as char;
        linelen := linelen + 1;
        line[linelen] := '\0';
      } else {
        linelen := 0;
      }
    }

    /** cli_poll up to the call of the interpreter: a ready line is copied
      * out, the flag cleared and the length reset; the buffer itself is not
      * cleared. Without a ready line nothing happens. */
    method Poll() returns (cmd: Option<seq<char>>)
      requires Valid()
      modifies this`linelen, this`line_ready
      ensures Valid() && line[..] == old(line[..])
      ensures !old(line_ready) ==> cmd == None && linelen == old(linelen) && !line_ready
      ensures old(line_ready) ==> cmd == Some(Copied(old(line[..]))) && linelen == 0 && !line_ready
    {
      if !line_ready {
        return None;
      }
      line_ready := false;
      var local := CStr(line[..CLI_LINE_MAX - 1]);
      linelen := 0;
      cmd := Some(local);
    }
  }

  // ---------------------------------------------------------------------
  // The software moving-average filter
  // ---------------------------------------------------------------------

  /** x[idx], or 0 before the first sample. */
  function Tap(x: seq<int>, idx: int): int
  {
    if 0 <= idx < |x| then x[idx] else 0
  }

  /** The sum of the k most recent samples up to i: x[i] + ... + x[i-k+1]. */
  function TapSum(x: seq<int>, i: int, k: nat): int
  {
    if k == 0 then 0 else TapSum(x, i, k - 1) + Tap(x, i - (k - 1))
  }

  /** Output i of the 32-tap moving average: the window sum shifted right by
    * five (arithmetically). */
  function MovingAverage(x: seq<int>, i: int): int
  {
    Asr(TapSum(x, i, FMAC_TAPS), 5)
  }

  predicate AllI16(x: seq<int>)
  {
    forall j :: 0 <= j < |x| ==> IsI16(x[j])
  }

  lemma {:induction false} TapSumBound(x: seq<int>, i: int, k: nat)
    requires AllI16(x)
    ensures -32768 * k <= TapSum(x, i, k) <= 32767 * k
  {
    if k > 0 {
      TapSumBound(x, i, k - 1);
    }
  }

  lemma Pow2Five()
    ensures Pow2(5) == 32
  {
  }

  /** The average of int16_t samples is an int16_t: the saturation to
    * [-32768, 32767] never changes a value. */
  lemma MovingAverageFits(x: seq<int>, i: int)
    requires AllI16(x)
    ensures IsI16(MovingAverage(x, i))
  {
    TapSumBound(x, i, FMAC_TAPS);
    Pow2Five();
  }

  /** With constant samples c up to i, the window holds min(i + 1, k) of them. */
  lemma {:induction false} TapSumConst(x: seq<int>, c: int, i: int, k: nat)
    requires 0 <= i < |x| && forall j :: 0 <= j <= i ==> x[j] == c
    ensures TapSum(x, i, k) == Min(i + 1, k) * c
  {
    if k > 0 {
      TapSumConst(x, c, i, k - 1);
    }
  }

  /** Step response: while the window fills, output i is ((i + 1) * c) >> 5;
    * from output 31 on it is c itself. */
  lemma ConstantResponse(x: seq<int>, c: int, i: int)
    requires 0 <= i < |x| && forall j :: 0 <= j <= i ==> x[j] == c
    ensures i < FMAC_TAPS - 1 ==> MovingAverage(x, i) == Asr((i + 1) * c, 5)
    ensures i >= FMAC_TAPS - 1 ==> MovingAverage(x, i) == c
  {
    TapSumConst(x, c, i, FMAC_TAPS);
    Pow2Five();
  }

  /** With an impulse v at sample 0 and zeros after it up to i, the window sum
    * is v while sample 0 is in the window. */
  lemma {:induction false} TapSumImpulse(x: seq<int>, v: int, i: int, k: nat)
    requires 0 <= i < |x| && x[0] == v && forall j :: 0 < j <= i ==> x[j] == 0
    ensures TapSum(x, i, k) == if i < k then v else 0
  {
    if k > 0 {
      TapSumImpulse(x, v, i, k - 1);
    }
  }

  /** Impulse response to half scale: 512 for the first 32 outputs, 0 after. */
  lemma ImpulseResponse(x: seq<int>, i: int)
    requires 0 <= i < |x| && x[0] == 16384 && forall j :: 0 < j <= i ==> x[j] == 0
    ensures MovingAverage(x, i) == if i < FMAC_TAPS then 512 else 0
  {
    TapSumImpulse(x, 16384, i, FMAC_TAPS);
    Pow2Five();
  }

  /** fir_soft_q15_ma32: y[i] is the moving average of x at i, for i < n;
    * the rest of y is untouched. */
  method FirSoftQ15Ma32(x: array<i16>, y: array<i16>, n: u32)
    requires n <= x.Length && n <= y.Length && x != y
    modifies y
    ensures forall i :: 0 <= i < n ==> y[i] == MovingAverage(x[..], i)
    ensures forall i :: n <= i < y.Length ==> y[i] == old(y[i])
  {
    var i: int := 0;
    while i < n
      invariant 0 <= i <= n
      invariant forall j :: 0 <= j < i ==> y[j] == MovingAverage(x[..], j)
      invariant forall j :: n <= j < y.Length ==> y[j] == old(y[j])
    {
      var acc := 0;
      var k := 0;
      while k < FMAC_TAPS
        invariant 0 <= k <= FMAC_TAPS
        invariant acc == TapSum(x[..], i, k)
      {
        var idx := i - k;
        var xv := if idx >= 0 then x[idx] else 0;
        acc := acc + xv;
        k := k + 1;
      }
      acc := Asr(acc, 5);
      MovingAverageFits(x[..], i);
      if acc > 32767 {
        acc := 32767;
      }
      if acc < -32768 {
        acc := -32768;
      }
      y[i] := acc;
      i := i + 1;
    }
  }

  // ---------------------------------------------------------------------
  // The pseudo-random test input
  // ---------------------------------------------------------------------

  /** The generator step, modulo 2^32. */
  function LcgNext(s: int): (r: int)
    ensures IsU32(r)
  {
    U32(1664525 * s + 1013904223)
  }

  /** The state after k steps. */
  function LcgIter(s: int, k: nat): int
  {
    if k == 0 then s else LcgNext(LcgIter(s, k - 1))
  }

  /** Stepping k then m times is stepping k + m times. */
  lemma {:induction false} LcgIterAdd(s: int, k: nat, m: nat)
    ensures LcgIter(LcgIter(s, k), m) == LcgIter(s, k + m)
  {
    if m > 0 {
      LcgIterAdd(s, k, m - 1);
    }
  }

  /** The sample drawn from a state: its upper half centred, then halved
    * with an arithmetic shift. */
  function PrngSample(s: int): int
    requires IsU32(s)
  {
    Asr(s / TWO16 - 32768, 1)
  }

  /** The sample is bits 17..31 of the state moved to [-16384, 16383], so it
    * fits int32_t and int16_t on the way, and both ends are reached. */
  lemma PrngSampleRange(s: int)
    requires IsU32(s)
    ensures PrngSample(s) == s / 0x2_0000 - 16384
    ensures -16384 <= PrngSample(s) <= 16383
    ensures PrngSample(0) == -16384 && PrngSample(TWO32 - 1) == 16383
  {
    var h := s / TWO16;
    Pow2Values();
    assert Pow2(1) == 2;
    var v := Asr(h - 32768, 1);
    assert 2 * v <= h - 32768 < 2 * v + 2;
    assert s / 0x2_0000 == h / 2;
  }

  /** The generator state and the sample buffers of the benchmarks. */
  class Bench {
    var lcg_state: u32
    const g_x: array<i16>
    const g_y_soft: array<i16>

    ghost predicate Valid()
      reads this
    {
      g_x.Length == FMAC_INPUT_N && g_y_soft.Length == FMAC_INPUT_N && g_x != g_y_soft
    }

    /** The static state: seed 1, buffers zero. */
    constructor ()
      ensures Valid() && fresh(g_x) && fresh(g_y_soft) && lcg_state == 1
      ensures forall i :: 0 <= i < FMAC_INPUT_N ==> g_x[i] == 0 && g_y_soft[i] == 0
    {
      lcg_state := 1;
      g_x := new i16[FMAC_INPUT_N](_ => 0);
      g_y_soft := new i16[FMAC_INPUT_N](_ => 0);
    }

    /** prng_q15: advances the state one step and returns the sample of the
      * new state. */
    method PrngQ15() returns (v: i16)
      modifies this`lcg_state
      ensures lcg_state == LcgNext(old(lcg_state)) && v == PrngSample(lcg_state)
      ensures -16384 <= v <= 16383
    {
      lcg_state := U32(1664525 * lcg_state + 1013904223);
      PrngSampleRange(lcg_state);
      var w := lcg_state / TWO16 - 32768;
      v := Asr(w, 1);
    }

    /** gen_input: fills the first min(n, 5000) inputs with successive
      * samples. */
    method GenInput(n: u32)
      requires Valid()
      modifies g_x, this`lcg_state
      ensures var m := Min(n, FMAC_INPUT_N);
              lcg_state == LcgIter(old(lcg_state), m)
              && (forall i :: 0 <= i < m ==> g_x[i] == PrngSample(LcgIter(old(lcg_state), i + 1)))
              && (forall i :: m <= i < FMAC_INPUT_N ==> g_x[i] == old(g_x[i]))
    {
      var m := n;
      if m > FMAC_INPUT_N {
        m := FMAC_INPUT_N;
      }
      var i := 0;
      while i < m
        invariant 0 <= i <= m && lcg_state == LcgIter(old(lcg_state), i)
        invariant forall j :: 0 <= j < i ==> g_x[j] == PrngSample(LcgIter(old(lcg_state), j + 1))
        invariant forall j :: i <= j < FMAC_INPUT_N ==> g_x[j] == old(g_x[j])
      {
        var v := PrngQ15();
        g_x[i] := v;
        i := i + 1;
      }
    }

    /** bench_soft_fir without the cycle counter: filters the first n inputs. */
    method BenchSoftFir(n: u32)
      requires Valid() && n <= FMAC_INPUT_N
      modifies g_y_soft
      ensures forall i :: 0 <= i < n ==> g_y_soft[i] == MovingAverage(g_x[..], i)
      ensures forall i :: n <= i < FMAC_INPUT_N ==> g_y_soft[i] == old(g_y_soft[i])
    {
      FirSoftQ15Ma32(g_x, g_y_soft, n);
    }

    /** The software half of fmacdbg's first test: 64 samples of 1000. */
    method FmacDbgConstant()
      requires Valid()
      modifies g_x, g_y_soft
      ensures forall i :: 0 <= i < 64 ==> g_x[i] == 1000
      ensures forall i :: 0 <= i < 64 ==>
                g_y_soft[i] == if i < FMAC_TAPS - 1 then Asr((i + 1) * 1000, 5) else 1000
    {
      var n := 64;
      var i := 0;
      while i < n
        invariant 0 <= i <= n && forall j :: 0 <= j < i ==> g_x[j] == 1000
      {
        g_x[i] := 1000;
        i := i + 1;
      }
      BenchSoftFir(n);
      forall i | 0 <= i < 64
        ensures g_y_soft[i] == if i < FMAC_TAPS - 1 then Asr((i + 1) * 1000, 5) else 1000
      {
        ConstantResponse(g_x[..], 1000, i);
      }
    }

    /** The software half of fmacdbg's second test: an impulse of 16384
      * followed by 63 zeros. */
    method FmacDbgImpulse()
      requires Valid()
      modifies g_x, g_y_soft
      ensures g_x[0] == 16384 && forall i :: 0 < i < 64 ==> g_x[i] == 0
      ensures forall i :: 0 <= i < 64 ==> g_y_soft[i] == if i < FMAC_TAPS then 512 else 0
    {
      var n := 64;
      forall i | 0 <= i < n {
        g_x[i] := 0;
      }
      g_x[0] := 16384;
      BenchSoftFir(n);
      forall i | 0 <= i < 64
        ensures g_y_soft[i] == if i < FMAC_TAPS then 512 else 0
      {
        ImpulseResponse(g_x[..], i);
      }
    }
  }

  // ---------------------------------------------------------------------
  // adcdump
  // ---------------------------------------------------------------------

  /** How many entries adcdump lists: the argument (the value strtoul read,
    * 0 when there is none), 32 by default, at most the log size and at most
    * the number of samples logged since the last reset. */
  function DumpCount(arg: int, end: int): (n: int)
    requires IsU32(arg) && IsU32(end)
    ensures 0 <= n <= FmacRt.FMAC_RT_LOG_SIZE && n <= end
    ensures n == Min(Min(if arg == 0 then 32 else arg, FmacRt.FMAC_RT_LOG_SIZE), end)
  {
    var n := if arg == 0 then 32 else arg;
    var n := if n > FmacRt.FMAC_RT_LOG_SIZE then FmacRt.FMAC_RT_LOG_SIZE else n;
    if end < n then end else n
  }

  /** The log slot of line i: (end - n + i) mod 256 in uint32_t arithmetic. */
  function DumpSlot(end: int, n: int, i: int): (k: int)
    ensures 0 <= k < FmacRt.FMAC_RT_LOG_SIZE
  {
    U32(end - n + i) % FmacRt.FMAC_RT_LOG_SIZE
  }

  /** The entries adcdump lists, oldest first. */
  method AdcDump(rt: FmacRt.FmacRt, arg: u32) returns (rows: seq<FmacRt.Sample>)
    requires rt.Valid()
    ensures |rows| == DumpCount(arg, rt.fmac_rt_log_idx)
    ensures forall i :: 0 <= i < |rows| ==> rows[i] == rt.fmac_rt_log[DumpSlot(rt.fmac_rt_log_idx, |rows|, i)]
  {
    var n := DumpCount(arg, rt.fmac_rt_log_idx);
    var end := rt.fmac_rt_log_idx;
    rows := [];
    var i := 0;
    while i < n
      invariant 0 <= i <= n && |rows| == i
      invariant forall j :: 0 <= j < i ==> rows[j] == rt.fmac_rt_log[DumpSlot(end, n, j)]
    {
      var idx := U32(end - n + i) % FmacRt.FMAC_RT_LOG_SIZE;
      rows := rows + [rt.fmac_rt_log[idx]];
      i := i + 1;
    }
  }

  /** Since a reset of the log index, fewer than 2^32 feeds: the dump lists
    * exactly the last n samples fed, oldest first. */
  lemma DumpIsLatest(log0: seq<FmacRt.Sample>, xs: seq<FmacRt.Sample>, arg: int)
    requires |log0| == FmacRt.FMAC_RT_LOG_SIZE && |xs| < TWO32 && IsU32(arg)
    ensures var n := DumpCount(arg, |xs|);
            forall i :: 0 <= i < n ==>
              FmacRt.Logged(log0, 0, xs)[DumpSlot(|xs|, n, i)] == xs[|xs| - n + i]
  {
    var n := DumpCount(arg, |xs|);
    FmacRt.LogHoldsLatest(log0, 0, xs);
    forall i | 0 <= i < n
      ensures FmacRt.Logged(log0, 0, xs)[DumpSlot(|xs|, n, i)] == xs[|xs| - n + i]
    {
      var j := |xs| - n + i;
      assert 0 <= j < |xs| && |xs| - j <= FmacRt.FMAC_RT_LOG_SIZE;
      assert DumpSlot(|xs|, n, i) == U32(0 + j) % FmacRt.FMAC_RT_LOG_SIZE;
    }
  }
}
