// The bare-metal application loop: a once-a-second uptime heartbeat driven by
// the millisecond tick, and a one-byte-per-call command line that knows the
// commands help and status.
module AppMain {
  import opened CInt
  import opened CText

  const CMD_BUF := 64
  const CMD_MAX := 63
  const BEAT_MS := 1000

  /** The log lines the loop emits, by kind. */
  datatype Log = UptimeLine(s: int) | HelpLines | StatusLine(s: int) | UnknownCmd(cmd: seq<char>) | OverflowWarn

  /** handle_cmd: nothing for a null or empty command, help and status
    * answer, anything else is reported as unknown. */
  function HandleCmd(cmd: Option<seq<char>>, uptime: int): (r: seq<Log>)
  {
    match cmd
    case None => []
    case Some(c) =>
      if c == [] then []
      else if c == "help" then [HelpLines]
      else if c == "status" then [StatusLine(uptime)]
      else [UnknownCmd(c)]
  }

  lemma HandleCmdMeaning(cmd: seq<char>, uptime: int)
    ensures HandleCmd(Some(cmd), uptime) == [] <==> cmd == []
    ensures HandleCmd(Some(cmd), uptime) == [HelpLines] <==> cmd == "help"
    ensures HandleCmd(Some(cmd), uptime) == [StatusLine(uptime)] <==> cmd == "status"
    ensures cmd != [] && cmd != "help" && cmd != "status" ==> HandleCmd(Some(cmd), uptime) == [UnknownCmd(cmd)]
    ensures HandleCmd(None, uptime) == []
  {
  }

  /** The heartbeat's statics. */
  datatype Beat = Beat(uptime: int, last: int)

  /** Step 1 of app_loop: when a second or more has passed since the last
    * beat (in unsigned 32-bit arithmetic), advance the beat by exactly one
    * second and count one more second of uptime. */
  function Heartbeat(b: Beat, now: int): (Beat, seq<Log>)
  {
    if U32(now - b.last) >= BEAT_MS then
      var up := U32(b.uptime + 1);
      (Beat(up, U32(b.last + BEAT_MS)), [UptimeLine(up)])
    else (b, [])
  }

  /** A heartbeat that falls behind catches up one second per call: with the
    * tick standing still d ms after the last beat, each of the first d / 1000
    * calls adds exactly one second and shrinks the gap by 1000 ms. */
  function Beats(b: Beat, now: int, k: nat): Beat
  {
    if k == 0 then b else Heartbeat(Beats(b, now, k - 1), now).0
  }

  lemma {:induction false} CatchUp(b: Beat, now: int, k: nat)
    requires IsU32(b.uptime) && IsU32(b.last) && BEAT_MS * k <= U32(now - b.last)
    ensures Beats(b, now, k) == Beat(U32(b.uptime + k), U32(b.last + BEAT_MS * k))
  {
    if k > 0 {
      var j := k - 1;
      CatchUp(b, now, j);
      Gap(now, b.last, j);
      BeatStep(b, now, j);
    }
  }

  /** One more due beat after j caught-up ones. */
  lemma BeatStep(b: Beat, now: int, j: nat)
    requires Beats(b, now, j) == Beat(U32(b.uptime + j), U32(b.last + BEAT_MS * j))
    requires U32(now - U32(b.last + BEAT_MS * j)) >= BEAT_MS
    ensures Beats(b, now, j + 1) == Beat(U32(b.uptime + (j + 1)), U32(b.last + BEAT_MS * (j + 1)))
  {
    var c := Beats(b, now, j);
    assert Beats(b, now, j + 1) == Heartbeat(c, now).0;
    Fires(c, now);
    Bump(c.uptime, b.uptime + j, 1);
    Bump(c.last, b.last + BEAT_MS * j, BEAT_MS);
  }

  /** Adding to a wrapped value wraps like adding to the unwrapped one. */
  lemma Bump(x: int, a: int, d: int)
    requires x == U32(a)
    ensures U32(x + d) == U32(a + d)
  {
    U32AddWrap(a, d);
  }

  /** After k due beats the gap to the standing tick is k seconds smaller. */
  lemma CaughtUp(b: Beat, now: int, k: nat)
    requires IsU32(b.uptime) && IsU32(b.last) && BEAT_MS * k <= U32(now - b.last)
    ensures U32(now - Beats(b, now, k).last) == U32(now - b.last) - BEAT_MS * k
  {
    CatchUp(b, now, k);
    Gap(now, b.last, k);
  }

  /** A beat is due a second or more after the last one. */
  lemma Fires(c: Beat, now: int)
    requires U32(now - c.last) >= BEAT_MS
    ensures Heartbeat(c, now).0 == Beat(U32(c.uptime + 1), U32(c.last + BEAT_MS))
  {
  }

  /** After k beats of the last, the gap to now has shrunk by k seconds. */
  lemma Gap(now: int, last: int, k: nat)
    requires BEAT_MS * k <= U32(now - last)
    ensures U32(now - U32(last + BEAT_MS * k)) == U32(now - last) - BEAT_MS * k
  {
    var d := U32(now - last);
    U32SubWrap(now, last + BEAT_MS * k);
    var q := (now - last) / TWO32;
    assert now - last == q * TWO32 + d;
    ModUnique(now - (last + BEAT_MS * k), TWO32, q, d - BEAT_MS * k);
  }

  /** The line with its trailing spaces removed (tabs are kept). */
  function StripSpaces(p: seq<char>): (r: seq<char>)
    ensures |r| <= |p| && r == p[..|r|]
    ensures forall k :: |r| <= k < |p| ==> p[k] == ' '
    ensures r == [] || r[|r| - 1] != ' '
  {
    if p != [] && p[|p| - 1] == ' ' then StripSpaces(p[..|p| - 1]) else p
  }

  lemma StripIdempotent(p: seq<char>)
    ensures StripSpaces(StripSpaces(p)) == StripSpaces(p)
  {
  }

  /** Step 2 of app_loop for one received byte, on the pending line p:
    * CR or LF strips trailing spaces and dispatches, anything else is
    * appended while there is room, and on a full line the line is thrown
    * away (the byte with it). */
  function RxChar(p: seq<char>, c: char, uptime: int): (seq<char>, seq<Log>)
  {
    if c == '\r' || c == '\n' then ([], HandleCmd(Some(CStr(StripSpaces(p))), uptime))
    else if |p| < CMD_MAX then (p + [c], [])
    else ([], [OverflowWarn])
  }

  lemma RxCharMeaning(p: seq<char>, c: char, uptime: int)
    requires |p| <= CMD_MAX
    ensures |RxChar(p, c, uptime).0| <= CMD_MAX
    ensures (c == '\r' || c == '\n') ==> RxChar(p, c, uptime).0 == []
    ensures c != '\r' && c != '\n' && |p| == CMD_MAX ==> RxChar(p, c, uptime) == ([], [OverflowWarn])
  {
  }

  /** A typed line without CR or LF that fits, then its end, dispatches
    * the line without its trailing spaces. */
  lemma {:induction false} TypedCommand(p: seq<char>, s: seq<char>, eol: char, uptime: int)
    requires |p| + |s| <= CMD_MAX
    requires forall k :: 0 <= k < |s| ==> s[k] != '\r' && s[k] != '\n'
    requires eol == '\r' || eol == '\n'
    ensures Typed(p, s + [eol], uptime) == ([], HandleCmd(Some(CStr(StripSpaces(p + s))), uptime))
    decreases |s|
  {
    var cs := s + [eol];
    if s == [] {
      assert p + s == p && cs[1..] == [];
      var none: seq<Log> := [];
      var l := HandleCmd(Some(CStr(StripSpaces(p))), uptime);
      assert Typed(p, cs, uptime) == ([], l + none);
      assert l + none == l;
    } else {
      assert cs[0] == s[0] && cs[1..] == s[1..] + [eol];
      assert RxChar(p, s[0], uptime) == (p + [s[0]], []);
      TypedCommand(p + [s[0]], s[1..], eol, uptime);
      assert p + [s[0]] + s[1..] == p + s;
      var r := Typed(p + [s[0]], cs[1..], uptime);
      var none: seq<Log> := [];
      assert Typed(p, cs, uptime) == (r.0, none + r.1);
      assert none + r.1 == r.1;
    }
  }

  /** Bytes in order on the pending line, the uptime held still. */
  function Typed(p: seq<char>, cs: seq<char>, uptime: int): (seq<char>, seq<Log>)
    decreases |cs|
  {
    if cs == [] then (p, [])
    else
      var (p1, l1) := RxChar(p, cs[0], uptime);
      var (p2, l2) := Typed(p1, cs[1..], uptime);
      (p2, l1 + l2)
  }

  class App {
    var s_uptime_s: u32
    var s_last_beat_ms: u32
    const s_cmd_buf: array<char>
    var s_cmd_len: int

    ghost predicate Valid()
      reads this
    {
      s_cmd_buf.Length == CMD_BUF && 0 <= s_cmd_len <= CMD_MAX
    }

    function BeatState(): Beat
      reads this
    {
      Beat(s_uptime_s, s_last_beat_ms)
    }

    function Pending(): seq<char>
      reads this, s_cmd_buf
      requires Valid()
    {
      s_cmd_buf[..s_cmd_len]
    }

    constructor ()
      ensures Valid() && BeatState() == Beat(0, 0) && Pending() == []
    {
      s_uptime_s := 0;
      s_last_beat_ms := 0;
      s_cmd_buf := new char[CMD_BUF](_ => '\0');
      s_cmd_len := 0;
    }

    /** app_init: the heartbeat starts from the current tick. */
    method AppInit(now: u32)
      modifies this`s_last_beat_ms
      ensures BeatState() == old(BeatState()).(last := now)
    {
      s_last_beat_ms := now;
    }

    method Beat1(now: u32) returns (logs: seq<Log>)
      modifies this`s_uptime_s, this`s_last_beat_ms
      ensures (BeatState(), logs) == Heartbeat(old(BeatState()), now)
    {
      logs := [];
      if U32(now - s_last_beat_ms) >= 1000 {
        s_last_beat_ms := U32(s_last_beat_ms + 1000);
        s_uptime_s := U32(s_uptime_s + 1);
        logs := [UptimeLine(s_uptime_s)];
      }
    }

    /** The strip loop: trailing spaces become NULs. */
    method StripLine()
      requires Valid() && s_cmd_buf[s_cmd_len] == '\0'
      modifies this`s_cmd_len, s_cmd_buf
      ensures Valid() && Pending() == StripSpaces(old(Pending())) && s_cmd_buf[s_cmd_len] == '\0'
    {
      ghost var p := Pending();
      while s_cmd_len > 0 && s_cmd_buf[s_cmd_len - 1] == ' '
        invariant Valid() && s_cmd_len <= |p| && Pending() == p[..s_cmd_len]
        invariant s_cmd_buf[s_cmd_len] == '\0'
        invariant StripSpaces(p) == StripSpaces(Pending())
      {
        assert Pending()[..s_cmd_len - 1] == p[..s_cmd_len - 1];
        s_cmd_len := s_cmd_len - 1;
        s_cmd_buf[s_cmd_len] := '\0';
      }
    }

    method Rx(ch: u8) returns (logs: seq<Log>)
      requires Valid()
      modifies this`s_cmd_len, s_cmd_buf
      ensures Valid() && (Pending(), logs) == RxChar(old(Pending()), ch as char, s_uptime_s)
    {
      var c := ch as char;
      logs := [];
      if c == '\r' || c == '\n' {
        s_cmd_buf[s_cmd_len] := '\0';
        assert Pending() == old(Pending());
        StripLine();
        ghost var buf := s_cmd_buf[..];
        assert buf[..s_cmd_len] == StripSpaces(old(Pending()));
        CStrCut(buf, s_cmd_len);
        var cmd := CStr(s_cmd_buf[..]);
        logs := HandleCmd(Some(cmd), s_uptime_s);
        s_cmd_len := 0;
      } else {
        if s_cmd_len < CMD_BUF - 1 {
          s_cmd_buf[s_cmd_len] := c;
          s_cmd_len := s_cmd_len + 1;
          assert Pending() == old(Pending()) + [c];
        } else {
          s_cmd_len := 0;
          logs := [OverflowWarn];
        }
      }
    }

    /** app_loop, given the tick and what platform_uart_read_byte returned
      * (at most one byte per call). */
    method AppLoop(now: u32, rx: Option<u8>) returns (logs: seq<Log>)
      requires Valid()
      modifies this, s_cmd_buf
      ensures Valid()
      ensures var (b, l1) := Heartbeat(old(BeatState()), now);
        BeatState() == b
        && match rx
           case None => Pending() == old(Pending()) && logs == l1
           case Some(ch) =>
             var (p, l2) := RxChar(old(Pending()), ch as char, b.uptime);
             Pending() == p && logs == l1 + l2
    {
      logs := Beat1(now);
      if rx.Some? {
        var more := Rx(rx.value);
        logs := logs + more;
      }
    }
  }
}
