// The UART command line of the breathing-LED firmware: it edits one line from
// the received bytes, trims it in place and turns it into commands queued to
// the breathe task.
module AppCli {
  import opened CInt
  import opened CText
  import opened Breathe

  /** g_line holds 64 chars, so a line has at most 63 before its NUL. */
  const LINE_BUF := 64
  const LINE_MAX := 63

  predicate IsBlank(c: char) { c == ' ' || c == '\t' }

  /** The string without its trailing spaces and tabs. */
  function TrimEnd(x: seq<char>): (r: seq<char>)
    ensures |r| <= |x| && r == x[..|r|]
    ensures forall k :: |r| <= k < |x| ==> IsBlank(x[k])
    ensures r == [] || !IsBlank(r[|r| - 1])
  {
    if x != [] && IsBlank(x[|x| - 1]) then TrimEnd(x[..|x| - 1]) else x
  }

  /** The string without its leading spaces and tabs. */
  function TrimStart(x: seq<char>): (r: seq<char>)
    ensures |r| <= |x| && r == x[|x| - |r|..]
    ensures forall k :: 0 <= k < |x| - |r| ==> IsBlank(x[k])
    ensures r == [] || !IsBlank(r[0])
  {
    if x != [] && IsBlank(x[0]) then TrimStart(x[1..]) else x
  }

  /** trim: trailing blanks first, then leading ones. */
  function Trimmed(x: seq<char>): seq<char>
  {
    TrimStart(TrimEnd(x))
  }

  /** The trimmed string is a slice of the original with only blanks cut
    * away on each side, and it has no blank at either end. */
  lemma TrimmedShape(x: seq<char>)
    ensures var e := |TrimEnd(x)|; var a := e - |Trimmed(x)|;
      0 <= a <= e <= |x| && Trimmed(x) == x[a..e]
      && (forall k :: 0 <= k < a ==> IsBlank(x[k]))
      && (forall k :: e <= k < |x| ==> IsBlank(x[k]))
    ensures Trimmed(x) == [] || (!IsBlank(Trimmed(x)[0]) && !IsBlank(Trimmed(x)[|Trimmed(x)| - 1]))
  {
    var e := TrimEnd(x);
    var t := TrimStart(e);
    var a := |e| - |t|;
    assert e == x[..|e|];
    assert t == e[a..];
    assert x[..|e|][a..] == x[a..|e|];
    forall k | 0 <= k < a
      ensures IsBlank(x[k])
    {
      assert x[k] == e[k];
    }
    if t != [] {
      assert t[|t| - 1] == e[|e| - 1];
    }
  }

  /** A string with no blank at either end is its own trim; in particular
    * trim is idempotent. */
  lemma TrimmedFixed(x: seq<char>)
    requires x == [] || (!IsBlank(x[0]) && !IsBlank(x[|x| - 1]))
    ensures Trimmed(x) == x
  {
  }

  lemma TrimIdempotent(x: seq<char>)
    ensures Trimmed(Trimmed(x)) == Trimmed(x)
  {
    TrimmedShape(x);
    TrimmedFixed(Trimmed(x));
  }

  /** Trimming a C string leaves no NUL in it. */
  lemma TrimmedNoNul(x: seq<char>)
    requires '\0' !in x
    ensures '\0' !in Trimmed(x)
  {
    TrimmedShape(x);
  }

  /** The first loop of trim: from the string's length n, turn trailing
    * blanks into NULs; the buffer keeps the string without them. */
  method TrimTrailing(s: array<char>, n0: int) returns (n: int)
    requires 0 <= n0 < s.Length && s[n0] == '\0'
    modifies s
    ensures 0 <= n <= n0 && s[..n] == TrimEnd(old(s[..n0])) && s[n] == '\0'
  {
    ghost var str := s[..n0];
    n := n0;
    while n > 0 && (s[n - 1] == ' ' || s[n - 1] == '\t')
      invariant 0 <= n <= n0
      invariant s[..n] == str[..n] && s[n] == '\0'
      invariant TrimEnd(str) == TrimEnd(str[..n])
    {
      assert str[..n][..n - 1] == str[..n - 1];
      n := n - 1;
      s[n] := '\0';
    }
  }

  /** The second loop of trim: the number of leading blanks of s[..n]. */
  method LeadingBlanks(s: array<char>, n: int) returns (i: int)
    requires 0 <= n < s.Length && s[n] == '\0'
    ensures 0 <= i <= n && TrimStart(s[..n]) == s[i..n]
  {
    ghost var e := s[..n];
    i := 0;
    while s[i] == ' ' || s[i] == '\t'
      invariant 0 <= i <= n
      invariant TrimStart(e) == TrimStart(e[i..])
      decreases n - i
    {
      assert e[i..][1..] == e[i + 1..];
      i := i + 1;
    }
    assert e[i..] == s[i..n];
  }

  /** memmove(s, s + i, n - i + 1): shift s[i..n] and its NUL to the front. */
  method MoveLeft(s: array<char>, i: int, n: int)
    requires 0 <= i <= n < s.Length
    modifies s
    ensures s[..n - i + 1] == old(s[i..n + 1])
  {
    ghost var b := s[..];
    var k := 0;
    while k <= n - i
      invariant 0 <= k <= n - i + 1
      invariant forall j :: 0 <= j < k ==> s[j] == b[i + j]
      invariant forall j :: k <= j < s.Length ==> s[j] == b[j]
    {
      s[k] := s[i + k];
      k := k + 1;
    }
  }

  /** The rest of trim: find the leading blanks of the string s[..n] and
    * move what follows them, with the NUL, to the front. */
  method ShiftOutLeading(s: array<char>, n: int)
    requires 0 <= n < s.Length && s[n] == '\0'
    modifies s
    ensures var t := TrimStart(old(s[..n])); s[..|t|] == t && s[|t|] == '\0'
  {
    var i := LeadingBlanks(s, n);
    if i > 0 {
      MoveLeft(s, i, n);
      assert s[..n - i] == s[..n - i + 1][..n - i];
    }
  }

  /** trim on a NUL-terminated buffer: the trailing blanks become NULs, then
    * the rest is moved left over the leading blanks. The buffer afterwards
    * holds the trimmed string followed by a NUL. */
  method Trim(s: array<char>, ghost end: int)
    requires 0 <= end < s.Length && s[end] == '\0'
    modifies s
    ensures var t := Trimmed(CStr(old(s[..])));
      |t| < s.Length && s[..|t|] == t && s[|t|] == '\0' && CStr(s[..]) == t
  {
    var n0 := Strlen(s, end);
    ghost var str := s[..n0];
    assert str == CStr(s[..]);
    TrimmedNoNul(str);
    var n := TrimTrailing(s, n0);
    ShiftOutLeading(s, n);
    CStrTerminated(s[..], |Trimmed(str)|);
  }

  // atoi, as C's strtol in base 10: leading white space, a sign, then the
  // digits up to the first character that is not one, saturated to int.

  predicate IsSpace(c: char)
  {
    c == ' ' || c == '\t' || c == '\n' || c == '\U{B}' || c == '\U{C}' || c == '\r'
  }

  function SkipSpace(s: seq<char>): (r: seq<char>)
    ensures |r| <= |s| && r == s[|s| - |r|..] && (r == [] || !IsSpace(r[0]))
  {
    if s != [] && IsSpace(s[0]) then SkipSpace(s[1..]) else s
  }

  /** The longest prefix made of decimal digits. */
  function LeadingDigits(s: seq<char>): (r: seq<char>)
    ensures |r| <= |s| && r == s[..|r|] && AllDigits(r) && (|r| < |s| ==> !IsDigit(s[|r|]))
  {
    if s != [] && IsDigit(s[0]) then [s[0]] + LeadingDigits(s[1..]) else []
  }

  function SatInt(v: int): (r: int)
    ensures IsI32(r) && (IsI32(v) ==> r == v)
  {
    if v >= TWO31 then TWO31 - 1 else if v < -TWO31 then -TWO31 else v
  }

  function Atoi(s: seq<char>): int
  {
    var t := SkipSpace(s);
    if t != [] && t[0] == '-' then SatInt(-Decimal(LeadingDigits(t[1..])))
    else if t != [] && t[0] == '+' then SatInt(Decimal(LeadingDigits(t[1..])))
    else SatInt(Decimal(LeadingDigits(t)))
  }

  /** A string of digits reads as its decimal value (saturated). */
  lemma {:induction false} LeadingDigitsAll(d: seq<char>)
    requires AllDigits(d)
    ensures LeadingDigits(d) == d
    decreases |d|
  {
    if d != [] {
      LeadingDigitsAll(d[1..]);
    }
  }

  lemma AtoiDigits(d: seq<char>)
    requires AllDigits(d)
    ensures Atoi(d) == Min(Decimal(d), TWO31 - 1)
  {
    assert d == [] || !IsSpace(d[0]);
    assert SkipSpace(d) == d;
    assert d == [] || (d[0] != '-' && d[0] != '+');
    LeadingDigitsAll(d);
    DecimalBound(d);
    assert Atoi(d) == SatInt(Decimal(d));
  }

  /** Clamping of the parsed pwm value to 0..999. */
  function DutyArg(v: int): (r: u16)
    ensures 0 <= r <= 999
    ensures 0 <= v <= 999 ==> r == v
    ensures v < 0 ==> r == 0
    ensures v > 999 ==> r == 999
  {
    if v < 0 then 0 else if v > 999 then 999 else v
  }

  function SetDuty(v: u16): BreatheMsg { BreatheMsg(CmdSetDuty, v) }

  /** The commands cli_handle_line tells apart; Pwm carries the text after
    * "pwm ". */
  datatype Command =
    | Blank | Help | Status | LedOn | LedOff | BreatheOn | BreatheOff
    | Pwm(arg: seq<char>) | Combo | Unknown

  /** cli_handle_line's comparisons on the trimmed line, in its order. */
  function Parse(cmd: seq<char>): Command
  {
    if cmd == [] then Blank
    else if cmd == "help" then Help
    else if cmd == "status" then Status
    else if cmd == "led on" then LedOn
    else if cmd == "led off" then LedOff
    else if cmd == "breathe on" then BreatheOn
    else if cmd == "breathe off" then BreatheOff
    else if |cmd| >= 4 && cmd[..4] == "pwm " then Pwm(cmd[4..])
    else if cmd == "combo" then Combo
    else Unknown
  }

  /** What each command queues to the breathe task: help and status only
    * print, and anything unmatched (save included) does nothing. */
  function Send(c: Command): seq<BreatheMsg>
  {
    match c
    case Blank => []
    case Help => []
    case Status => []
    case LedOn => [SetDuty(999)]
    case LedOff => [SetDuty(0)]
    case BreatheOn => [BreatheMsg(CmdSetEnable, 1)]
    case BreatheOff => [BreatheMsg(CmdSetEnable, 0)]
    case Pwm(arg) => [SetDuty(DutyArg(Atoi(arg)))]
    case Combo => [SetDuty(100), SetDuty(300), SetDuty(600), SetDuty(900), SetDuty(0)]
    case Unknown => []
  }

  function Messages(cmd: seq<char>): seq<BreatheMsg>
  {
    Send(Parse(cmd))
  }

  /** "pwm " followed by anything is the pwm command on what follows. */
  lemma PwmCommand(arg: seq<char>)
    ensures Parse("pwm " + arg) == Pwm(arg)
    ensures Messages("pwm " + arg) == [SetDuty(DutyArg(Atoi(arg)))]
  {
    var cmd := "pwm " + arg;
    assert cmd[..4] == "pwm " && cmd[4..] == arg;
    assert cmd[0] == 'p';
    assert cmd != "help" && cmd != "status" && cmd != "led on" && cmd != "led off";
    assert cmd != "breathe on" && cmd != "breathe off";
  }

  /** "pwm" and decimal digits queue one duty: the number, at most 999. */
  lemma PwmDigits(d: seq<char>)
    requires AllDigits(d)
    ensures var m := Messages("pwm " + d);
      |m| == 1 && m[0].kind == CmdSetDuty && m[0].value == Min(Decimal(d), 999)
  {
    PwmCommand(d);
    AtoiDigits(d);
    DecimalBound(d);
  }

  /** The exact command words, each mapped to its command. */
  lemma ParseWords()
    ensures Parse("led on") == LedOn && Parse("led off") == LedOff
    ensures Parse("breathe on") == BreatheOn && Parse("breathe off") == BreatheOff
    ensures Parse("combo") == Combo && Parse("help") == Help && Parse("status") == Status
    ensures Parse("save") == Unknown && Parse("pwm") == Unknown
  {
    assert "save"[0] != "help"[0] && "save"[..4][0] != "pwm "[0];
    assert "combo"[..4][0] != "pwm "[0];
  }

  /** Every duty sent is in 0..999 and every enable value is 0 or 1, so the
    * breathe task never has to clamp a command from this line; at most
    * five messages are sent. */
  lemma SendInRange(c: Command)
    ensures |Send(c)| <= 5
    ensures forall m :: m in Send(c) ==>
      (m.kind == CmdSetDuty ==> m.value <= 999) && (m.kind == CmdSetEnable ==> m.value <= 1)
  {
  }

  /** cli_handle_line on the NUL-terminated buffer: trim it in place, then
    * dispatch on the result. */
  method HandleLine(line: array<char>, ghost end: int) returns (msgs: seq<BreatheMsg>)
    requires 0 <= end < line.Length && line[end] == '\0'
    modifies line
    ensures CStr(line[..]) == Trimmed(CStr(old(line[..])))
    ensures msgs == Messages(Trimmed(CStr(old(line[..]))))
  {
    Trim(line, end);
    var cmd := CStr(line[..]);
    msgs := Messages(cmd);
  }

  /** The messages one completed line queues. */
  function LineMessages(line: seq<char>): seq<BreatheMsg>
  {
    Messages(Trimmed(CStr(line)))
  }

  /** The messages of several completed lines, in order. */
  function Sent(lines: seq<seq<char>>): seq<BreatheMsg>
    decreases |lines|
  {
    if lines == [] then [] else LineMessages(lines[0]) + Sent(lines[1..])
  }

  lemma {:induction false} SentAppend(a: seq<seq<char>>, b: seq<seq<char>>)
    ensures Sent(a + b) == Sent(a) + Sent(b)
    decreases |a|
  {
    if a == [] {
      assert a + b == b;
    } else {
      var x := a[0];
      assert (a + b)[0] == x && (a + b)[1..] == a[1..] + b;
      SentAppend(a[1..], b);
      calc {
        Sent(a + b);
        LineMessages(x) + Sent(a[1..] + b);
        LineMessages(x) + (Sent(a[1..]) + Sent(b));
        (LineMessages(x) + Sent(a[1..])) + Sent(b);
      }
    }
  }

  /** One received byte on a pending line: the new pending line and the
    * line it completes, if any (CR or LF on a non-empty line). */
  function Key(p: seq<char>, c: char): (seq<char>, seq<seq<char>>)
  {
    if c == '\r' || c == '\n' then
      if |p| > 0 then ([], [p]) else (p, [])
    else if c == '\U{8}' || c == '\U{7F}' then
      (if |p| > 0 then p[..|p| - 1] else p, [])
    else if |p| < LINE_MAX then (p + [c], [])
    else (p, [])
  }

  /** A run of bytes, first to last: the final pending line and the lines
    * completed on the way. */
  function Keys(p: seq<char>, cs: seq<char>): (seq<char>, seq<seq<char>>)
    decreases |cs|
  {
    if cs == [] then (p, [])
    else
      var (p1, l1) := Key(p, cs[0]);
      var (p2, l2) := Keys(p1, cs[1..]);
      (p2, l1 + l2)
  }

  /** The pending line never grows past 63 characters. */
  lemma {:induction false} KeysBounded(p: seq<char>, cs: seq<char>)
    requires |p| <= LINE_MAX
    ensures |Keys(p, cs).0| <= LINE_MAX
    decreases |cs|
  {
    if cs != [] {
      KeysBounded(Key(p, cs[0]).0, cs[1..]);
    }
  }

  predicate Ordinary(c: char)
  {
    c != '\r' && c != '\n' && c != '\U{8}' && c != '\U{7F}'
  }

  /** Typing ordinary characters that fit and then a CR or LF completes
    * the whole typed line and leaves the line empty. */
  lemma {:induction false} TypedLine(p: seq<char>, s: seq<char>, eol: char)
    requires |p| + |s| <= LINE_MAX && |p| + |s| > 0
    requires forall k :: 0 <= k < |s| ==> Ordinary(s[k])
    requires eol == '\r' || eol == '\n'
    ensures Keys(p, s + [eol]) == ([], [p + s])
    decreases |s|
  {
    if s == [] {
      assert p + s == p && s + [eol] == [eol] && [eol][1..] == [];
      var none: seq<seq<char>> := [];
      assert Keys(p, [eol]) == ([], [p] + none);
      assert [p] + none == [p];
    } else {
      var cs := s + [eol];
      assert cs[0] == s[0] && cs[1..] == s[1..] + [eol];
      assert Key(p, s[0]) == (p + [s[0]], []);
      TypedLine(p + [s[0]], s[1..], eol);
      assert p + [s[0]] + s[1..] == p + s;
      var none: seq<seq<char>> := [];
      assert Keys(p, cs) == (Keys(p + [s[0]], cs[1..]).0, none + [p + s]);
      assert Keys(p + [s[0]], cs[1..]).0 == [];
      assert none + [p + s] == [p + s];
    }
  }

  /** On a full line, ordinary bytes are dropped: nothing is appended and
    * the line is not reset. */
  lemma {:induction false} FullLineDrops(p: seq<char>, s: seq<char>)
    requires |p| == LINE_MAX
    requires forall k :: 0 <= k < |s| ==> Ordinary(s[k])
    ensures Keys(p, s) == (p, [])
    decreases |s|
  {
    if s != [] {
      assert Key(p, s[0]) == (p, []);
      FullLineDrops(p, s[1..]);
      var none: seq<seq<char>> := [];
      assert none + none == none;
    }
  }

  /** The command line's statics: the line buffer and its length. */
  class CliTask {
    const g_line: array<char>
    var g_len: int

    ghost predicate Valid()
      reads this
    {
      g_line.Length == LINE_BUF && 0 <= g_len <= LINE_MAX
    }

    function Pending(): seq<char>
      reads this, g_line
      requires Valid()
    {
      g_line[..g_len]
    }

    constructor ()
      ensures Valid() && Pending() == []
    {
      g_line := new char[LINE_BUF](_ => '\0');
      g_len := 0;
    }

    /** One byte of App_CliTask's inner loop (the echo is left out). */
    method OnByte(c: char) returns (msgs: seq<BreatheMsg>)
      requires Valid()
      modifies this, g_line
      ensures Valid() && Pending() == Key(old(Pending()), c).0
      ensures msgs == Sent(Key(old(Pending()), c).1)
    {
      msgs := [];
      if c == '\r' || c == '\n' {
        if g_len > 0 {
          g_line[g_len] := '\0';
          ghost var buf := g_line[..];
          assert buf[..g_len] == old(Pending());
          CStrCut(buf, g_len);
          msgs := HandleLine(g_line, g_len);
          g_len := 0;
          assert Sent([old(Pending())]) == LineMessages(old(Pending())) + [];
        }
      } else if c == '\U{8}' || c == '\U{7F}' {
        if g_len > 0 {
          g_len := g_len - 1;
        }
      } else {
        if g_len < LINE_BUF - 1 {
          g_line[g_len] := c;
          g_len := g_len + 1;
          assert Pending() == old(Pending()) + [c];
        }
      }
    }

    /** The bytes one read returned, handled first to last. */
    method OnBytes(buf: seq<u8>) returns (msgs: seq<BreatheMsg>)
      requires Valid()
      modifies this, g_line
      ensures var r := Keys(old(Pending()), Chars(buf));
        Valid() && Pending() == r.0 && msgs == Sent(r.1)
    {
      ghost var cs := Chars(buf);
      ghost var total := Keys(Pending(), cs);
      ghost var done: seq<seq<char>> := [];
      msgs := [];
      var i := 0;
      while i < |buf|
        invariant 0 <= i <= |buf| && Valid()
        invariant Keys(Pending(), cs[i..]).0 == total.0
        invariant done + Keys(Pending(), cs[i..]).1 == total.1
        invariant msgs == Sent(done)
      {
        ghost var p := Pending();
        var m := OnByte(buf[i] as char);
        ghost var k := Key(p, cs[i]);
        RunStep(p, cs[i..], done, total.1);
        SentAppend(done, k.1);
        assert cs[i..][1..] == cs[i + 1..];
        done := done + k.1;
        msgs := msgs + m;
        i := i + 1;
      }
      assert cs[i..] == [];
      assert Keys(Pending(), []) == (Pending(), []);
      assert done + [] == done;
    }
  }

  /** The characters C reads from the received bytes. */
  function Chars(buf: seq<u8>): (cs: seq<char>)
    ensures |cs| == |buf| && forall k :: 0 <= k < |buf| ==> cs[k] == buf[k] as char
  {
    seq(|buf|, k requires 0 <= k < |buf| => buf[k] as char)
  }

  /** One byte of a run: what OnBytes's loop keeps, kept by one more byte. */
  lemma RunStep(p: seq<char>, cs: seq<char>, done: seq<seq<char>>, lines: seq<seq<char>>)
    requires cs != [] && done + Keys(p, cs).1 == lines
    ensures var k := Key(p, cs[0]); var r := Keys(k.0, cs[1..]);
      Keys(p, cs).0 == r.0 && (done + k.1) + r.1 == lines
  {
    var k := Key(p, cs[0]);
    var r := Keys(k.0, cs[1..]);
    assert Keys(p, cs) == (r.0, k.1 + r.1);
    assert done + (k.1 + r.1) == (done + k.1) + r.1;
  }
}
