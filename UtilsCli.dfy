// The line-editing command shell: bytes are collected into a 64-byte line,
// CR or LF splits the line on spaces into at most eight arguments and runs the
// first registered command whose name is the first argument.
module UtilsCli {
  import opened CInt

  const CLI_LINE_MAX: int := 64
  const CLI_CMD_MAX: int := 16
  const CLI_ARGV_MAX: int := 8

  // ---------------------------------------------------------------------
  // Words of a line
  // ---------------------------------------------------------------------

  /** The end of the run of non-space characters starting at p. */
  function WordEnd(s: seq<char>, p: nat): (e: nat)
    requires p <= |s|
    ensures p <= e <= |s| && (forall k :: p <= k < e ==> s[k] != ' ')
    ensures e < |s| ==> s[e] == ' '
    ensures p < |s| && s[p] != ' ' ==> p < e
    decreases |s| - p
  {
    if p < |s| && s[p] != ' ' then WordEnd(s, p + 1) else p
  }

  /** The space-separated words of s from position p on; runs of spaces
    * separate, and leading or trailing spaces give no empty words. */
  function WordsFrom(s: seq<char>, p: nat): seq<seq<char>>
    decreases |s| - p
  {
    if p >= |s| then []
    else if s[p] == ' ' then WordsFrom(s, p + 1)
    else [s[p..WordEnd(s, p)]] + WordsFrom(s, WordEnd(s, p))
  }

  function Words(s: seq<char>): seq<seq<char>>
  {
    WordsFrom(s, 0)
  }

  /** Every word is non-empty and holds no space. */
  lemma {:induction false} WordsAreWords(s: seq<char>, p: nat)
    requires p <= |s|
    ensures forall i :: 0 <= i < |WordsFrom(s, p)| ==>
              |WordsFrom(s, p)[i]| > 0 && ' ' !in WordsFrom(s, p)[i]
    decreases |s| - p
  {
    if p < |s| {
      if s[p] == ' ' {
        WordsAreWords(s, p + 1);
      } else {
        var e := WordEnd(s, p);
        WordsAreWords(s, e);
        var w := s[p..e];
        assert forall k :: 0 <= k < |w| ==> w[k] == s[p + k];
      }
    }
  }

  /** A line of spaces has no words. */
  lemma {:induction false} BlankHasNoWords(s: seq<char>, p: nat)
    requires p <= |s| && forall k :: p <= k < |s| ==> s[k] == ' '
    ensures WordsFrom(s, p) == []
    decreases |s| - p
  {
    if p < |s| {
      BlankHasNoWords(s, p + 1);
    }
  }

  /** A non-empty line without spaces is one word. */
  lemma SingleWord(s: seq<char>)
    requires |s| > 0 && ' ' !in s
    ensures Words(s) == [s]
  {
    assert s[0] in s;
    WordEndNoSpace(s, 0);
    assert s[0..|s|] == s;
    assert WordsFrom(s, |s|) == [];
  }

  lemma {:induction false} WordEndNoSpace(s: seq<char>, p: nat)
    requires p <= |s| && ' ' !in s
    ensures WordEnd(s, p) == |s|
    decreases |s| - p
  {
    if p < |s| {
      assert s[p] in s;
      WordEndNoSpace(s, p + 1);
    }
  }

  // ---------------------------------------------------------------------
  // The tokenizer of cli_exec_line
  // ---------------------------------------------------------------------

  /** The part of the line from p on still holds the original text s, which
    * has no NUL, and its NUL terminator. */
  ghost predicate Unread(line: array<char>, p: nat, s: seq<char>)
    reads line
  {
    p <= |s| < line.Length && line[|s|] == '\0'
    && forall k :: p <= k < |s| ==> line[k] == s[k] && s[k] != '\0'
  }

  /** `while (*p == ' ') p++;`: skipping spaces loses no word. */
  method SkipSpaces(line: array<char>, p: nat, ghost s: seq<char>) returns (q: nat)
    requires Unread(line, p, s)
    ensures p <= q <= |s| && (q < |s| ==> s[q] != ' ') && WordsFrom(s, q) == WordsFrom(s, p)
  {
    q := p;
    while line[q] == ' '
      invariant p <= q <= |s| && WordsFrom(s, q) == WordsFrom(s, p)
      decreases |s| - q
    {
      q := q + 1;
    }
  }

  /** `while (*p && *p != ' ') p++;`: the scan stops at the end of the word. */
  method ScanWord(line: array<char>, p: nat, ghost s: seq<char>) returns (q: nat)
    requires Unread(line, p, s)
    ensures q == WordEnd(s, p)
  {
    q := p;
    while line[q] != '\0' && line[q] != ' '
      invariant p <= q <= |s| && WordEnd(s, q) == WordEnd(s, p)
      decreases |s| - q
    {
      q := q + 1;
    }
  }

  /** Splits the NUL-terminated line in place: the result is its first eight
    * words, and the only change to the line is a NUL written over the space
    * that ends each word taken. */
  method Tokenize(line: array<char>, ghost n: nat) returns (argv: seq<seq<char>>)
    requires n < line.Length && line[n] == '\0' && forall k :: 0 <= k < n ==> line[k] != '\0'
    modifies line
    ensures argv == Words(old(line[..n]))[..Min(CLI_ARGV_MAX, |Words(old(line[..n]))|)]
    ensures forall k :: 0 <= k < line.Length ==>
              line[k] == old(line[k]) || (old(line[k]) == ' ' && line[k] == '\0')
  {
    ghost var s := line[..n];
    var p := 0;
    argv := [];
    while line[p] != '\0' && |argv| < CLI_ARGV_MAX
      invariant |argv| <= CLI_ARGV_MAX && Unread(line, p, s)
      invariant forall k :: p <= k < line.Length ==> line[k] == old(line[k])
      invariant forall k :: 0 <= k < p ==>
                  line[k] == old(line[k]) || (old(line[k]) == ' ' && line[k] == '\0')
      invariant argv + WordsFrom(s, p) == Words(s)
      decreases n - p
    {
      p := SkipSpaces(line, p, s);
      if line[p] == '\0' {
        break;
      }
      var start := p;
      p := ScanWord(line, p, s);
      assert line[start..p] == s[start..p];
      assert WordsFrom(s, start) == [s[start..p]] + WordsFrom(s, p);
      ghost var before := argv;
      argv := argv + [line[start..p]];
      assert argv + WordsFrom(s, p) == before + WordsFrom(s, start);
      if line[p] != '\0' {
        assert WordsFrom(s, p) == WordsFrom(s, p + 1);
        line[p] := '\0';
        p := p + 1;
      }
    }
    assert p == n ==> WordsFrom(s, p) == [];
  }

  // ---------------------------------------------------------------------
  // Commands and dispatch
  // ---------------------------------------------------------------------

  /** cli_cmd_t; the handler is an identifier. */
  datatype Cmd = Cmd(name: seq<char>, help: seq<char>, fn: nat)

  /** What a line does: nothing (no words), run command fn of table entry
    * index with the arguments, or report an unknown command. */
  datatype Outcome = Idle | Run(index: nat, argv: seq<seq<char>>) | Unknown

  /** The first table entry at or after i whose name is key. */
  function FirstFrom(cmds: seq<Cmd>, key: seq<char>, i: nat): Option<nat>
    decreases |cmds| - i
  {
    if i >= |cmds| then None
    else if cmds[i].name == key then Some(i)
    else FirstFrom(cmds, key, i + 1)
  }

  /** FirstFrom finds the first matching entry, and finds none only when no
    * entry matches. */
  lemma {:induction false} FirstFromIsFirst(cmds: seq<Cmd>, key: seq<char>, i: nat)
    ensures FirstFrom(cmds, key, i).Some? ==>
              var j := FirstFrom(cmds, key, i).value;
              i <= j < |cmds| && cmds[j].name == key && forall m :: i <= m < j ==> cmds[m].name != key
    ensures FirstFrom(cmds, key, i).None? <==> forall m :: i <= m < |cmds| ==> cmds[m].name != key
    decreases |cmds| - i
  {
    if i < |cmds| && cmds[i].name != key {
      FirstFromIsFirst(cmds, key, i + 1);
    }
  }

  /** The outcome of a line with the given words against the table. */
  function Dispatch(words: seq<seq<char>>, cmds: seq<Cmd>): Outcome
  {
    if words == [] then Idle
    else match FirstFrom(cmds, words[0], 0)
      case Some(j) => Run(j, words[..Min(CLI_ARGV_MAX, |words|)])
      case None => Unknown
  }

  /** A line runs the first command named by its first word, with its first
    * eight words; a blank line does nothing; otherwise it is unknown. */
  lemma DispatchMeaning(words: seq<seq<char>>, cmds: seq<Cmd>)
    ensures var o := Dispatch(words, cmds);
            (o == Idle <==> words == [])
            && (o.Run? ==> o.index < |cmds| && cmds[o.index].name == words[0]
                           && (forall m :: 0 <= m < o.index ==> cmds[m].name != words[0])
                           && o.argv == words[..Min(CLI_ARGV_MAX, |words|)])
            && (o == Unknown <==> words != [] && forall m :: 0 <= m < |cmds| ==> cmds[m].name != words[0])
  {
    if words != [] {
      FirstFromIsFirst(cmds, words[0], 0);
    }
  }

  /** A byte that printf would show: 32..126. */
  predicate Printable(c: char) { 32 <= c as int <= 126 }

  /** The shell's static state: the command table and the line being edited. */
  class Cli {
    const s_cmds: array<Cmd>
    var s_cmd_cnt: nat
    const s_line: array<char>
    var s_len: nat

    ghost predicate Valid()
      reads this, s_line
    {
      s_cmds.Length == CLI_CMD_MAX && s_cmd_cnt <= CLI_CMD_MAX
      && s_line.Length == CLI_LINE_MAX && s_len < CLI_LINE_MAX
      && forall k :: 0 <= k < s_len ==> Printable(s_line[k])
    }

    /** The line typed so far. */
    function Line(): seq<char>
      requires Valid()
      reads this, s_line
    {
      s_line[..s_len]
    }

    /** The registered commands, in registration order. */
    function Commands(): seq<Cmd>
      requires Valid()
      reads this, s_line, s_cmds
    {
      s_cmds[..s_cmd_cnt]
    }

    constructor ()
      ensures Valid() && Line() == [] && Commands() == []
    {
      s_cmds := new Cmd[CLI_CMD_MAX](_ => Cmd([], [], 0));
      s_cmd_cnt := 0;
      s_line := new char[CLI_LINE_MAX](_ => '\0');
      s_len := 0;
    }

    /** cli_init: no commands, an empty and zeroed line. */
    method Init()
      requires Valid()
      modifies this`s_cmd_cnt, this`s_len, s_line
      ensures Valid() && Line() == [] && Commands() == []
      ensures forall k :: 0 <= k < s_line.Length ==> s_line[k] == '\0'
    {
      s_cmd_cnt := 0;
      s_len := 0;
      forall k | 0 <= k < s_line.Length {
        s_line[k] := '\0';
      }
    }

    /** cli_register: -2 when an argument is null, -1 when the table is full,
      * otherwise 0 with the command appended. */
    method Register(name: Option<seq<char>>, help: Option<seq<char>>, fn: Option<nat>) returns (r: int)
      requires Valid()
      modifies this`s_cmd_cnt, s_cmds
      ensures Valid() && Line() == old(Line())
      ensures r == -2 <==> name.None? || help.None? || fn.None?
      ensures r == -1 <==> name.Some? && help.Some? && fn.Some? && old(s_cmd_cnt) >= CLI_CMD_MAX
      ensures r == 0 ==> Commands() == old(Commands()) + [Cmd(name.value, help.value, fn.value)]
      ensures r != 0 ==> Commands() == old(Commands())
    {
      if name.None? || help.None? || fn.None? {
        return -2;
      }
      if s_cmd_cnt >= CLI_CMD_MAX {
        return -1;
      }
      s_cmds[s_cmd_cnt] := Cmd(name.value, help.value, fn.value);
      s_cmd_cnt := s_cmd_cnt + 1;
      return 0;
    }

    /** cli_exec_line on the line with its NUL at s_len: splits it, then runs
      * the first command whose name is the first argument. */
    method ExecLine() returns (outcome: Outcome)
      requires Valid() && s_line[s_len] == '\0'
      modifies s_line
      ensures outcome == Dispatch(Words(old(Line())), old(Commands()))
    {
      var argv := Tokenize(s_line, s_len);
      if |argv| == 0 {
        return Idle;
      }
      var i := 0;
      while i < s_cmd_cnt
        invariant 0 <= i <= s_cmd_cnt
        invariant FirstFrom(s_cmds[..s_cmd_cnt], argv[0], i) == FirstFrom(s_cmds[..s_cmd_cnt], argv[0], 0)
      {
        if argv[0] == s_cmds[i].name {
          return Run(i, argv);
        }
        i := i + 1;
      }
      return Unknown;
    }

    /** cli_feed_byte: CR or LF runs the line and clears it; backspace or DEL
      * removes the last character; a printable byte is appended while it
      * leaves room for the NUL; every other byte is ignored. */
    method Feed(b: u8) returns (outcome: Outcome)
      requires Valid()
      modifies this`s_len, s_line
      ensures Valid() && Commands() == old(Commands())
      ensures b == 13 || b == 10 ==>
                outcome == Dispatch(Words(old(Line())), Commands()) && Line() == []
                && forall k :: 0 <= k < s_line.Length ==> s_line[k] == '\0'
      ensures b != 13 && b != 10 ==> outcome == Idle
      ensures b == 8 || b == 0x7F ==>
                Line() == if old(s_len) > 0 then old(Line())[..old(s_len) - 1] else old(Line())
      ensures 32 <= b <= 126 ==>
                Line() == if old(s_len) + 1 < CLI_LINE_MAX then old(Line()) + [b as char] else old(Line())
      ensures b != 13 && b != 10 && b != 8 && b != 0x7F && !(32 <= b <= 126) ==> Line() == old(Line())
    {
      outcome := Idle;
      if b == 13 || b == 10 {
        s_line[s_len] := '\0';
        outcome := ExecLine();
        s_len := 0;
        forall k | 0 <= k < s_line.Length {
          s_line[k] := '\0';
        }
        return;
      }
      if b == 8 || b == 0x7F {
        if s_len > 0 {
          s_len := s_len - 1;
        }
        return;
      }
      if 32 <= b <= 126 {
        if s_len + 1 < CLI_LINE_MAX {
          s_line[s_len] := b as char;
          s_len := s_len + 1;
        }
      }
    }
  }
}
