// C string helpers: the text before the terminating NUL, decimal digits, and
// strlen over a character buffer.
module CText {
  /** The characters of a C string: up to the first NUL. */
  function CStr(s: seq<char>): (r: seq<char>)
    ensures |r| <= |s| && '\0' !in r && r == s[..|r|]
    ensures |r| < |s| ==> s[|r|] == '\0'
  {
    if s == [] || s[0] == '\0' then [] else [s[0]] + CStr(s[1..])
  }

  /** A string whose first n characters are not NUL starts with them. */
  lemma {:induction false} CStrPrefix(s: seq<char>, n: nat)
    requires n <= |s| && forall k :: 0 <= k < n ==> s[k] != '\0'
    ensures CStr(s) == s[..n] + CStr(s[n..])
    decreases n
  {
    if n > 0 {
      CStrPrefix(s[1..], n - 1);
      assert s[1..][..n - 1] == s[1..n] && s[1..][n - 1..] == s[n..];
      assert s[..n] == [s[0]] + s[1..n];
    }
  }

  /** Only what precedes a NUL matters: cutting the buffer there keeps the
    * string. */
  lemma {:induction false} CStrCut(s: seq<char>, n: nat)
    requires n < |s| && s[n] == '\0'
    ensures CStr(s) == CStr(s[..n])
    decreases n
  {
    if n > 0 && s[0] != '\0' {
      CStrCut(s[1..], n - 1);
      assert s[1..][..n - 1] == s[..n][1..];
    }
  }

  /** A buffer holding a NUL-free string and then a NUL holds that string. */
  lemma CStrTerminated(b: seq<char>, m: nat)
    requires m < |b| && b[m] == '\0' && '\0' !in b[..m]
    ensures CStr(b) == b[..m]
  {
    CStrPrefix(b, m);
    assert b[m..][0] == '\0';
  }

  predicate IsDigit(c: char) { '0' <= c <= '9' }

  predicate AllDigits(s: seq<char>)
  {
    forall i :: 0 <= i < |s| ==> IsDigit(s[i])
  }

  /** The value of a string of decimal digits, most significant first. */
  function Decimal(s: seq<char>): int
  {
    if s == [] then 0 else 10 * Decimal(s[..|s| - 1]) + (s[|s| - 1] as int - '0' as int)
  }

  function Pow10(n: nat): int
  {
    if n == 0 then 1 else 10 * Pow10(n - 1)
  }

  /** n digits make a number below 10^n. */
  lemma {:induction false} DecimalBound(s: seq<char>)
    requires AllDigits(s)
    ensures 0 <= Decimal(s) < Pow10(|s|)
    decreases |s|
  {
    if s != [] {
      DecimalBound(s[..|s| - 1]);
    }
  }

  /** Decimal of a two- and a four-digit string, written out. */
  lemma DecimalDigits(s: seq<char>)
    ensures |s| == 2 ==> Decimal(s) == 10 * (s[0] as int - 48) + (s[1] as int - 48)
    ensures |s| == 4 ==> Decimal(s) == 1000 * (s[0] as int - 48) + 100 * (s[1] as int - 48)
                                      + 10 * (s[2] as int - 48) + (s[3] as int - 48)
  {
    if |s| == 2 {
      assert s[..1][..0] == [] && s[..1][0] == s[0];
      assert Decimal(s[..1]) == s[0] as int - 48;
    } else if |s| == 4 {
      var p1, p2, p3 := s[..1], s[..2], s[..3];
      assert p1[..0] == [] && p2[..1] == p1 && p3[..2] == p2 && s[..3] == p3;
      assert Decimal(p1) == s[0] as int - 48;
      assert Decimal(p2) == 10 * (s[0] as int - 48) + (s[1] as int - 48);
      assert Decimal(p3) == 100 * (s[0] as int - 48) + 10 * (s[1] as int - 48) + (s[2] as int - 48);
    }
  }

  /** strlen: the position of the first NUL, given that there is one at or
    * before end. */
  method Strlen(s: array<char>, ghost end: int) returns (n: int)
    requires 0 <= end < s.Length && s[end] == '\0'
    ensures 0 <= n <= end && n == |CStr(s[..])| && s[n] == '\0'
    ensures forall k :: 0 <= k < n ==> s[k] != '\0'
  {
    n := 0;
    while s[n] != '\0'
      invariant 0 <= n <= end && forall k :: 0 <= k < n ==> s[k] != '\0'
      decreases end - n
    {
      n := n + 1;
    }
    CStrPrefix(s[..], n);
    assert s[..][n..][0] == '\0';
  }
}
