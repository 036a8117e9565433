/** The parts of Python's string behaviour that the bridge relies on: `str` of an
    integer, `int` of a decimal literal, and `str.splitlines`. */
module Text {
  import opened Optional

  predicate IsDigit(c: char) {
    '0' <= c <= '9'
  }

  predicate AllDigits(s: string) {
    forall i :: 0 <= i < |s| ==> IsDigit(s[i])
  }

  function DigitChar(d: nat): (c: char)
    requires d < 10
    ensures IsDigit(c) && c as int - '0' as int == d
  {
    ('0' as int + d) as char
  }

  /** The value of a string of decimal digits, most significant first. */
  function DigitsValue(s: string): nat
    requires AllDigits(s)
    decreases |s|
  {
    if s == [] then 0 else DigitsValue(s[..|s| - 1]) * 10 + (s[|s| - 1] as int - '0' as int)
  }

  /** Python's `str` of a non-negative integer: its decimal digits, with no leading zero. */
  function NatToDecimal(n: nat): (s: string)
    ensures 0 < |s| && AllDigits(s)
    ensures (s[0] == '0') == (n == 0)
    decreases n
  {
    if n < 10 then [DigitChar(n)] else NatToDecimal(n / 10) + [DigitChar(n % 10)]
  }

  /** Python's `str` of an integer. */
  function IntToDecimal(n: int): (s: string)
    ensures 0 < |s|
    ensures (s[0] == '-') == (n < 0)
    ensures ':' !in s
  {
    if n < 0 then "-" + NatToDecimal(-n) else NatToDecimal(n)
  }

  /** Python's `int` of a string, for literals made of an optional sign followed by
      ASCII decimal digits; None where Python raises ValueError. */
  function ParseInt(s: string): (r: Option<int>)
    ensures r.Some? ==> 0 < |s| && AllDigits(s[1..])
    ensures r.Some? ==> IsDigit(s[0]) || ((s[0] == '-' || s[0] == '+') && 1 < |s|)
    ensures r.Some? && s[0] == '-' ==> r.value <= 0
    ensures r.Some? && s[0] != '-' ==> r.value >= 0
  {
    if 1 < |s| && (s[0] == '-' || s[0] == '+') && AllDigits(s[1..]) then
      var magnitude: int := DigitsValue(s[1..]);
      Some(if s[0] == '-' then -magnitude else magnitude)
    else if 0 < |s| && AllDigits(s) then
      Some(DigitsValue(s))
    else
      None
  }

  lemma {:induction false} NatDecimalRoundTrip(n: nat)
    ensures DigitsValue(NatToDecimal(n)) == n
    decreases n
  {
    if n >= 10 {
      var s := NatToDecimal(n / 10);
      var t := NatToDecimal(n);
      assert t == s + [DigitChar(n % 10)];
      assert t[..|t| - 1] == s;
      NatDecimalRoundTrip(n / 10);
    }
  }

  /** `int(str(n)) == n`: reading back the decimal text of an integer gives the integer. */
  lemma IntDecimalRoundTrip(n: int)
    ensures ParseInt(IntToDecimal(n)) == Some(n)
  {
    if n < 0 {
      NatDecimalRoundTrip(-n);
      assert IntToDecimal(n)[1..] == NatToDecimal(-n);
    } else {
      NatDecimalRoundTrip(n);
    }
  }

  predicate IsLineBreak(c: char) {
    c == '\n' || c == '\r'
  }

  predicate HasNoBreak(s: string) {
    forall i :: 0 <= i < |s| ==> !IsLineBreak(s[i])
  }

  /** The index of the first line break at or after i, or |s| when there is none. */
  function BreakFrom(s: string, i: nat): (j: nat)
    requires i <= |s|
    ensures i <= j <= |s|
    ensures forall k :: i <= k < j ==> !IsLineBreak(s[k])
    ensures j < |s| ==> IsLineBreak(s[j])
    decreases |s| - i
  {
    if i == |s| || IsLineBreak(s[i]) then i else BreakFrom(s, i + 1)
  }

  /** Python's `str.splitlines()` for the terminators "\n", "\r" and "\r\n": the lines
      without their terminators, and no empty line after a final terminator. */
  function SplitLines(s: string): (lines: seq<string>)
    ensures (lines == []) == (s == "")
    ensures forall i :: 0 <= i < |lines| ==> HasNoBreak(lines[i])
    decreases |s|
  {
    if s == "" then []
    else
      var b := BreakFrom(s, 0);
      if b == |s| then [s]
      else
        var next := if s[b] == '\r' && b + 1 < |s| && s[b + 1] == '\n' then b + 2 else b + 1;
        [s[..b]] + SplitLines(s[next..])
  }

  /** A text without a line break is a single line. */
  lemma SplitSingleLine(s: string)
    requires s != "" && HasNoBreak(s)
    ensures SplitLines(s) == [s]
  {
    assert BreakFrom(s, 0) == |s|;
  }

  /** Each of "\n", "\r\n" and a lone "\r" ends exactly one line. */
  lemma SplitAfterLine(line: string, sep: string, rest: string)
    requires HasNoBreak(line)
    requires sep == "\n" || sep == "\r\n" || (sep == "\r" && (rest == "" || rest[0] != '\n'))
    ensures SplitLines(line + sep + rest) == [line] + SplitLines(rest)
  {
    var s := line + sep + rest;
    assert s[|line|] == sep[0];
    assert forall k :: 0 <= k < |line| ==> s[k] == line[k];
    var b := BreakFrom(s, 0);
    assert b == |line|;
    assert s[..b] == line;
    if sep == "\r\n" {
      assert s[b + 1] == '\n';
      assert s[b + 2..] == rest;
    } else {
      assert s[b + 1..] == rest;
    }
  }

  /** The lines, each followed by "\n". */
  function Terminated(lines: seq<string>): string
    decreases |lines|
  {
    if lines == [] then "" else lines[0] + "\n" + Terminated(lines[1..])
  }

  /** Splitting newline-terminated lines gives back exactly those lines. */
  lemma {:induction false} SplitTerminatedRoundTrip(lines: seq<string>)
    requires forall i :: 0 <= i < |lines| ==> HasNoBreak(lines[i])
    ensures SplitLines(Terminated(lines)) == lines
    decreases |lines|
  {
    if lines != [] {
      var rest := lines[1..];
      assert Terminated(lines) == lines[0] + "\n" + Terminated(rest);
      assert HasNoBreak(lines[0]);
      SplitAfterLine(lines[0], "\n", Terminated(rest));
      assert forall i :: 0 <= i < |rest| ==> rest[i] == lines[i + 1];
      SplitTerminatedRoundTrip(rest);
      assert [lines[0]] + rest == lines;
    }
  }
}
