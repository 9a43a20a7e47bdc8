/** Character-level rules used by the form: JavaScript's `trim` and the
    24-hour `HH:MM` pattern `^([01]\d|2[0-3]):([0-5]\d)$`. */
module TextRules {

  /** The characters `String.prototype.trim` strips: ECMAScript WhiteSpace
      and LineTerminator code points. */
  predicate IsSpace(c: char) {
    c == '\t' || c == '\n' || c == '\U{000B}' || c == '\U{000C}' || c == '\r' ||
    c == ' ' || c == '\U{00A0}' || c == '\U{1680}' ||
    ('\U{2000}' <= c <= '\U{200A}') ||
    c == '\U{2028}' || c == '\U{2029}' || c == '\U{202F}' || c == '\U{205F}' ||
    c == '\U{3000}' || c == '\U{FEFF}'
  }

  predicate AllSpace(s: string) {
    forall k :: 0 <= k < |s| ==> IsSpace(s[k])
  }

  /** The number of whitespace characters at the front of `s`. */
  function LeadingSpace(s: string): (n: nat)
    ensures n <= |s|
    ensures AllSpace(s[..n])
    ensures n < |s| ==> !IsSpace(s[n])
  {
    if s == [] || !IsSpace(s[0]) then 0
    else
      var m := LeadingSpace(s[1..]);
      assert forall k :: 1 <= k < m + 1 ==> s[k] == s[1..][..m][k - 1];
      1 + m
  }

  /** The number of whitespace characters at the end of `s`. */
  function TrailingSpace(s: string): (n: nat)
    ensures n <= |s|
    ensures AllSpace(s[|s| - n..])
    ensures n < |s| ==> !IsSpace(s[|s| - 1 - n])
  {
    if s == [] || !IsSpace(s[|s| - 1]) then 0
    else
      var init := s[..|s| - 1];
      var m := TrailingSpace(init);
      assert forall k :: |s| - 1 - m <= k < |s| - 1 ==> s[k] == init[|init| - m..][k - (|s| - 1 - m)];
      1 + m
  }

  /** `String.prototype.trim`: `s` without its leading and trailing
      whitespace. */
  function Trim(s: string): string {
    var rest := s[LeadingSpace(s)..];
    rest[..|rest| - TrailingSpace(rest)]
  }

  /** The trimmed text is empty exactly when `s` is all whitespace;
      otherwise it starts and ends with a non-whitespace character, and it
      is the slice of `s` left once whitespace is cut from both ends. */
  lemma TrimExact(s: string)
    ensures Trim(s) == "" <==> AllSpace(s)
    ensures Trim(s) != "" ==> !IsSpace(Trim(s)[0]) && !IsSpace(Trim(s)[|Trim(s)| - 1])
    ensures exists i :: 0 <= i <= |s| - |Trim(s)| && s[i..i + |Trim(s)|] == Trim(s) && AllSpace(s[..i]) && AllSpace(s[i + |Trim(s)|..])
  {
    var i := LeadingSpace(s);
    TrimmedSlice(s, i, s[i..], Trim(s));
  }

  lemma TrimmedSlice(s: string, i: nat, rest: string, r: string)
    requires i == LeadingSpace(s) && rest == s[i..] && r == rest[..|rest| - TrailingSpace(rest)]
    ensures r == "" <==> AllSpace(s)
    ensures r != "" ==> !IsSpace(r[0]) && !IsSpace(r[|r| - 1])
    ensures 0 <= i <= |s| - |r| && s[i..i + |r|] == r && AllSpace(s[..i]) && AllSpace(s[i + |r|..])
  {
    var j := TrailingSpace(rest);
    assert s[i + |r|..] == rest[|rest| - j..];
    if r == "" {
      assert s[..i] == s;
    } else {
      assert r[0] == s[i];
      assert r[|r| - 1] == rest[|rest| - 1 - j];
    }
  }

  predicate IsDigit(c: char) {
    '0' <= c <= '9'
  }

  /** The regular expression `^([01]\d|2[0-3]):([0-5]\d)$` (no flags):
      `\d` is an ASCII digit and the anchors span the whole input. */
  predicate MatchesClockPattern(s: string) {
    |s| == 5
    && (((s[0] == '0' || s[0] == '1') && IsDigit(s[1])) || (s[0] == '2' && '0' <= s[1] <= '3'))
    && s[2] == ':'
    && '0' <= s[3] <= '5' && IsDigit(s[4])
  }

  function DigitChar(d: nat): (c: char)
    requires d < 10
  {
    ('0' as int + d) as char
  }

  function DigitValue(c: char): nat
    requires IsDigit(c)
  {
    c as int - '0' as int
  }

  /** `n` written with exactly two decimal digits. */
  function TwoDigits(n: nat): string
    requires n < 100
  {
    [DigitChar(n / 10), DigitChar(n % 10)]
  }

  /** The reference rendering of a time of day: hours 00-23 and minutes
      00-59, two digits each, separated by a colon. */
  function ClockText(h: nat, m: nat): string
    requires h < 24 && m < 60
  {
    TwoDigits(h) + ":" + TwoDigits(m)
  }

  ghost predicate IsClockTime(s: string) {
    exists h: nat, m: nat :: h < 24 && m < 60 && s == ClockText(h, m)
  }

  lemma ClockTextMatches(h: nat, m: nat)
    requires h < 24 && m < 60
    ensures MatchesClockPattern(ClockText(h, m))
  {
    var s := ClockText(h, m);
    assert s[0] == DigitChar(h / 10) && s[1] == DigitChar(h % 10);
    assert s[3] == DigitChar(m / 10) && s[4] == DigitChar(m % 10);
    if h / 10 == 2 {
      assert h % 10 <= 3;
    }
  }

  lemma MatchIsClockText(s: string)
    requires MatchesClockPattern(s)
    ensures DigitValue(s[0]) * 10 + DigitValue(s[1]) < 24
    ensures DigitValue(s[3]) * 10 + DigitValue(s[4]) < 60
    ensures s == ClockText(DigitValue(s[0]) * 10 + DigitValue(s[1]), DigitValue(s[3]) * 10 + DigitValue(s[4]))
  {
    var h := DigitValue(s[0]) * 10 + DigitValue(s[1]);
    var m := DigitValue(s[3]) * 10 + DigitValue(s[4]);
    assert h / 10 == DigitValue(s[0]) && h % 10 == DigitValue(s[1]);
    assert m / 10 == DigitValue(s[3]) && m % 10 == DigitValue(s[4]);
  }

  /** The pattern accepts exactly the reference renderings of the times of
      day 00:00 through 23:59. */
  lemma ClockPatternExact(s: string)
    ensures MatchesClockPattern(s) <==> IsClockTime(s)
  {
    if MatchesClockPattern(s) {
      MatchIsClockText(s);
    }
    if IsClockTime(s) {
      var h: nat, m: nat :| h < 24 && m < 60 && s == ClockText(h, m);
      ClockTextMatches(h, m);
    }
  }

  lemma ClockPatternExamples()
    ensures !MatchesClockPattern("24:00") && !MatchesClockPattern("9:30") && !MatchesClockPattern("12:60")
    ensures MatchesClockPattern("00:00") && MatchesClockPattern("23:59")
  {
  }
}
