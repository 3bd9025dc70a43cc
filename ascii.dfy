/** Character classes and case mapping used by the lexer.
    Python's `str.isalpha`, `str.isalnum`, `str.lower` and `str.upper` are
    Unicode-aware; this model restricts them to ASCII. */
module Ascii {

  predicate IsUpperChar(c: char) { 'A' <= c <= 'Z' }

  predicate IsLowerChar(c: char) { 'a' <= c <= 'z' }

  predicate IsDigit(c: char) { '0' <= c <= '9' }

  /** `c.isalpha()` */
  predicate IsAlpha(c: char) { IsUpperChar(c) || IsLowerChar(c) }

  /** `c.isalnum()` */
  predicate IsAlnum(c: char) { IsAlpha(c) || IsDigit(c) }

  function LowerChar(c: char): (r: char)
    ensures !IsUpperChar(r)
    ensures IsUpperChar(c) ==> IsLowerChar(r) && UpperChar(r) == c
    ensures !IsUpperChar(c) ==> r == c
  {
    if IsUpperChar(c) then (c as int + 32) as char else c
  }

  function UpperChar(c: char): (r: char)
    ensures !IsLowerChar(r)
    ensures IsLowerChar(c) ==> IsUpperChar(r)
    ensures !IsLowerChar(c) ==> r == c
  {
    if IsLowerChar(c) then (c as int - 32) as char else c
  }

  /** `s.lower()` */
  function Lower(s: string): (r: string)
    ensures |r| == |s|
    ensures forall i :: 0 <= i < |s| ==> r[i] == LowerChar(s[i])
  {
    if s == [] then [] else [LowerChar(s[0])] + Lower(s[1..])
  }

  /** `s.upper()` */
  function Upper(s: string): (r: string)
    ensures |r| == |s|
    ensures forall i :: 0 <= i < |s| ==> r[i] == UpperChar(s[i])
  {
    if s == [] then [] else [UpperChar(s[0])] + Upper(s[1..])
  }

  /** `c.lower() in s.lower()` for a single character `c`. */
  predicate InIgnoringCase(c: char, s: string)
    decreases |s|
  {
    |s| > 0 && (LowerChar(s[0]) == LowerChar(c) || InIgnoringCase(c, s[1..]))
  }

  /** The recursive test agrees with Python's: `c.lower()` occurs in `s.lower()`. */
  lemma {:induction false} InIgnoringCaseIsLowerIn(c: char, s: string)
    ensures InIgnoringCase(c, s) <==> LowerChar(c) in Lower(s)
    decreases |s|
  {
    if |s| > 0 {
      InIgnoringCaseIsLowerIn(c, s[1..]);
      assert Lower(s) == [LowerChar(s[0])] + Lower(s[1..]);
    }
  }

  /** A character whose lower case matches that of `s[i]` is in `s`, ignoring case. */
  lemma {:induction false} InIgnoringCaseAt(c: char, s: string, i: int)
    requires 0 <= i < |s| && LowerChar(s[i]) == LowerChar(c)
    ensures InIgnoringCase(c, s)
    decreases i
  {
    if i > 0 {
      InIgnoringCaseAt(c, s[1..], i - 1);
    }
  }

  /** Every decimal digit is in the default digit alphabet. */
  lemma DigitInDigits(c: char)
    ensures IsDigit(c) ==> InIgnoringCase(c, "0123456789")
  {
    if IsDigit(c) {
      var d := "0123456789";
      assert d[c as int - '0' as int] == c;
      InIgnoringCaseAt(c, d, c as int - '0' as int);
    }
  }

  /** A character whose lower case matches that of no character of `s` is not in it. */
  lemma {:induction false} NotInIgnoringCase(c: char, s: string)
    requires forall i :: 0 <= i < |s| ==> LowerChar(s[i]) != LowerChar(c)
    ensures !InIgnoringCase(c, s)
    decreases |s|
  {
    if |s| > 0 {
      assert forall i :: 0 <= i < |s| - 1 ==> s[1..][i] == s[i + 1];
      NotInIgnoringCase(c, s[1..]);
    }
  }

  /** The decimal point is not a decimal digit. */
  lemma PointNotDecimalDigit()
    ensures !InIgnoringCase('.', "0123456789")
  {
    var d := "0123456789";
    assert forall i :: 0 <= i < |d| ==> IsDigit(d[i]);
    NotInIgnoringCase('.', d);
  }

  /** The alphabet `s` holds no letter. */
  predicate NoLetters(s: string) {
    forall i :: 0 <= i < |s| ==> !IsAlpha(s[i])
  }

  /** The decimal alphabet holds no letter. */
  lemma DecimalNoLetters()
    ensures NoLetters("0123456789")
  {
    var d := "0123456789";
    assert forall i :: 0 <= i < |d| ==> IsDigit(d[i]);
  }

  /** A letter is not in an alphabet without letters, even ignoring case. */
  lemma LetterNotIn(c: char, s: string)
    requires IsAlpha(c) && NoLetters(s)
    ensures !InIgnoringCase(c, s)
  {
    NotInIgnoringCase(c, s);
  }

  /** `s.endswith(suffix)` */
  predicate EndsWith(s: string, suffix: string) {
    |suffix| <= |s| && forall i :: 0 <= i < |suffix| ==> s[|s| - |suffix| + i] == suffix[i]
  }

  /** The index form agrees with the slice comparison
      `s[len(s) - len(suffix):] == suffix`. */
  lemma EndsWithSlice(s: string, suffix: string)
    ensures EndsWith(s, suffix) <==> |suffix| <= |s| && s[|s| - |suffix|..] == suffix
  {
    if |suffix| <= |s| {
      var t := s[|s| - |suffix|..];
      assert forall i :: 0 <= i < |suffix| ==> t[i] == s[|s| - |suffix| + i];
    }
  }
}
