/** Text helpers behind the player's display and its name filter:
    `String(n)` for integers, `padStart(2, '0')`, and the ASCII
    case-insensitive substring test of a `/.../i` regular expression. */
module Strings {

  predicate IsDigit(c: char) { '0' <= c <= '9' }

  predicate AllDigits(s: string) { forall i :: 0 <= i < |s| ==> IsDigit(s[i]) }

  function DigitChar(d: nat): (c: char)
    requires d < 10
    ensures IsDigit(c) && c as int - '0' as int == d
  {
    ('0' as int + d) as char
  }

  function DigitValue(c: char): (d: nat)
    requires IsDigit(c)
    ensures d < 10
  {
    c as int - '0' as int
  }

  /** `String(n)` for a non-negative integer: its decimal digits, no leading zero. */
  function Decimal(n: nat): (s: string)
    ensures 1 <= |s| && AllDigits(s)
    ensures s[0] == '0' ==> n == 0
  {
    if n < 10 then [DigitChar(n)] else Decimal(n / 10) + [DigitChar(n % 10)]
  }

  /** The number a string of decimal digits denotes (leading zeros allowed). */
  function ValueOf(s: string): nat
    requires AllDigits(s)
  {
    if s == [] then 0 else 10 * ValueOf(s[..|s| - 1]) + DigitValue(s[|s| - 1])
  }

  /** Reading back the digits `Decimal` writes gives the number again. */
  lemma {:induction false} DecimalValue(n: nat)
    ensures ValueOf(Decimal(n)) == n
  {
    if n >= 10 {
      DecimalValue(n / 10);
      var s := Decimal(n);
      assert s[..|s| - 1] == Decimal(n / 10);
    }
  }

  /** Numbers below 10 take one digit, numbers below 100 at most two. */
  lemma {:induction false} DecimalLength(n: nat)
    ensures n < 10 <==> |Decimal(n)| == 1
    ensures n < 100 ==> |Decimal(n)| <= 2
  {
    if n >= 10 {
      DecimalLength(n / 10);
    }
  }

  /** `String(i)` for any integer. */
  function IntDecimal(i: int): (s: string)
    ensures i >= 0 ==> s == Decimal(i)
    ensures i < 0 ==> |s| >= 2 && s[0] == '-' && s[1..] == Decimal(-i)
  {
    if i < 0 then "-" + Decimal(-i) else Decimal(i)
  }

  /** `s.padStart(2, '0')`. */
  function PadStart2(s: string): (r: string)
    ensures |r| == if |s| < 2 then 2 else |s|
    ensures r[|r| - |s|..] == s
    ensures forall i :: 0 <= i < |r| - |s| ==> r[i] == '0'
  {
    if |s| >= 2 then s else if |s| == 1 then "0" + s else "00"
  }

  /** A leading zero does not change the value of a digit string. */
  lemma {:induction false} LeadingZero(s: string)
    requires AllDigits(s)
    ensures AllDigits(['0'] + s) && ValueOf(['0'] + s) == ValueOf(s)
  {
    var z := ['0'] + s;
    if s != [] {
      assert z[..|z| - 1] == ['0'] + s[..|s| - 1];
      LeadingZero(s[..|s| - 1]);
    }
  }

  /** Padding keeps a digit string's value. */
  lemma PaddedValue(s: string)
    requires AllDigits(s)
    ensures AllDigits(PadStart2(s)) && ValueOf(PadStart2(s)) == ValueOf(s)
  {
    if |s| == 1 {
      assert PadStart2(s) == ['0'] + s;
      LeadingZero(s);
    } else if |s| == 0 {
      assert PadStart2(s) == ['0'] + (['0'] + s);
      LeadingZero(s);
      LeadingZero(['0'] + s);
    }
  }

  /** ASCII lower-casing. */
  function LowerAscii(c: char): (l: char)
    ensures 'A' <= c <= 'Z' ==> l as int == c as int + 32
    ensures !('A' <= c <= 'Z') ==> l == c
  {
    if 'A' <= c <= 'Z' then (c as int + 32) as char else c
  }

  /** The lower-case word `w` occurs in `s` at position `i`, ignoring ASCII case. */
  predicate MatchesAt(s: string, w: string, i: nat)
    requires i + |w| <= |s|
  {
    forall k :: 0 <= k < |w| ==> LowerAscii(s[i + k]) == w[k]
  }

  /** The search a regular expression `/w/i` performs on `s`, position by position. */
  function ContainsIgnoringCase(s: string, w: string): bool
    decreases |s|
  {
    if |s| < |w| then false
    else MatchesAt(s, w, 0) || (|s| > 0 && ContainsIgnoringCase(s[1..], w))
  }

  /** The search answers yes exactly when some position matches. */
  lemma {:induction false} ContainsIgnoringCaseSpec(s: string, w: string)
    ensures ContainsIgnoringCase(s, w) <==> exists i: nat :: i + |w| <= |s| && MatchesAt(s, w, i)
    decreases |s|
  {
    if |s| >= |w| && |s| > 0 {
      ContainsIgnoringCaseSpec(s[1..], w);
      if ContainsIgnoringCase(s[1..], w) {
        var i: nat :| i + |w| <= |s| - 1 && MatchesAt(s[1..], w, i);
        assert MatchesAt(s, w, i + 1);
      }
      if i: nat :| i + |w| <= |s| && MatchesAt(s, w, i) {
        if i > 0 {
          assert MatchesAt(s[1..], w, i - 1);
        }
      }
    } else if |s| >= |w| {
      assert |w| == 0;
      assert MatchesAt(s, w, 0);
    }
  }
}
