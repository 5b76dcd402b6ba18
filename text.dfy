/** How the dashboard renders a count: a JavaScript number interpolated into
    JSX text, followed by a noun that takes an "s" unless the count is 1. */
module Text {
  import opened Wrappers

  predicate IsDigit(c: char)
  {
    '0' <= c <= '9'
  }

  predicate AllDigits(s: string)
  {
    forall i :: 0 <= i < |s| ==> IsDigit(s[i])
  }

  function DigitChar(d: nat): (c: char)
    requires d < 10
    ensures IsDigit(c) && (c as int) - ('0' as int) == d
  {
    (('0' as int) + d) as char
  }

  /** The decimal form of a non-negative integer, as `String(n)` gives it. */
  function NatToString(n: nat): (s: string)
    ensures |s| >= 1 && AllDigits(s)
    ensures |s| > 1 ==> s[0] != '0'
    decreases n
  {
    if n < 10 then [DigitChar(n)] else NatToString(n / 10) + [DigitChar(n % 10)]
  }

  /** The value of a string of decimal digits. */
  function DigitsValue(s: string): nat
    requires AllDigits(s)
  {
    if s == [] then 0
    else DigitsValue(s[..|s| - 1]) * 10 + ((s[|s| - 1] as int) - ('0' as int))
  }

  lemma {:induction false} NatToStringRoundTrip(n: nat)
    ensures DigitsValue(NatToString(n)) == n
    decreases n
  {
    var s := NatToString(n);
    if n >= 10 {
      NatToStringRoundTrip(n / 10);
      assert s[..|s| - 1] == NatToString(n / 10);
    }
  }

  /** The longest prefix of `s` made of decimal digits. */
  function LeadingDigits(s: string): (d: string)
    ensures AllDigits(d) && d <= s
  {
    if s != [] && IsDigit(s[0]) then [s[0]] + LeadingDigits(s[1..]) else []
  }

  lemma {:induction false} LeadingDigitsOfDigitsThen(d: string, rest: string)
    requires AllDigits(d)
    requires rest != [] && !IsDigit(rest[0])
    ensures LeadingDigits(d + rest) == d
    decreases |d|
  {
    if d == [] {
      assert d + rest == rest;
    } else {
      assert (d + rest)[1..] == d[1..] + rest;
      LeadingDigitsOfDigitsThen(d[1..], rest);
    }
  }

  function PluralSuffix(n: nat): string
  {
    if n != 1 then "s" else ""
  }

  /** `{n} {noun}{n !== 1 ? 's' : ''}{tail}` */
  function CountPhrase(n: nat, noun: string, tail: string): string
  {
    NatToString(n) + " " + noun + PluralSuffix(n) + tail
  }

  /** `{n > 0 && <span>{n} {noun}{n !== 1 ? 's' : ''}{tail}</span>}`: the phrase
      is rendered only while the count is positive. */
  function ShownCountPhrase(n: nat, noun: string, tail: string): (shown: Option<string>)
    ensures shown.None? <==> n == 0
  {
    if n > 0 then Some(CountPhrase(n, noun, tail)) else None
  }

  /** A count phrase can be read back: its leading digits give the count, and the
      noun is followed by an "s" exactly when the count is not 1. */
  lemma CountPhraseReadsBack(n: nat, noun: string, tail: string)
    ensures var p := CountPhrase(n, noun, tail);
      var d := LeadingDigits(p);
      DigitsValue(d) == n &&
      p[|d|..] == " " + noun + PluralSuffix(n) + tail
    ensures (PluralSuffix(n) == "s") <==> n != 1
  {
    var d := NatToString(n);
    var rest := " " + noun + PluralSuffix(n) + tail;
    assert CountPhrase(n, noun, tail) == d + rest;
    LeadingDigitsOfDigitsThen(d, rest);
    NatToStringRoundTrip(n);
  }

  /** The same read-back, with the two spellings of what follows the digits
      given by the caller. */
  lemma CountPhraseReadsBackAs(n: nat, noun: string, tail: string, singular: string, plural: string)
    requires singular == " " + noun + tail
    requires plural == " " + noun + "s" + tail
    ensures var p := CountPhrase(n, noun, tail);
      var d := LeadingDigits(p);
      DigitsValue(d) == n && p[|d|..] == (if n == 1 then singular else plural)
  {
    CountPhraseReadsBack(n, noun, tail);
    if n == 1 {
      assert " " + noun + PluralSuffix(n) + tail == singular;
    } else {
      assert " " + noun + PluralSuffix(n) + tail == plural;
    }
  }
}
