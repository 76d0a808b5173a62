/**
 * Java's signed 64-bit decimal text form: `Long.parseLong` as a partial
 * parser and `Long.toString` as the formatter it undoes. Parsing undoes
 * formatting for every 64-bit value; text with leading zeros or a `+` sign
 * parses but is not what formatting gives back.
 */
module JavaLong {
  import opened Options

  const MIN_LONG: int := -0x8000_0000_0000_0000
  const MAX_LONG: int := 0x7FFF_FFFF_FFFF_FFFF

  predicate IsLong(n: int)
  {
    MIN_LONG <= n <= MAX_LONG
  }

  predicate IsDigit(c: char)
  {
    '0' <= c <= '9'
  }

  predicate AllDigits(s: string)
  {
    forall i :: 0 <= i < |s| ==> IsDigit(s[i])
  }

  function Pow10(n: nat): (r: nat)
    ensures r >= 1
  {
    if n == 0 then 1 else 10 * Pow10(n - 1)
  }

  function DigitValue(c: char): (d: nat)
    requires IsDigit(c)
    ensures d < 10
  {
    c as int - '0' as int
  }

  function DigitChar(d: nat): (c: char)
    requires d < 10
    ensures IsDigit(c) && DigitValue(c) == d
  {
    ('0' as int + d) as char
  }

  /** The value of a run of decimal digits, most significant digit first. */
  function DigitsValue(s: string): (v: nat)
    requires AllDigits(s)
    ensures v < Pow10(|s|)
  {
    if s == [] then 0
    else
      var prefix := DigitsValue(s[..|s| - 1]);
      var last := DigitValue(s[|s| - 1]);
      assert prefix * 10 + last <= (Pow10(|s| - 1) - 1) * 10 + 9;
      prefix * 10 + last
  }

  /** The text after an optional leading sign. */
  function Unsigned(s: string): string
  {
    if |s| > 0 && (s[0] == '-' || s[0] == '+') then s[1..] else s
  }

  /**
   * `Long.parseLong(s)` in radix 10: an optional leading '-' or '+', then at
   * least one digit, and a value that fits in 64 bits; anything else is the
   * NumberFormatException, modelled as None.
   */
  function ParseLong(s: string): (r: Option<int>)
    ensures r.Some? ==> IsLong(r.value)
    ensures r.Some? ==> |s| > 0 && (IsDigit(s[0]) || s[0] == '-' || s[0] == '+')
    ensures r.Some? ==> (r.value < 0 ==> s[0] == '-')
    ensures r.Some? ==> |Unsigned(s)| > 0 && AllDigits(Unsigned(s))
  {
    if |s| == 0 then None
    else
      var digits := Unsigned(s);
      if |digits| == 0 || !AllDigits(digits) then None
      else
        var magnitude: int := DigitsValue(digits);
        var v := if s[0] == '-' then -magnitude else magnitude;
        if IsLong(v) then Some(v) else None
  }

  /** The digits of `k` without leading zeros, as `Long.toString` writes them. */
  function NatDigits(k: nat): (s: string)
    ensures |s| > 0 && AllDigits(s)
  {
    if k < 10 then [DigitChar(k)] else NatDigits(k / 10) + [DigitChar(k % 10)]
  }

  /** `Long.toString(n)`: the canonical decimal form of a 64-bit value. */
  function FormatLong(n: int): (s: string)
    requires IsLong(n)
    ensures |s| > 0 && (s[0] == '-' <==> n < 0)
  {
    if n < 0 then "-" + NatDigits(-n) else NatDigits(n)
  }

  lemma {:induction false} NatDigitsValue(k: nat)
    ensures DigitsValue(NatDigits(k)) == k
  {
    if k >= 10 {
      var s := NatDigits(k);
      assert s[..|s| - 1] == NatDigits(k / 10);
      NatDigitsValue(k / 10);
    }
  }

  /** Every 64-bit value written by `Long.toString` parses back to itself. */
  lemma ParseFormatRoundTrip(n: int)
    requires IsLong(n)
    ensures ParseLong(FormatLong(n)) == Some(n)
  {
    var s := FormatLong(n);
    if n < 0 {
      assert s[1..] == NatDigits(-n);
      NatDigitsValue(-n);
    } else {
      NatDigitsValue(n);
    }
  }

  /** The empty string and a lone sign are rejected, as Java rejects them. */
  lemma ParseRejectsNoDigits(s: string)
    requires s == "" || s == "-" || s == "+"
    ensures ParseLong(s) == None
  {
  }

  /**
   * A run of digits, bare or after '+', parses to its value exactly when that
   * value fits in 64 bits; after '-' exactly when its negation does.
   */
  lemma ParseSignedDigits(t: string)
    requires |t| > 0 && AllDigits(t)
    ensures ParseLong(t) == (if DigitsValue(t) <= MAX_LONG then Some(DigitsValue(t) as int) else None)
    ensures ParseLong("+" + t) == (if DigitsValue(t) <= MAX_LONG then Some(DigitsValue(t) as int) else None)
    ensures ParseLong("-" + t) == (if DigitsValue(t) <= -MIN_LONG then Some(-(DigitsValue(t) as int)) else None)
  {
    ParseBareDigits(t);
    ParsePlusDigits(t);
    ParseMinusDigits(t);
  }

  lemma ParseBareDigits(t: string)
    requires |t| > 0 && AllDigits(t)
    ensures ParseLong(t) == (if DigitsValue(t) <= MAX_LONG then Some(DigitsValue(t) as int) else None)
  {
    assert IsDigit(t[0]);
    assert Unsigned(t) == t;
  }

  lemma ParsePlusDigits(t: string)
    requires |t| > 0 && AllDigits(t)
    ensures ParseLong("+" + t) == (if DigitsValue(t) <= MAX_LONG then Some(DigitsValue(t) as int) else None)
  {
    var s := "+" + t;
    assert s[0] == '+' && Unsigned(s) == s[1..] == t;
  }

  lemma ParseMinusDigits(t: string)
    requires |t| > 0 && AllDigits(t)
    ensures ParseLong("-" + t) == (if DigitsValue(t) <= -MIN_LONG then Some(-(DigitsValue(t) as int)) else None)
  {
    var s := "-" + t;
    assert s[0] == '-' && Unsigned(s) == s[1..] == t;
  }
}
