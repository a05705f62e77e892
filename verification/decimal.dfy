/**
 * Decimal integer text, as read by `strconv.Atoi` / `strconv.ParseInt(s, 10, 64)`
 * (subscription acknowledgement ids, push trade event times) and written by
 * `strconv.FormatInt(n, 10)` (keep-alive nonces).
 */
module Decimal {
  import opened Base

  predicate IsDigit(c: char) {
    '0' <= c <= '9'
  }

  predicate AllDigits(s: string) {
    forall i :: 0 <= i < |s| ==> IsDigit(s[i])
  }

  function DigitValue(c: char): (d: nat)
    requires IsDigit(c)
    ensures d < 10
  {
    (c as int) - ('0' as int)
  }

  function DigitChar(d: nat): (c: char)
    requires d < 10
    ensures IsDigit(c) && DigitValue(c) == d
  {
    ('0' as int + d) as char
  }

  /** Value of a run of decimal digits, most significant digit first. */
  function DigitsValue(s: string): nat
    requires AllDigits(s)
  {
    if |s| == 0 then 0 else DigitsValue(s[..|s| - 1]) * 10 + DigitValue(s[|s| - 1])
  }

  /** The text is an optional `+` or `-` followed by at least one decimal digit, and nothing else. */
  predicate DecimalText(s: string) {
    if |s| > 0 && (s[0] == '-' || s[0] == '+') then |s| > 1 && AllDigits(s[1..]) else |s| > 0 && AllDigits(s)
  }

  /**
   * `strconv.ParseInt(s, 10, 64)`: an optional `+` or `-`, then at least one
   * decimal digit and nothing else; the value must fit an int64. With an
   * explicit base 10, Go accepts no `0x` prefix and no `_` separators.
   */
  function ParseInt64(s: string): (r: Option<int>)
    ensures r.Some? ==> DecimalText(s) && InInt64(r.value)
    ensures AllDigits(s) && |s| > 0 ==>
              r == (if DigitsValue(s) <= Int64Max then Some(DigitsValue(s)) else None)
    ensures |s| > 1 && s[0] == '+' && AllDigits(s[1..]) ==>
              r == (if DigitsValue(s[1..]) <= Int64Max then Some(DigitsValue(s[1..])) else None)
    ensures |s| > 1 && s[0] == '-' && AllDigits(s[1..]) ==>
              r == (if DigitsValue(s[1..]) <= -Int64Min then Some(-(DigitsValue(s[1..]) as int)) else None)
    ensures r.Some? && r.value < 0 ==> s[0] == '-'
  {
    if |s| == 0 then None
    else
      var neg := s[0] == '-';
      var body := if s[0] == '-' || s[0] == '+' then s[1..] else s;
      if |body| == 0 || !AllDigits(body) then None
      else
        var v: int := DigitsValue(body);
        if neg then (if v > -Int64Min then None else Some(-v))
        else (if v > Int64Max then None else Some(v))
  }

  /** `strconv.FormatInt(n, 10)` for a non-negative value: shortest digit string. */
  function FormatNat(n: nat): (s: string)
    ensures |s| >= 1 && AllDigits(s)
    ensures |s| > 1 ==> s[0] != '0'
  {
    if n < 10 then [DigitChar(n)] else FormatNat(n / 10) + [DigitChar(n % 10)]
  }

  /** `strconv.FormatInt(n, 10)`: a leading `-` for negatives, then the digits of |n|. */
  function FormatInt(n: int): (s: string)
    ensures |s| >= 1
    ensures n < 0 <==> s[0] == '-'
  {
    if n < 0 then "-" + FormatNat(-n) else FormatNat(n)
  }

  lemma {:induction false} DigitsOfFormatNat(n: nat)
    ensures DigitsValue(FormatNat(n)) == n
  {
    if n >= 10 {
      var p := FormatNat(n / 10);
      var s := p + [DigitChar(n % 10)];
      assert s[..|s| - 1] == p;
      DigitsOfFormatNat(n / 10);
    }
  }

  /** Reading back what `FormatInt` wrote gives the same int64. */
  lemma ParseFormatRoundTrip(n: int)
    requires InInt64(n)
    ensures ParseInt64(FormatInt(n)) == Some(n)
  {
    if n < 0 {
      var s := FormatInt(n);
      assert s[1..] == FormatNat(-n);
      DigitsOfFormatNat(-n);
    } else {
      DigitsOfFormatNat(n);
    }
  }

  /** Two distinct int64 values are never written as the same text. */
  lemma FormatIntInjective(a: int, b: int)
    requires InInt64(a) && InInt64(b)
    requires FormatInt(a) == FormatInt(b)
    ensures a == b
  {
    ParseFormatRoundTrip(a);
    ParseFormatRoundTrip(b);
  }
}
