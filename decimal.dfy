/** Rust's `Display` for integers (what `format!("{}", n)` writes) and its
    inverse, `str::parse::<i64>()`. */
module Decimal {
  import opened Common

  predicate IsDigit(c: char) {
    '0' <= c <= '9'
  }

  predicate AllDigits(s: string) {
    forall i :: 0 <= i < |s| ==> IsDigit(s[i])
  }

  function DigitValue(c: char): (d: nat)
    requires IsDigit(c)
    ensures d < 10
  {
    c as int - '0' as int
  }

  function DigitChar(d: nat): (c: char)
    requires d < 10
    ensures IsDigit(c) && DigitValue(c) == d
  {
    ('0' as int + d) as char
  }

  /** The decimal digits of `n`, most significant first, without leading zeros. */
  function NatToString(n: nat): (s: string)
    ensures |s| >= 1 && AllDigits(s)
    ensures |s| > 1 ==> s[0] != '0'
    ensures n < 10 <==> |s| == 1
    decreases n
  {
    if n < 10 then [DigitChar(n)] else NatToString(n / 10) + [DigitChar(n % 10)]
  }

  /** `format!("{}", x)` for a signed integer: a `-` before the digits of a negative value. */
  function IntToString(x: int): (s: string)
    ensures |s| >= 1
    ensures s[0] == '-' <==> x < 0
    ensures x >= 0 ==> AllDigits(s)
    ensures forall i :: 1 <= i < |s| ==> IsDigit(s[i])
  {
    if x < 0 then "-" + NatToString(-x) else NatToString(x)
  }

  /** The value of a string of decimal digits. */
  function DigitsValue(s: string): nat
    requires AllDigits(s)
    decreases |s|
  {
    if s == [] then 0 else 10 * DigitsValue(s[..|s| - 1]) + DigitValue(s[|s| - 1])
  }

  /** `s.parse::<i64>()`: an optional `+` or `-`, at least one digit, nothing else,
      and a value within the range of `i64`. */
  function ParseInt64(s: string): (r: Option<Int64>)
    ensures r.Some? ==> |s| >= 1 && forall i :: 1 <= i < |s| ==> IsDigit(s[i])
    ensures r.Some? && !IsDigit(s[0]) ==> |s| >= 2 && (s[0] == '-' || s[0] == '+')
    ensures r.Some? && r.value < 0 ==> s[0] == '-'
    ensures |s| >= 1 && AllDigits(s) && DigitsValue(s) <= I64_MAX ==> r == Some(DigitsValue(s))
  {
    var negative := |s| > 0 && s[0] == '-';
    var digits := if |s| > 0 && (s[0] == '-' || s[0] == '+') then s[1..] else s;
    if digits == [] || !AllDigits(digits) then None
    else
      var magnitude: int := DigitsValue(digits);
      var v := if negative then -magnitude else magnitude;
      if I64_MIN <= v <= I64_MAX then Some(v) else None
  }

  /** Reading back the digits Display writes gives the number again. */
  lemma {:induction false} DigitsValueOfNatToString(n: nat)
    ensures DigitsValue(NatToString(n)) == n
    decreases n
  {
    if n >= 10 {
      var s := NatToString(n);
      DigitsValueOfNatToString(n / 10);
      assert s[..|s| - 1] == NatToString(n / 10);
    }
  }

  /** `IntToString(x).parse::<i64>()` gives back `x` for every `i64`. */
  lemma Int64RoundTrip(x: Int64)
    ensures ParseInt64(IntToString(x)) == Some(x)
  {
    if x < 0 {
      var m: nat := -(x as int);
      var t := NatToString(m);
      assert ("-" + t)[1..] == t;
      DigitsValueOfNatToString(m);
    } else {
      DigitsValueOfNatToString(x);
    }
  }

  /** Two different integers never print the same. */
  lemma IntToStringInjective(x: Int64, y: Int64)
    requires IntToString(x) == IntToString(y)
    ensures x == y
  {
    Int64RoundTrip(x);
    Int64RoundTrip(y);
  }
}
