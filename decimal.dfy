/**
 * The elapsed-seconds text of the status message:
 * `((now - time) / 1000).toFixed(0)` for an integer number of milliseconds.
 * `toFixed(0)` rounds to the nearest integer, a tie going to the larger
 * magnitude, prints a negative value (even one that rounds to zero) with a
 * leading '-', and writes the digits in base ten without leading zeros.
 */
module Decimal {
  predicate IsDigits(s: string) {
    forall i :: 0 <= i < |s| ==> '0' <= s[i] <= '9'
  }

  function DigitChar(d: nat): (c: char)
    requires d < 10
    ensures '0' <= c <= '9' && c as int - '0' as int == d
  {
    ('0' as int + d) as char
  }

  /** The number a string of decimal digits denotes. */
  function DecimalValue(s: string): nat
    requires IsDigits(s)
  {
    if s == [] then 0 else 10 * DecimalValue(s[..|s| - 1]) + (s[|s| - 1] as int - '0' as int)
  }

  /** The base-ten numeral of `n`: digits only, no leading zero, and it denotes `n`. */
  function NatToDecimal(n: nat): (s: string)
    ensures 1 <= |s| && IsDigits(s)
    ensures |s| > 1 ==> s[0] != '0'
    ensures DecimalValue(s) == n
    decreases n
  {
    if n < 10 then [DigitChar(n)]
    else
      var prefix := NatToDecimal(n / 10);
      var s := prefix + [DigitChar(n % 10)];
      assert s[..|s| - 1] == prefix;
      s
  }

  /** The nearest whole number of seconds to `ms` milliseconds, a tie going up. */
  function RoundedSeconds(ms: nat): (n: nat)
    ensures 1000 * n - 500 <= ms < 1000 * n + 500
  {
    (ms + 500) / 1000
  }

  /** `(ms / 1000).toFixed(0)`. */
  function ElapsedText(ms: int): (s: string)
    ensures 1 <= |s|
    ensures s[0] == '-' <==> ms < 0
    ensures ms >= 0 ==> IsDigits(s) && DecimalValue(s) == RoundedSeconds(ms)
    ensures ms < 0 ==> IsDigits(s[1..]) && DecimalValue(s[1..]) == RoundedSeconds(-ms)
    ensures var digits := if ms < 0 then s[1..] else s;
      1 <= |digits| && (|digits| > 1 ==> digits[0] != '0')
  {
    if ms >= 0 then NatToDecimal(RoundedSeconds(ms))
    else
      var digits := NatToDecimal(RoundedSeconds(-ms));
      assert ("-" + digits)[1..] == digits;
      "-" + digits
  }
}
