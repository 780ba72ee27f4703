/** Decimal and hexadecimal numerals as the marshaling layer reads and
    writes them: Ruby's `Integer(token)` (restricted to plain decimal),
    `Integer#to_s` for the `"base[count]"` output names, and `format('%x')`
    for pointer results. */
module Numerals {
  import opened Wrappers

  predicate IsDigit(c: char)
  {
    '0' <= c <= '9'
  }

  predicate AllDigits(s: string)
  {
    forall k :: 0 <= k < |s| ==> IsDigit(s[k])
  }

  function DigitChar(d: nat): char
    requires d < 10
  {
    ('0' as int + d) as char
  }

  function DigitValue(c: char): nat
    requires IsDigit(c)
  {
    c as int - '0' as int
  }

  /** `Integer#to_s` of a natural number: its decimal digits, with no
      leading zero. */
  function DecimalString(n: nat): (r: string)
    ensures |r| >= 1 && AllDigits(r)
    ensures r[0] == '0' ==> n == 0
    decreases n
  {
    if n < 10 then [DigitChar(n)] else DecimalString(n / 10) + [DigitChar(n % 10)]
  }

  /** The number an all-digit string denotes. */
  function DigitsValue(s: string): nat
    requires AllDigits(s)
  {
    if |s| == 0 then 0 else DigitsValue(s[..|s| - 1]) * 10 + DigitValue(s[|s| - 1])
  }

  /** Digits with no superfluous leading zero ("0" itself is fine). */
  predicate CanonicalDigits(s: string)
  {
    |s| >= 1 && AllDigits(s) && (s[0] == '0' ==> |s| == 1)
  }

  /** Ruby's `Integer(token)` on decimal input: an optional sign followed by
      canonical digits. Anything else is refused (Ruby raises ArgumentError). */
  function ParseInteger(token: string): (r: Option<int>)
    ensures r.Some? ==> |token| >= 1
  {
    var signed := |token| > 0 && (token[0] == '-' || token[0] == '+');
    var digits := if signed then token[1..] else token;
    if !CanonicalDigits(digits) then None
    else
      var magnitude: int := DigitsValue(digits);
      Some(if signed && token[0] == '-' then -magnitude else magnitude)
  }

  /** `Integer#to_s` of any integer. */
  function IntegerString(i: int): string
  {
    if i < 0 then "-" + DecimalString(-i) else DecimalString(i)
  }

  /** Reading back the decimal digits of n gives n. */
  lemma {:induction false} DecimalRoundTrip(n: nat)
    ensures DigitsValue(DecimalString(n)) == n
    decreases n
  {
    var s := DecimalString(n);
    if n >= 10 {
      DecimalRoundTrip(n / 10);
      assert s[..|s| - 1] == DecimalString(n / 10);
    }
  }

  /** Integer parsing inverts integer printing, for every integer. */
  lemma ParseIntegerRoundTrip(i: int)
    ensures ParseInteger(IntegerString(i)) == Some(i)
  {
    var mag: nat := if i < 0 then -i else i;
    var d := DecimalString(mag);
    DecimalRoundTrip(mag);
    if i < 0 {
      assert IntegerString(i)[1..] == d;
    }
  }

  function HexChar(d: nat): char
    requires d < 16
  {
    if d < 10 then ('0' as int + d) as char else ('a' as int + d - 10) as char
  }

  /** The digits Ruby's `format('%x', n)` prints. A negative number is shown
      in two's complement with as few digits as keep a leading `f`
      (-1 is "f", -255 is "f01"); Ruby prefixes those digits with "..". */
  function HexDigits(n: int): (r: string)
    ensures |r| >= 1
    decreases if n >= 0 then n else -n
  {
    if 0 <= n < 16 then [HexChar(n)]
    else if n == -1 then "f"
    else HexDigits(n / 16) + [HexChar(n % 16)]
  }

  /** `format('0x%x', n)`. */
  function FormatHex(n: int): (r: string)
  {
    "0x" + (if n < 0 then ".." else "") + HexDigits(n)
  }

  predicate IsHexChar(c: char)
  {
    '0' <= c <= '9' || 'a' <= c <= 'f'
  }

  function HexValue(c: char): nat
    requires IsHexChar(c)
  {
    if c <= '9' then c as int - '0' as int else c as int - 'a' as int + 10
  }

  /** The number a string of lower-case hex digits denotes. */
  function HexNumber(s: string): nat
    requires forall k :: 0 <= k < |s| ==> IsHexChar(s[k])
  {
    if |s| == 0 then 0 else HexNumber(s[..|s| - 1]) * 16 + HexValue(s[|s| - 1])
  }

  function Pow16(k: nat): nat
  {
    if k == 0 then 1 else 16 * Pow16(k - 1)
  }

  /** The hex digits are lower-case hex characters; for a non-negative n they
      denote n, and for a negative n they denote n + 16^(number of digits),
      its two's complement, whose leading digit is `f`. */
  lemma {:induction false} HexDigitsMeaning(n: int)
    ensures forall k :: 0 <= k < |HexDigits(n)| ==> IsHexChar(HexDigits(n)[k])
    ensures n >= 0 ==> HexNumber(HexDigits(n)) == n
    ensures n < 0 ==> HexNumber(HexDigits(n)) == n + Pow16(|HexDigits(n)|)
    ensures n < 0 ==> HexDigits(n)[0] == 'f'
    decreases if n >= 0 then n else -n
  {
    var s := HexDigits(n);
    if 0 <= n < 16 {
    } else if n == -1 {
    } else {
      var q, d := n / 16, n % 16;
      HexDigitsMeaning(q);
      assert s == HexDigits(q) + [HexChar(d)];
      assert s[..|s| - 1] == HexDigits(q);
      assert HexValue(HexChar(d)) == d;
    }
  }
}
