/** Decimal and hexadecimal renderings of numbers, as Swift's `description` and JavaScript's `toString` produce them. */
module Text {
  import opened Wrappers

  predicate IsDigit(c: char) {
    '0' <= c <= '9'
  }

  function Digit(d: int): (c: char)
    requires 0 <= d < 10
    ensures IsDigit(c)
  {
    (48 + d) as char
  }

  function DigitValue(c: char): (d: int)
    requires IsDigit(c)
    ensures 0 <= d < 10 && Digit(d) == c
  {
    c as int - 48
  }

  /** Decimal text of a natural number, most significant digit first, no leading zeros. */
  function NatText(n: nat): (s: string)
    ensures |s| > 0 && forall i :: 0 <= i < |s| ==> IsDigit(s[i])
    decreases n
  {
    if n < 10 then [Digit(n)] else NatText(n / 10) + [Digit(n % 10)]
  }

  /** Swift's `Int.description`: a minus sign for negative values, then the decimal digits. */
  function IntText(i: int): string {
    if i < 0 then "-" + NatText(-i) else NatText(i)
  }

  /** Two decimal digits with a leading zero, as the `HH` and `mm` fields of a date format. */
  function Pad2(n: int): (s: string)
    requires 0 <= n < 100
    ensures |s| == 2 && IsDigit(s[0]) && IsDigit(s[1])
  {
    [Digit(n / 10), Digit(n % 10)]
  }

  /** The number two decimal digits stand for. */
  function Unpad2(s: string): (n: int)
    requires |s| == 2 && IsDigit(s[0]) && IsDigit(s[1])
    ensures 0 <= n < 100
  {
    10 * DigitValue(s[0]) + DigitValue(s[1])
  }

  lemma Pad2RoundTrip(n: int)
    requires 0 <= n < 100
    ensures Unpad2(Pad2(n)) == n
  {
  }

  predicate IsLowerHex(c: char) {
    IsDigit(c) || 'a' <= c <= 'f'
  }

  function HexDigit(d: int): (c: char)
    requires 0 <= d < 16
    ensures IsLowerHex(c)
  {
    if d < 10 then Digit(d) else (87 + d) as char
  }

  function HexValue(c: char): (d: int)
    requires IsLowerHex(c)
    ensures 0 <= d < 16 && HexDigit(d) == c
  {
    if IsDigit(c) then DigitValue(c) else c as int - 87
  }

  /** JavaScript's `b.toString(16).padStart(2, '0')` for a byte: two lowercase hexadecimal digits. */
  function HexByte(b: byte): (s: string)
    ensures |s| == 2 && IsLowerHex(s[0]) && IsLowerHex(s[1])
  {
    [HexDigit(b as int / 16), HexDigit(b as int % 16)]
  }
}
