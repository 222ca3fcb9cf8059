/** Values shared by the whole model: optional values, opaque C pointers,
    the C `int` range, and the decimal and hexadecimal renderings that the
    failure messages use. */
module Basics {

  /** A C pointer that may be null (the caller message of an assertion,
      the message passed to a result handler). */
  datatype Option<+T> = None | Some(value: T)

  /** An opaque C pointer, known only by its address; 0 is the null pointer.
      The framework only ever compares pointers for equality. */
  type Address = nat

  const Null: int := 0

  /** The range of C `signed int` on the platforms the framework targets. */
  const IntMin: int := -0x8000_0000
  const IntMax: int := 0x7FFF_FFFF

  type CInt = x: int | IntMin <= x <= IntMax

  function DigitChar(d: nat): (c: char)
    requires d < 16
  {
    "0123456789abcdef"[d]
  }

  /** Decimal digits of a natural number, most significant first. */
  function NatText(n: nat): (s: string)
    ensures 1 <= |s|
    ensures forall i :: 0 <= i < |s| ==> '0' <= s[i] <= '9'
  {
    if n < 10 then [DigitChar(n)] else NatText(n / 10) + [DigitChar(n % 10)]
  }

  /** What `%i` prints for a C int: an optional minus sign, then the digits. */
  function IntText(i: int): (s: string)
    ensures 1 <= |s|
    ensures s[0] == '-' <==> i < 0
  {
    if i < 0 then "-" + NatText(-i) else NatText(i)
  }

  /** Lower-case hexadecimal digits of a natural number. */
  function HexText(n: nat): (s: string)
    ensures 1 <= |s|
  {
    if n < 16 then [DigitChar(n)] else HexText(n / 16) + [DigitChar(n % 16)]
  }

  /** What `%016x` prints: the hexadecimal digits padded with zeros on the
      left to at least sixteen characters. */
  function PaddedHex(n: nat): (s: string)
    ensures 16 <= |s|
  {
    var digits := HexText(n);
    if |digits| < 16 then seq(16 - |digits|, _ => '0') + digits else digits
  }
}
