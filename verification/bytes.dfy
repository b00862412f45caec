/** Bytes, the byte classes the two stream parsers test for, and byte spellings of names. */
module Bytes {
  newtype byte = x: int | 0 <= x < 256

  type bytes = seq<byte>

  const TAB: byte := 0x09
  const LF: byte := 0x0A
  const CR: byte := 0x0D
  const SPACE: byte := 0x20
  const QUOTE: byte := 0x22
  const PLUS: byte := 0x2B
  const COMMA: byte := 0x2C
  const MINUS: byte := 0x2D
  const DOT: byte := 0x2E
  const SLASH: byte := 0x2F
  const ZERO: byte := 0x30
  const NINE: byte := 0x39
  const COLON: byte := 0x3A
  const UPPER_E: byte := 0x45
  const LBRACKET: byte := 0x5B
  const BACKSLASH: byte := 0x5C
  const RBRACKET: byte := 0x5D
  const LOWER_E: byte := 0x65
  const LOWER_U: byte := 0x75
  const LBRACE: byte := 0x7B
  const RBRACE: byte := 0x7D

  predicate IsSpace(b: byte) {
    b == SPACE || b == TAB || b == LF || b == CR
  }

  predicate AllSpace(s: bytes) {
    forall i :: 0 <= i < |s| ==> IsSpace(s[i])
  }

  predicate IsDigit(b: byte) {
    ZERO <= b <= NINE
  }

  predicate AllDigits(s: bytes) {
    forall i :: 0 <= i < |s| ==> IsDigit(s[i])
  }

  predicate IsHex(b: byte) {
    IsDigit(b) || 0x61 <= b <= 0x66 || 0x41 <= b <= 0x46
  }

  predicate AllHex(s: bytes) {
    forall i :: 0 <= i < |s| ==> IsHex(s[i])
  }

  /** The letters that may follow a backslash, `u` apart: " \ / b f n r t. */
  predicate IsEscapeLetter(b: byte) {
    b == QUOTE || b == BACKSLASH || b == SLASH || b == 0x62 || b == 0x66 || b == 0x6E || b == 0x72 || b == 0x74
  }

  /** A byte that ends a number or a bare word. */
  predicate IsDelimiter(b: byte) {
    IsSpace(b) || b == COMMA || b == RBRACE || b == RBRACKET
  }

  predicate IsAscii(s: string) {
    forall i :: 0 <= i < |s| ==> s[i] as int < 128
  }

  /** The bytes of an ASCII string. */
  function Ascii(s: string): (r: bytes)
    requires IsAscii(s)
    ensures |r| == |s|
  {
    seq(|s|, i requires 0 <= i < |s| => s[i] as byte)
  }

  /** The value of a run of decimal digits, most significant first. */
  function Decimal(digits: bytes): (r: nat)
    requires AllDigits(digits)
  {
    if digits == [] then 0 else
      var n := |digits| - 1;
      10 * Decimal(digits[..n]) + (digits[n] - ZERO) as nat
  }
}
