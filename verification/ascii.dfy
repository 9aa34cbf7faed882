/**
 The bytes of a source buffer and the lexer's three ASCII character classes
 (`is_digit`, `is_alpha`, `is_alpha_numeric`).
 */
module Ascii {

  /** One byte of the source buffer, written as the character with the same code. */
  type byte = c: char | c as int < 256

  /** The value `peek`, `peek_next` and `advance` return past the end of input. */
  const NUL: byte := '\0'

  /** The decimal digits, listed. */
  const Digits: string := "0123456789"

  predicate IsDigit(c: byte) {
    '0' <= c <= '9'
  }

  predicate IsAlpha(c: byte) {
    ('a' <= c <= 'z') || ('A' <= c <= 'Z') || c == '_'
  }

  predicate IsAlphaNumeric(c: byte) {
    IsAlpha(c) || IsDigit(c)
  }

  /** The range test of `is_digit` accepts exactly the ten listed digits. */
  lemma DigitClass(c: byte)
    ensures IsDigit(c) <==> c in Digits
  {
  }

  /**
   The two classes are disjoint, and neither holds of a byte of 128 or
   above nor of the past-the-end value.
   */
  lemma ClassesAreAscii(c: byte)
    ensures !(IsAlpha(c) && IsDigit(c))
    ensures c as int >= 128 ==> !IsAlphaNumeric(c)
    ensures !IsAlphaNumeric(NUL)
  {
  }
}
