/** The ASCII character classes the patterns and `int()` are written in terms of. */
module Ascii {

  predicate IsLowerAscii(c: char)
  {
    'a' <= c <= 'z'
  }

  predicate IsDigitAscii(c: char)
  {
    '0' <= c <= '9'
  }
}
