/** Character classes. Python's `\w` and `\s` and `str.isspace` are Unicode-aware;
    this model fixes their ASCII members. */
module Chars {

  predicate IsDigit(c: char) { '0' <= c <= '9' }

  predicate IsLowerLetter(c: char) { 'a' <= c <= 'z' }

  /** `[0-9a-f]`. */
  predicate IsLowerHex(c: char) { IsDigit(c) || 'a' <= c <= 'f' }

  /** `\w` restricted to ASCII: letters, digits and the underscore. */
  predicate IsWordChar(c: char) { 'a' <= c <= 'z' || 'A' <= c <= 'Z' || IsDigit(c) || c == '_' }

  /** `\s` and `str.isspace` restricted to ASCII: space, \t, \n, \v, \f, \r and
      the separators \x1c to \x1f. */
  predicate IsSpace(c: char) { c == ' ' || '\t' <= c <= '\r' || '\U{1c}' <= c <= '\U{1f}' }

  predicate AllDigits(s: string) { forall i | 0 <= i < |s| :: IsDigit(s[i]) }

  /** The value of a non-empty decimal digit string, as `parseInt` gives it. */
  function DecimalValue(s: string): nat
    requires AllDigits(s)
  {
    if s == [] then 0 else 10 * DecimalValue(s[..|s| - 1]) + (s[|s| - 1] as int - '0' as int)
  }
}
