/** Character classes of `<cctype>` in the "C" locale, as the shell uses them. */
module CType {

  /** `std::isspace` in the "C" locale: space, tab, newline, vertical tab,
      form feed and carriage return. */
  predicate IsSpace(c: char): (b: bool)
    ensures b <==> c == ' ' || 0x09 <= c as int <= 0x0D
  {
    c == ' ' || c == '\t' || c == '\n' || c == '\U{000B}' || c == '\U{000C}' || c == '\r'
  }

  /** `std::isdigit`: the ten decimal digits. */
  predicate IsDigit(c: char)
  {
    '0' <= c <= '9'
  }

  predicate AllSpace(s: string)
  {
    forall i :: 0 <= i < |s| ==> IsSpace(s[i])
  }
}
