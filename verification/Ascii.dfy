/** Character classes. */
module Ascii {
  /** `std::isspace` in the "C" locale: blank, tab, line feed, vertical tab, form feed
      and carriage return. */
  predicate IsSpace(c: char) {
    c == ' ' || 9 <= c as int <= 13
  }
}
