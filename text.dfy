/** Character classes shared by the text formatting code. */
module Text {
  /** An ASCII decimal digit: what both `\d` and the digits of `toString` are. */
  predicate IsDigit(c: char) {
    '0' <= c <= '9'
  }

  /** Every character of `s` is a digit. */
  predicate AllDigits(s: string) {
    forall i :: 0 <= i < |s| ==> IsDigit(s[i])
  }
}
