/** The facts about characters that the Go code takes from `unicode` and `strings`.
    A `char` is one rune. */
module Alphabet {

  /** `fold` picks one representative of each class of characters that
      `strings.EqualFold` treats as equal. */
  datatype Unicode = Unicode(
    isSpace: char -> bool,
    isLetter: char -> bool,
    isDigit: char -> bool,
    upper: char -> char,
    lower: char -> char,
    fold: char -> char)

  function Map(f: char -> char, s: string): (t: string)
    ensures |t| == |s| && forall i :: 0 <= i < |s| ==> t[i] == f(s[i])
  {
    seq(|s|, i requires 0 <= i < |s| => f(s[i]))
  }

  function ToUpper(u: Unicode, s: string): string {
    Map(u.upper, s)
  }

  function ToLower(u: Unicode, s: string): string {
    Map(u.lower, s)
  }

  predicate EqualFold(u: Unicode, s: string, t: string) {
    Map(u.fold, s) == Map(u.fold, t)
  }

  predicate AllSpace(u: Unicode, s: string) {
    forall c <- s :: u.isSpace(c)
  }

  /** Upper-casing twice is upper-casing once. */
  ghost predicate UpperIsIdempotent(u: Unicode) {
    forall c :: u.upper(u.upper(c)) == u.upper(c)
  }
}
