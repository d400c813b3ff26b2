/** What several parts need of strings. */
module Strings {
  predicate Space(c: char) {
    c == ' ' || c == '\t' || c == '\n' || c == '\r'
  }

  /** Empty once the surrounding white space is trimmed. */
  predicate Blank(s: string) {
    forall i :: 0 <= i < |s| ==> Space(s[i])
  }
}
