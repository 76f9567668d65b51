/** Shapes of the string tags the source uses on the wire. */
module Tags {

  /** A non-empty word of lower-case ASCII letters, such as `contact`. */
  predicate IsLowerWord(s: string) {
    |s| > 0 && forall c :: c in s ==> 'a' <= c <= 'z'
  }

  /** A non-empty upper-case identifier with underscores, such as `NOT_FOUND`. */
  predicate IsUpperSnake(s: string) {
    |s| > 0 && forall c :: c in s ==> 'A' <= c <= 'Z' || c == '_'
  }
}
