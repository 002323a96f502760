/** The few Ruby and ActiveSupport string operations the core relies on. */
module Text {
  import opened Wrappers

  /** `s.start_with?(prefix)` */
  predicate StartsWith(s: string, prefix: string) {
    |prefix| <= |s| && s[..|prefix|] == prefix
  }

  /** A character of the POSIX class `[[:space:]]` as Ruby matches it on a Unicode string. */
  predicate IsSpace(ch: char) {
    ch == ' ' || ('\t' <= ch <= '\r') || ch == '\U{85}' || ch == '\U{A0}' || ch == '\U{1680}'
    || ('\U{2000}' <= ch <= '\U{200A}') || ch == '\U{2028}' || ch == '\U{2029}'
    || ch == '\U{202F}' || ch == '\U{205F}' || ch == '\U{3000}'
  }

  /** `s.blank?` for a string: empty or made only of white space. */
  predicate Blank(s: string) {
    forall i :: 0 <= i < |s| ==> IsSpace(s[i])
  }

  /** `x.present?` for a string-valued setting that may be `nil`. */
  predicate Present(x: Option<string>) {
    x.Some? && !Blank(x.value)
  }
}
