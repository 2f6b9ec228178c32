/** Values of the Java platform that the webhook code handles: nullable
    references, strings compared by identity, and the string predicates it
    calls (`String.startsWith`, `StringUtils.isBlank`). */
module JavaText {

  datatype Option<+T> = None | Some(value: T)

  /** A Java `String` reference: null, the object the JVM shares for the
      literal `""`, or any other string object, with its characters. Java's
      `s == ""` compares references, so it holds of `EmptyLiteral` only.
      Whether an empty string made at run time is that shared object depends
      on the code and the JDK that made it; the model takes it as an input. */
  datatype JavaString = Null | EmptyLiteral | Str(value: string)
  {
    /** The characters of a non-null reference. */
    function Chars(): string
      requires !Null?
    {
      if EmptyLiteral? then "" else value
    }
  }

  /** Java's `s == ""`: reference equality with the shared empty literal. */
  predicate IsEmptyLiteralRef(s: JavaString)
  {
    s.EmptyLiteral?
  }

  /** `s.startsWith(prefix)`: a raw comparison of leading characters. */
  predicate StartsWith(s: string, prefix: string)
  {
    |prefix| <= |s| && s[..|prefix|] == prefix
  }

  /** `Character.isWhitespace`: the Unicode space, line and paragraph
      separators other than the non-breaking ones (U+00A0, U+2007, U+202F),
      plus the ASCII controls HT, LF, VT, FF, CR and FS, GS, RS, US. */
  predicate IsWhitespace(c: char)
  {
    c == ' ' || c == '\U{1680}' || ('\U{2000}' <= c <= '\U{200A}' && c != '\U{2007}')
    || c == '\U{205F}' || c == '\U{3000}' || c == '\U{2028}' || c == '\U{2029}'
    || ('\t' <= c <= '\r') || ('\U{001C}' <= c <= '\U{001F}')
  }

  /** `StringUtils.isBlank` on a non-null string: empty or only whitespace. */
  predicate IsBlank(s: string)
  {
    forall i :: 0 <= i < |s| ==> IsWhitespace(s[i])
  }
}
