/**
 The few `java.lang.String` operations the listener relies on: `startsWith`,
 `equalsIgnoreCase` and string concatenation of a possibly-null value.
 Case mapping is modelled for ASCII letters only.
 */
module JavaText {
  import opened Wrappers

  /** `Character.toUpperCase`, restricted to ASCII letters. */
  function ToUpper(c: char): char {
    if 'a' <= c <= 'z' then (c as int - 32) as char else c
  }

  /** `Character.toLowerCase`, restricted to ASCII letters. */
  function ToLower(c: char): char {
    if 'A' <= c <= 'Z' then (c as int + 32) as char else c
  }

  /** The per-character test of `String.regionMatches(true, ...)`: equal, or equal
      after upper-casing, or equal after upper- then lower-casing. */
  predicate CharsEqualIgnoreCase(c: char, d: char) {
    c == d || ToUpper(c) == ToUpper(d) || ToLower(ToUpper(c)) == ToLower(ToUpper(d))
  }

  /** `a.equalsIgnoreCase(b)` for non-null `a` and `b`. */
  predicate EqualsIgnoreCase(a: string, b: string) {
    |a| == |b| && forall i :: 0 <= i < |a| ==> CharsEqualIgnoreCase(a[i], b[i])
  }

  /** `s.startsWith(prefix)`. */
  predicate StartsWith(s: string, prefix: string) {
    |prefix| <= |s| && s[..|prefix|] == prefix
  }

  /** The text Java's `+` appends for a possibly-null string operand. */
  function Render(s: Option<string>): string {
    match s
    case Some(t) => t
    case None => "null"
  }

  /** `equalsIgnoreCase` is an equivalence relation (reflexive, symmetric, transitive). */
  lemma EqualsIgnoreCaseIsEquivalence(a: string, b: string, c: string)
    ensures EqualsIgnoreCase(a, a)
    ensures EqualsIgnoreCase(a, b) ==> EqualsIgnoreCase(b, a)
    ensures EqualsIgnoreCase(a, b) && EqualsIgnoreCase(b, c) ==> EqualsIgnoreCase(a, c)
  {
  }

  /** Starting with "/" means: non-empty with a slash in front. */
  lemma StartsWithSlash(s: string)
    ensures StartsWith(s, "/") <==> |s| > 0 && s[0] == '/'
  {
  }
}
