/**
  Case-insensitive string comparison as Java's `String.equalsIgnoreCase` performs it,
  restricted to ASCII letters: two strings are equal ignoring case when they have the
  same length and every pair of characters at the same position is equal, has equal
  upper cases, or has equal lower cases of those upper cases.
 */
module AsciiCase {

  /** ASCII upper-casing of one character; anything but 'a'..'z' is left alone. */
  function Upper(c: char): char {
    if 'a' <= c <= 'z' then (c as int - 32) as char else c
  }

  /** ASCII lower-casing of one character; anything but 'A'..'Z' is left alone. */
  function Lower(c: char): char {
    if 'A' <= c <= 'Z' then (c as int + 32) as char else c
  }

  /** The per-character test of a case-ignoring region match. */
  predicate CharsMatch(a: char, b: char) {
    a == b || Upper(a) == Upper(b) || Lower(Upper(a)) == Lower(Upper(b))
  }

  predicate EqualsIgnoreCase(a: string, b: string) {
    |a| == |b| && forall i :: 0 <= i < |a| ==> CharsMatch(a[i], b[i])
  }

  /** The case fold: every character lower-cased. */
  function Fold(s: string): (r: string)
    ensures |r| == |s|
    ensures forall i :: 0 <= i < |s| ==> r[i] == Lower(s[i])
  {
    seq(|s|, i requires 0 <= i < |s| => Lower(s[i]))
  }

  /** Two characters match ignoring case exactly when their lower cases agree. */
  lemma CharsMatchIffSameLower(a: char, b: char)
    ensures CharsMatch(a, b) <==> Lower(a) == Lower(b)
  {
  }

  /** The region match is the same relation as equality of the case folds. */
  lemma EqualsIgnoreCaseIffSameFold(a: string, b: string)
    ensures EqualsIgnoreCase(a, b) <==> Fold(a) == Fold(b)
  {
  }

  /** Ignoring case is an equivalence relation on strings. */
  lemma EqualsIgnoreCaseIsEquivalence(a: string, b: string, c: string)
    ensures EqualsIgnoreCase(a, a)
    ensures EqualsIgnoreCase(a, b) ==> EqualsIgnoreCase(b, a)
    ensures EqualsIgnoreCase(a, b) && EqualsIgnoreCase(b, c) ==> EqualsIgnoreCase(a, c)
  {
  }
}
