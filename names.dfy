/**
 * Item names and the two ways the routes compare them: exact equality
 * (delete and update) and case-insensitive equality (the duplicate check of
 * add). Case folding is ASCII only.
 */
module Names {

  predicate IsUpper(c: char) {
    'A' <= c <= 'Z'
  }

  /** ASCII lower-casing of one character; every other character is kept. */
  function LowerChar(c: char): (d: char)
    ensures !IsUpper(d)
    ensures IsUpper(c) ==> d as int - c as int == 'a' as int - 'A' as int
    ensures !IsUpper(c) ==> d == c
  {
    if IsUpper(c) then (c as int - 'A' as int + 'a' as int) as char else c
  }

  /** The ASCII lower-case form of a whole name. */
  function Lower(s: string): (r: string)
    ensures |r| == |s|
    ensures forall i :: 0 <= i < |s| ==> r[i] == LowerChar(s[i])
  {
    if s == [] then [] else [LowerChar(s[0])] + Lower(s[1..])
  }

  /** Case-insensitive equality of two names: equal names are equal
      ignoring case, and names equal ignoring case have the same length. */
  predicate SameIgnoringCase(a: string, b: string)
    ensures a == b ==> SameIgnoringCase(a, b)
    ensures SameIgnoringCase(a, b) ==> |a| == |b|
  {
    Lower(a) == Lower(b)
  }

  /** Lower-casing twice is lower-casing once. */
  lemma LowerIdempotent(s: string)
    ensures Lower(Lower(s)) == Lower(s)
  {
  }

  /** Case-insensitive equality holds exactly when the names have the same
      length and agree character by character after lower-casing. */
  lemma SameIgnoringCaseCharwise(a: string, b: string)
    ensures SameIgnoringCase(a, b) <==>
      |a| == |b| && forall i :: 0 <= i < |a| ==> LowerChar(a[i]) == LowerChar(b[i])
  {
  }

  /** Case-insensitive equality is symmetric and transitive (and, by its own
      contract, reflexive): it is an equivalence on names. */
  lemma SameIgnoringCaseIsEquivalence(a: string, b: string, c: string)
    ensures SameIgnoringCase(a, b) ==> SameIgnoringCase(b, a)
    ensures SameIgnoringCase(a, b) && SameIgnoringCase(b, c) ==> SameIgnoringCase(a, c)
  {
  }

  /** The characters that are special in a PCRE pattern outside a character
      class, together with the closing brackets `]` and `}` (literal there,
      but excluded too, to stay on the safe side). */
  predicate IsRegexMeta(c: char) {
    c in {'.', '^', '$', '*', '+', '?', '(', ')', '[', ']', '{', '}', '|', '\\'}
  }

  /** A name with no special character: placed between `^` and `$` with the
      `i` option, it matches a stored name exactly when the two are equal
      ignoring case (apart from PCRE's `$` also matching before a final
      newline of the stored name). */
  predicate IsRegexLiteral(s: string) {
    forall i :: 0 <= i < |s| ==> !IsRegexMeta(s[i])
  }
}
