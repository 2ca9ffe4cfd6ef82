/** Case-insensitive string comparison as `String.equalsIgnoreCase` performs it,
    restricted to the ASCII letters. */
module CaseFold {

  /** Upper-case an ASCII letter; every other character is left as it is. */
  function Upper(c: char): char {
    if 'a' <= c <= 'z' then (c as int - 32) as char else c
  }

  /** Lower-case an ASCII letter; every other character is left as it is. */
  function Lower(c: char): char {
    if 'A' <= c <= 'Z' then (c as int + 32) as char else c
  }

  /** The per-character test of `equalsIgnoreCase`: the characters are equal,
      or equal once upper-cased, or equal once the upper-cased forms are lower-cased. */
  predicate CharsEqualIgnoreCase(a: char, b: char) {
    a == b || Upper(a) == Upper(b) || Lower(Upper(a)) == Lower(Upper(b))
  }

  /** `s.equalsIgnoreCase(t)`: same length and every position matches ignoring case. */
  predicate EqualsIgnoreCase(s: string, t: string) {
    |s| == |t| && forall i :: 0 <= i < |s| ==> CharsEqualIgnoreCase(s[i], t[i])
  }

  /** The lower-case form of a string, position by position. */
  function ToLower(s: string): (r: string)
    ensures |r| == |s|
    ensures forall i :: 0 <= i < |s| ==> r[i] == Lower(s[i])
  {
    if s == [] then [] else [Lower(s[0])] + ToLower(s[1..])
  }

  /** Java's three-step character test agrees with comparing lower-case forms. */
  lemma CharsEqualIgnoreCaseIffLower(a: char, b: char)
    ensures CharsEqualIgnoreCase(a, b) <==> Lower(a) == Lower(b)
  {
  }

  /** Two strings are equal ignoring case exactly when their lower-case forms are equal. */
  lemma EqualsIgnoreCaseIffToLower(s: string, t: string)
    ensures EqualsIgnoreCase(s, t) <==> ToLower(s) == ToLower(t)
  {
    forall i | 0 <= i < |s| && |s| == |t| {
      CharsEqualIgnoreCaseIffLower(s[i], t[i]);
    }
  }

  /** `equalsIgnoreCase` is an equivalence relation, and plain equality implies it. */
  lemma EqualsIgnoreCaseIsEquivalence(s: string, t: string, u: string)
    ensures s == t ==> EqualsIgnoreCase(s, t)
    ensures EqualsIgnoreCase(s, t) ==> EqualsIgnoreCase(t, s)
    ensures EqualsIgnoreCase(s, t) && EqualsIgnoreCase(t, u) ==> EqualsIgnoreCase(s, u)
  {
  }
}
