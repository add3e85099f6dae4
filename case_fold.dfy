// Case-insensitive string comparison as used by the shelter's name lookup
// (Java's String.equalsIgnoreCase), restricted to an ASCII case fold.

module CaseFold {

  /** Folds one character: 'A'..'Z' map to 'a'..'z', every other character to itself. */
  function FoldChar(c: char): char
  {
    if 'A' <= c <= 'Z' then (c as int + 32) as char else c
  }

  /** The string with every character folded. */
  function FoldString(s: string): (r: string)
    ensures |r| == |s|
    ensures forall i :: 0 <= i < |s| ==> r[i] == FoldChar(s[i])
  {
    if s == [] then [] else [FoldChar(s[0])] + FoldString(s[1..])
  }

  /** Two strings are equal ignoring case when they have the same length and
      agree character by character after folding. */
  predicate EqualsIgnoreCase(a: string, b: string)
  {
    |a| == |b| && forall i :: 0 <= i < |a| ==> FoldChar(a[i]) == FoldChar(b[i])
  }

  /** The comparison is exactly equality of the folded strings. */
  lemma EqualsIgnoreCaseIsFoldedEquality(a: string, b: string)
    ensures EqualsIgnoreCase(a, b) <==> FoldString(a) == FoldString(b)
  {
  }

  /** The comparison is an equivalence relation. */
  lemma EqualsIgnoreCaseIsEquivalence(a: string, b: string, c: string)
    ensures EqualsIgnoreCase(a, a)
    ensures EqualsIgnoreCase(a, b) ==> EqualsIgnoreCase(b, a)
    ensures EqualsIgnoreCase(a, b) && EqualsIgnoreCase(b, c) ==> EqualsIgnoreCase(a, c)
  {
  }

  /** A string matches its own folding. */
  lemma MatchesOwnFolding(a: string)
    ensures EqualsIgnoreCase(a, FoldString(a))
  {
  }
}
