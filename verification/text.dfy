/**
 Case-insensitive comparison of city names. JavaScript's `toLowerCase` is
 modelled as an ASCII fold: 'A'..'Z' become 'a'..'z' and every other
 character is left as it is.
 */
module Text {

  predicate IsUpper(c: char) {
    'A' <= c <= 'Z'
  }

  /** The lower-case form of one character. */
  function LowerChar(c: char): (d: char)
    ensures !IsUpper(d)
    ensures !IsUpper(c) ==> d == c
    ensures IsUpper(c) ==> 'a' <= d <= 'z' && d as int - c as int == 'a' as int - 'A' as int
  {
    if IsUpper(c) then (c as int - 'A' as int + 'a' as int) as char else c
  }

  /** The lower-case form of a string, character by character. */
  function ToLower(s: string): (r: string)
    ensures |r| == |s|
    ensures forall i :: 0 <= i < |r| ==> !IsUpper(r[i])
    ensures forall i :: 0 <= i < |s| ==> SameUpToCase(s[i], r[i])
  {
    seq(|s|, i requires 0 <= i < |s| => LowerChar(s[i]))
  }

  /** Two strings are equal once both are lower-cased. */
  predicate EqualsIgnoreCase(a: string, b: string) {
    ToLower(a) == ToLower(b)
  }

  /**
   Two characters are the same letter up to case: they are equal, or one is
   the upper-case letter whose lower-case form is the other.
   */
  predicate SameUpToCase(x: char, y: char) {
    x == y || (IsUpper(x) && LowerChar(x) == y) || (IsUpper(y) && LowerChar(y) == x)
  }

  lemma LowerCharAgrees(x: char, y: char)
    ensures LowerChar(x) == LowerChar(y) <==> SameUpToCase(x, y)
  {
  }

  /** Case-insensitive equality is position-wise "same letter up to case". */
  lemma EqualsIgnoreCaseIsCaseVariant(a: string, b: string)
    ensures EqualsIgnoreCase(a, b) <==> (|a| == |b| && forall i :: 0 <= i < |a| ==> SameUpToCase(a[i], b[i]))
  {
    if EqualsIgnoreCase(a, b) {
      forall i | 0 <= i < |a|
        ensures SameUpToCase(a[i], b[i])
      {
        assert ToLower(a)[i] == ToLower(b)[i];
        LowerCharAgrees(a[i], b[i]);
      }
    }
    if |a| == |b| && forall i :: 0 <= i < |a| ==> SameUpToCase(a[i], b[i]) {
      forall i | 0 <= i < |a|
        ensures ToLower(a)[i] == ToLower(b)[i]
      {
        LowerCharAgrees(a[i], b[i]);
      }
    }
  }

  /** Lower-casing twice is lower-casing once. */
  lemma ToLowerIdempotent(s: string)
    ensures ToLower(ToLower(s)) == ToLower(s)
  {
  }

  /** Case-insensitive equality is an equivalence relation. */
  lemma EqualsIgnoreCaseEquivalence(a: string, b: string, c: string)
    ensures EqualsIgnoreCase(a, a)
    ensures EqualsIgnoreCase(a, b) ==> EqualsIgnoreCase(b, a)
    ensures EqualsIgnoreCase(a, b) && EqualsIgnoreCase(b, c) ==> EqualsIgnoreCase(a, c)
  {
  }
}
