/**
 * ASCII case folding, standing in for Go's strings.ToUpper / strings.ToLower.
 * Only the letters 'a'..'z' and 'A'..'Z' change case; every other character
 * is left as it is.
 */
module Ascii {

  /** The upper-case form of an ASCII lower-case letter; any other character unchanged. */
  function UpperChar(c: char): (u: char)
    ensures 'A' <= c <= 'Z' || 'a' <= c <= 'z' <==> 'A' <= u <= 'Z'
  {
    if 'a' <= c <= 'z' then (c as int - 32) as char else c
  }

  /** The lower-case form of an ASCII upper-case letter; any other character unchanged. */
  function LowerChar(c: char): (l: char)
    ensures 'A' <= c <= 'Z' || 'a' <= c <= 'z' <==> 'a' <= l <= 'z'
  {
    if 'A' <= c <= 'Z' then (c as int + 32) as char else c
  }

  /** `s` with every character upper-cased, position by position. */
  function Upper(s: string): (r: string)
    ensures |r| == |s|
    ensures forall i :: 0 <= i < |s| ==> r[i] == UpperChar(s[i])
  {
    if s == [] then [] else [UpperChar(s[0])] + Upper(s[1..])
  }

  /** `s` with every character lower-cased, position by position. */
  function Lower(s: string): (r: string)
    ensures |r| == |s|
    ensures forall i :: 0 <= i < |s| ==> r[i] == LowerChar(s[i])
  {
    if s == [] then [] else [LowerChar(s[0])] + Lower(s[1..])
  }

  /** A string with no ASCII lower-case letter is its own upper-case form. */
  lemma {:induction false} UpperOfUpperCase(s: string)
    requires forall i :: 0 <= i < |s| ==> !('a' <= s[i] <= 'z')
    ensures Upper(s) == s
  {
    if s != [] {
      UpperOfUpperCase(s[1..]);
    }
  }

  /** Lower-casing first does not change the upper-case form. */
  lemma UpperOfLower(s: string)
    ensures Upper(Lower(s)) == Upper(s)
  {
    var a, b := Upper(Lower(s)), Upper(s);
    assert |a| == |b|;
    forall i | 0 <= i < |s| ensures a[i] == b[i] {
      assert UpperChar(LowerChar(s[i])) == UpperChar(s[i]);
    }
  }

  /** Upper-casing first does not change the lower-case form. */
  lemma LowerOfUpper(s: string)
    ensures Lower(Upper(s)) == Lower(s)
  {
    var a, b := Lower(Upper(s)), Lower(s);
    assert |a| == |b|;
    forall i | 0 <= i < |s| ensures a[i] == b[i] {
      assert LowerChar(UpperChar(s[i])) == LowerChar(s[i]);
    }
  }

  /** Two strings agree ignoring case exactly when their upper-case forms agree, or equally their lower-case forms. */
  lemma SameUpperIffSameLower(s: string, t: string)
    ensures Upper(s) == Upper(t) <==> Lower(s) == Lower(t)
  {
    if Upper(s) == Upper(t) {
      LowerOfUpper(s);
      LowerOfUpper(t);
    }
    if Lower(s) == Lower(t) {
      UpperOfLower(s);
      UpperOfLower(t);
    }
  }
}
