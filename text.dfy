/**
  String helpers the scanner and the configuration rely on: Python's `str.lower()`
  restricted to ASCII letters, and the `in` operator on strings (substring containment).
 */
module Text {

  predicate IsUpper(c: char) { 'A' <= c <= 'Z' }

  /** One character of `str.lower()` (ASCII letters only). */
  function LowerChar(c: char): (r: char)
    ensures !IsUpper(r)
    ensures IsUpper(c) ==> r as int == c as int + 32
    ensures !IsUpper(c) ==> r == c
  {
    if IsUpper(c) then (c as int + 32) as char else c
  }

  /** `s.lower()` */
  function Lower(s: string): (r: string)
    ensures |r| == |s|
    ensures forall i :: 0 <= i < |s| ==> r[i] == LowerChar(s[i])
  {
    if s == [] then [] else [LowerChar(s[0])] + Lower(s[1..])
  }

  predicate IsLowerCase(s: string) {
    forall i :: 0 <= i < |s| ==> !IsUpper(s[i])
  }

  /** Two characters that `lower()` cannot tell apart. */
  predicate SameIgnoringCase(a: char, b: char) {
    a == b || (IsUpper(a) && b as int == a as int + 32) || (IsUpper(b) && a as int == b as int + 32)
  }

  predicate EqualIgnoringCase(s: string, t: string) {
    |s| == |t| && forall i :: 0 <= i < |s| ==> SameIgnoringCase(s[i], t[i])
  }

  /** Lowering twice is lowering once. */
  lemma LowerIdempotent(s: string)
    ensures Lower(Lower(s)) == Lower(s)
  {
    var l := Lower(s);
    assert Lower(l) == l by {
      assert forall i :: 0 <= i < |l| ==> Lower(l)[i] == l[i];
    }
  }

  /** A string that is already lower case is left alone. */
  lemma LowerOfLowerCase(s: string)
    requires IsLowerCase(s)
    ensures Lower(s) == s
  {
    assert forall i :: 0 <= i < |s| ==> Lower(s)[i] == s[i];
  }

  /** `a.lower() == b.lower()` exactly when `a` and `b` differ only in the case of letters. */
  lemma LowerEqualIff(s: string, t: string)
    ensures Lower(s) == Lower(t) <==> EqualIgnoringCase(s, t)
  {
    if Lower(s) == Lower(t) {
      forall i | 0 <= i < |s|
        ensures SameIgnoringCase(s[i], t[i])
      {
        assert LowerChar(s[i]) == LowerChar(t[i]);
      }
    }
    if EqualIgnoringCase(s, t) {
      assert forall i :: 0 <= i < |s| ==> Lower(s)[i] == Lower(t)[i];
    }
  }

  /** `p` occurs in `s` starting at position `i`. */
  predicate OccursAt(p: string, s: string, i: int) {
    0 <= i && i + |p| <= |s| && s[i..i + |p|] == p
  }

  /** `p in s` as Python defines it: some window of `s` equals `p`. */
  ghost predicate SubstringOf(p: string, s: string) {
    exists i :: OccursAt(p, s, i)
  }

  /** The `in` operator on strings. */
  function Contains(p: string, s: string): (b: bool)
    ensures b <==> SubstringOf(p, s)
    decreases |s|
  {
    if |p| > |s| then
      false
    else if s[..|p|] == p then
      assert OccursAt(p, s, 0);
      true
    else
      var rest := Contains(p, s[1..]);
      ShiftedOccurrence(p, s);
      rest
  }

  /** An occurrence of `p` in `s` not at 0 is an occurrence in `s[1..]`, and back. */
  lemma ShiftedOccurrence(p: string, s: string)
    requires |s| > 0
    requires |p| <= |s| && s[..|p|] != p
    ensures SubstringOf(p, s) <==> SubstringOf(p, s[1..])
  {
    if SubstringOf(p, s) {
      var i :| OccursAt(p, s, i);
      assert i > 0;
      assert s[1..][i - 1..i - 1 + |p|] == s[i..i + |p|];
      assert OccursAt(p, s[1..], i - 1);
    }
    if SubstringOf(p, s[1..]) {
      var j :| OccursAt(p, s[1..], j);
      assert s[1..][j..j + |p|] == s[j + 1..j + 1 + |p|];
      assert OccursAt(p, s, j + 1);
    }
  }

  /** Containment is transitive: a substring of a substring of `s` is a substring of `s`. */
  lemma SubstringTransitive(p: string, q: string, s: string)
    requires SubstringOf(p, q) && SubstringOf(q, s)
    ensures SubstringOf(p, s)
  {
    var i :| OccursAt(p, q, i);
    var j :| OccursAt(q, s, j);
    forall k | 0 <= k < |p|
      ensures s[j + i + k] == p[k]
    {
      assert p[k] == q[i + k] == s[j + i + k];
    }
    assert s[j + i..j + i + |p|] == p;
    assert OccursAt(p, s, j + i);
  }
}
