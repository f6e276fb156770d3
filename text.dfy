/** Strings as the routine builder uses them: ASCII lower-casing and
    Python's `sub in s` substring test, plain and case-insensitive. */
module Text {

  predicate IsUpperChar(c: char)
  {
    'A' <= c <= 'Z'
  }

  /** ASCII lower-casing of one character; every other character is kept. */
  function LowerChar(c: char): char
  {
    if IsUpperChar(c) then (c as int + 32) as char else c
  }

  /** `s.lower()`, restricted to ASCII letters. */
  function Lower(s: string): (r: string)
    ensures |r| == |s|
    ensures forall i :: 0 <= i < |s| ==> r[i] == LowerChar(s[i])
    ensures forall i :: 0 <= i < |r| ==> !IsUpperChar(r[i])
  {
    seq(|s|, i requires 0 <= i < |s| => LowerChar(s[i]))
  }

  /** Two strings that differ at most in the case of their ASCII letters. */
  predicate EqualIgnoringCase(a: string, b: string)
  {
    |a| == |b| && forall i :: 0 <= i < |a| ==> LowerChar(a[i]) == LowerChar(b[i])
  }

  /** `sub` occurs in `s` starting at position `i`. */
  predicate OccursAt(s: string, sub: string, i: int)
  {
    0 <= i && i + |sub| <= |s| && s[i..i + |sub|] == sub
  }

  /** Python's `sub in s`: the empty string occurs in every string, a
      string occurs in itself, and nothing longer than `s` occurs in it. */
  predicate Contains(s: string, sub: string)
    ensures Contains(s, sub) ==> |sub| <= |s|
    ensures sub == [] ==> Contains(s, sub)
    ensures sub == s ==> Contains(s, sub)
  {
    assert OccursAt(s, s, 0) && OccursAt(s, "", 0);
    exists i :: 0 <= i <= |s| - |sub| && OccursAt(s, sub, i)
  }

  /** A case-insensitive substring test, as `str.contains(sub, case=False)`:
      the empty term matches every text, and a text matches any term equal
      to it up to case. */
  predicate ContainsIgnoreCase(s: string, sub: string)
    ensures ContainsIgnoreCase(s, sub) ==> |sub| <= |s|
    ensures sub == [] ==> ContainsIgnoreCase(s, sub)
    ensures EqualIgnoringCase(s, sub) ==> ContainsIgnoreCase(s, sub)
  {
    assert EqualIgnoringCase(s, sub) ==> Lower(s) == Lower(sub) by {
      if EqualIgnoringCase(s, sub) {
        LowerEqualIgnoringCase(s, sub);
      }
    }
    Contains(Lower(s), Lower(sub))
  }

  lemma LowerIdempotent(s: string)
    ensures Lower(Lower(s)) == Lower(s)
  {
    assert forall i :: 0 <= i < |s| ==> LowerChar(LowerChar(s[i])) == LowerChar(s[i]);
  }

  /** Strings equal up to case have the same lower-cased form. */
  lemma {:induction false} LowerEqualIgnoringCase(a: string, b: string)
    requires EqualIgnoringCase(a, b)
    ensures Lower(a) == Lower(b)
  {
    assert forall i :: 0 <= i < |a| ==> Lower(a)[i] == Lower(b)[i];
  }

  /** Case-insensitive containment does not see the case of either argument. */
  lemma ContainsIgnoreCaseRespectsCase(s: string, s': string, sub: string, sub': string)
    requires EqualIgnoringCase(s, s') && EqualIgnoringCase(sub, sub')
    ensures ContainsIgnoreCase(s, sub) == ContainsIgnoreCase(s', sub')
  {
    LowerEqualIgnoringCase(s, s');
    LowerEqualIgnoringCase(sub, sub');
  }
}
