/**
  * The two string primitives the keyword matcher relies on: `str.lower()` and the
  * substring test `pattern in text`. Lower-casing is modelled for ASCII letters only;
  * Arabic letters have no case and are left unchanged.
  */
module Text {

  /** ASCII lower-casing of one character; every other character is unchanged. */
  function LowerChar(c: char): (r: char)
    ensures 'A' <= c <= 'Z' ==> 'a' <= r <= 'z' && r as int - c as int == 32
    ensures !('A' <= c <= 'Z') ==> r == c
  {
    if 'A' <= c <= 'Z' then (c as int + 32) as char else c
  }

  /** Lower-cases every character of `s`, keeping its length. */
  function Lower(s: string): (r: string)
    ensures |r| == |s|
    ensures forall i :: 0 <= i < |s| ==> r[i] == LowerChar(s[i])
  {
    seq(|s|, i requires 0 <= i < |s| => LowerChar(s[i]))
  }

  /** `pat` occurs in `text` starting at position `i`. */
  predicate OccursAt(text: string, pat: string, i: int) {
    0 <= i <= |text| - |pat| && text[i..i + |pat|] == pat
  }

  /** `pat` occurs in `text` as a contiguous block (Python's `pat in text`). */
  predicate Contains(text: string, pat: string) {
    exists i | 0 <= i <= |text| - |pat| :: OccursAt(text, pat, i)
  }

  /** Lower-casing twice is lower-casing once. */
  lemma LowerIdempotent(s: string)
    ensures Lower(Lower(s)) == Lower(s)
  {
    assert forall i :: 0 <= i < |s| ==> Lower(Lower(s))[i] == Lower(s)[i];
  }

  /** Lower-casing works character by character, so it distributes over concatenation. */
  lemma LowerAppend(a: string, b: string)
    ensures Lower(a + b) == Lower(a) + Lower(b)
  {
    assert forall i :: 0 <= i < |a + b| ==> Lower(a + b)[i] == (Lower(a) + Lower(b))[i];
  }

  /** An occurrence survives text added on either side. */
  lemma ContainsExtended(u: string, text: string, w: string, pat: string)
    requires Contains(text, pat)
    ensures Contains(u + text + w, pat)
  {
    var i :| 0 <= i <= |text| - |pat| && OccursAt(text, pat, i);
    var big := u + text + w;
    assert OccursAt(big, pat, |u| + i) by {
      forall k | 0 <= k < |pat| ensures big[|u| + i + k] == pat[k] {
        assert big[|u| + i + k] == text[i + k];
        assert text[i..i + |pat|][k] == text[i + k];
      }
    }
  }

  /** Nothing but the empty pattern occurs in the empty text. */
  lemma EmptyTextContainsNothing(pat: string)
    requires pat != []
    ensures !Contains([], pat)
  {
  }

  /** A string with no capital letter is its own lower-case form. */
  lemma LowerNoCapitals(s: string)
    requires forall i :: 0 <= i < |s| ==> !('A' <= s[i] <= 'Z')
    ensures Lower(s) == s
  {
    assert forall i :: 0 <= i < |s| ==> Lower(s)[i] == s[i];
  }
}
