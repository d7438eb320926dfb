/** Case folding and substring search on strings, as the search box uses them:
    `String.prototype.toLowerCase` (restricted to ASCII letters) and
    `String.prototype.includes`. */
module Text {

  /** Lower-cases one character: ASCII 'A'..'Z' become 'a'..'z', every other
      character is left alone. */
  function LowerChar(c: char): (r: char)
    ensures 'A' <= c <= 'Z' ==> 'a' <= r <= 'z' && r as int - c as int == 32
    ensures !('A' <= c <= 'Z') ==> r == c
  {
    if 'A' <= c <= 'Z' then (c as int + 32) as char else c
  }

  predicate IsUpper(c: char) {
    'A' <= c <= 'Z'
  }

  /** `toLowerCase`: the string of the same length, lower-cased character by character. */
  function Lower(s: string): (r: string)
    ensures |r| == |s|
    ensures forall i :: 0 <= i < |s| ==> r[i] == LowerChar(s[i])
  {
    if s == [] then [] else [LowerChar(s[0])] + Lower(s[1..])
  }

  /** Lower-casing keeps prefixes. */
  lemma LowerPrefix(p: string, s: string)
    requires p <= s
    ensures Lower(p) <= Lower(s)
  {
    assert forall i :: 0 <= i < |p| ==> Lower(p)[i] == Lower(s)[i];
  }

  /** Lower-casing leaves no upper-case ASCII letter behind. */
  lemma LowerHasNoUpper(s: string)
    ensures forall i :: 0 <= i < |Lower(s)| ==> !IsUpper(Lower(s)[i])
  {
  }

  /** Lower-casing twice is lower-casing once. */
  lemma LowerIdempotent(s: string)
    ensures Lower(Lower(s)) == Lower(s)
  {
    var l := Lower(s);
    assert forall i :: 0 <= i < |l| ==> LowerChar(l[i]) == l[i];
  }

  /** Lower-casing produces the lower-case letter `lo` only from `lo` itself
      or from its capital. */
  lemma LowerLacks(s: string, lo: char)
    requires 'a' <= lo <= 'z'
    requires lo !in s && (lo as int - 32) as char !in s
    ensures lo !in Lower(s)
  {
  }

  /** `q` occurs in `s` starting at index `i`. */
  ghost predicate OccursAt(s: string, q: string, i: int) {
    0 <= i && i + |q| <= |s| && s[i..i + |q|] == q
  }

  /** The reference meaning of `s.includes(q)`: `q` occurs somewhere in `s`. */
  ghost predicate Contains(s: string, q: string) {
    exists i :: OccursAt(s, q, i)
  }

  /** When `q` is not a prefix of the non-empty `s`, its occurrences in `s`
      are exactly its occurrences in `s[1..]`, shifted by one. */
  lemma ContainsTail(s: string, q: string)
    requires s != [] && !(q <= s)
    ensures Contains(s, q) <==> Contains(s[1..], q)
  {
    if Contains(s, q) {
      var i :| OccursAt(s, q, i);
      assert s[1..][i - 1..i - 1 + |q|] == s[i..i + |q|];
      assert OccursAt(s[1..], q, i - 1);
    }
    if Contains(s[1..], q) {
      var j :| OccursAt(s[1..], q, j);
      assert s[1..][j..j + |q|] == s[j + 1..j + 1 + |q|];
      assert OccursAt(s, q, j + 1);
    }
  }

  /** `s.includes(q)`: scans `s` from the left for a position where `q` starts. */
  function Includes(s: string, q: string): (b: bool)
    ensures b <==> Contains(s, q)
    decreases |s|
  {
    if q <= s then
      assert OccursAt(s, q, 0) by { assert s[0..|q|] == q; }
      true
    else if s == [] then
      false
    else
      ContainsTail(s, q);
      Includes(s[1..], q)
  }

  /** A query holding a character that the text lacks is not found in it. */
  lemma MissingCharNotIncluded(s: string, q: string, c: char)
    requires c in q && c !in s
    ensures !Includes(s, q)
  {
  }

  /** The empty query is a substring of every string. */
  lemma EmptyIncluded(s: string)
    ensures Includes(s, "")
  {
  }
}
