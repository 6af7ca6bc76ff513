/** Substring search, giving the answer Go's `strings.Contains` gives. */
module Strings {

  /** `sub` occurs in `s` starting at index `i`. */
  ghost predicate OccursAt(s: string, sub: string, i: nat) {
    i + |sub| <= |s| && s[i..i + |sub|] == sub
  }

  /** The reference meaning of "`s` contains `sub`": some occurrence exists. */
  ghost predicate IsSubstring(sub: string, s: string) {
    exists i: nat :: OccursAt(s, sub, i)
  }

  /** Scans `s` left to right from index `start` for an occurrence of `sub`. */
  function ContainsFrom(s: string, sub: string, start: nat): (r: bool)
    ensures r <==> exists i: nat :: start <= i && OccursAt(s, sub, i)
    decreases |s| - start
  {
    if start + |sub| > |s| then false
    else if s[start..start + |sub|] == sub then assert OccursAt(s, sub, start); true
    else ContainsFrom(s, sub, start + 1)
  }

  /** `strings.Contains(s, sub)`; the empty string is contained in every string. */
  function Contains(s: string, sub: string): (r: bool)
    ensures r <==> IsSubstring(sub, s)
    ensures |sub| > |s| ==> !r
    ensures sub == [] ==> r
  {
    assert sub == [] ==> OccursAt(s, sub, 0);
    ContainsFrom(s, sub, 0)
  }
}
