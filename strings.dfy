/** Substring search on `string`s: the leftmost occurrence of a pattern, as found by an
    unanchored regular-expression search or by Go's `strings.SplitN`. */
module Strings {
  import opened Wrappers

  /** `pat` occurs in `s` starting at index `i`. */
  predicate OccursAt(s: string, pat: string, i: int) {
    0 <= i && i + |pat| <= |s| && s[i..i + |pat|] == pat
  }

  /** Occurrences in the tail of `s` are the occurrences in `s` shifted by one. */
  lemma OccursInTail(s: string, pat: string, j: int)
    requires s != [] && 1 <= j
    ensures OccursAt(s, pat, j) <==> OccursAt(s[1..], pat, j - 1)
  {
  }

  /** The index of the leftmost occurrence of `pat` in `s`, or `None` when there is none. */
  function Find(s: string, pat: string): (r: Option<nat>)
    ensures r.Some? ==> OccursAt(s, pat, r.value)
    ensures r.Some? ==> forall j :: 0 <= j < r.value ==> !OccursAt(s, pat, j)
    ensures r.None? ==> forall j :: 0 <= j <= |s| ==> !OccursAt(s, pat, j)
    decreases |s|
  {
    if pat <= s then Some(0)
    else if s == [] then None
    else
      var k := Find(s[1..], pat);
      assert !OccursAt(s, pat, 0);
      if k.None? then
        assert forall j :: 1 <= j <= |s| ==> !OccursAt(s, pat, j) by {
          forall j | 1 <= j <= |s| ensures !OccursAt(s, pat, j) {
            OccursInTail(s, pat, j);
          }
        }
        None
      else
        assert OccursAt(s, pat, k.value + 1) && forall j :: 1 <= j < k.value + 1 ==> !OccursAt(s, pat, j) by {
          forall j | 1 <= j <= k.value + 1 ensures OccursAt(s, pat, j) <==> OccursAt(s[1..], pat, j - 1) {
            OccursInTail(s, pat, j);
          }
        }
        Some(k.value + 1)
  }
}
