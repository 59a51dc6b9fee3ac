/**
  Python's substring test `needle in haystack` on strings, used by the
  resource-lock rule and by the decision-weight lookup.
 */
module Text {

  /** `needle` occurs in `s` starting at index `i`. */
  ghost predicate OccursAt(s: string, needle: string, i: int)
  {
    0 <= i && i + |needle| <= |s| && s[i..i + |needle|] == needle
  }

  /** Moving one character into the string shifts every occurrence by one. */
  lemma OccursAtTail(s: string, needle: string, i: int)
    requires |s| > 0 && 0 <= i
    ensures OccursAt(s[1..], needle, i) <==> OccursAt(s, needle, i + 1)
  {
    if i + |needle| <= |s| - 1 {
      assert s[1..][i..i + |needle|] == s[i + 1..i + 1 + |needle|];
    }
  }

  /** `needle in s`: true exactly when `needle` occurs somewhere in `s`
      (the empty needle occurs everywhere, as in Python). */
  function Contains(s: string, needle: string): (r: bool)
    ensures r <==> exists i :: OccursAt(s, needle, i)
    decreases |s|
  {
    if |needle| <= |s| && s[..|needle|] == needle then
      assert OccursAt(s, needle, 0);
      true
    else if |s| == 0 then
      false
    else
      var tail := Contains(s[1..], needle);
      assert tail ==> exists i :: OccursAt(s, needle, i) by {
        if tail {
          var j :| OccursAt(s[1..], needle, j);
          OccursAtTail(s, needle, j);
        }
      }
      assert (exists i :: OccursAt(s, needle, i)) ==> tail by {
        if exists i :: OccursAt(s, needle, i) {
          var i :| OccursAt(s, needle, i);
          assert i != 0;
          OccursAtTail(s, needle, i - 1);
        }
      }
      tail
  }

  /** Every character of a contained needle is a character of the haystack,
      so a character missing from `s` rules a needle out. */
  lemma ContainsChar(s: string, needle: string, c: char)
    requires Contains(s, needle) && c in needle
    ensures c in s
  {
    var i :| OccursAt(s, needle, i);
    var k :| 0 <= k < |needle| && needle[k] == c;
    assert s[i..i + |needle|][k] == s[i + k];
  }
}
