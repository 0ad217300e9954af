/** The two string operations the notification layer relies on: lower-casing
    (Swift's `String.lowercased()`, restricted here to ASCII) and substring
    search (`String.contains`), both character by character. */
module Text {

  /** Lower-case one ASCII letter; every other character is unchanged. */
  function LowerChar(c: char): (r: char)
    ensures 'A' <= c <= 'Z' ==> r as int == c as int + 32
    ensures !('A' <= c <= 'Z') ==> r == c
    ensures !('A' <= r <= 'Z')
  {
    if 'A' <= c <= 'Z' then (c as int + 32) as char else c
  }

  /** Lower-case a whole string, character by character. */
  function Lower(s: string): (r: string)
    ensures |r| == |s|
    ensures forall i :: 0 <= i < |s| ==> r[i] == LowerChar(s[i])
  {
    if |s| == 0 then [] else [LowerChar(s[0])] + Lower(s[1..])
  }

  /** A string with no upper-case ASCII letter. */
  predicate IsLower(s: string) {
    forall i :: 0 <= i < |s| ==> !('A' <= s[i] <= 'Z')
  }

  /** Lower-casing yields a lower-case string, and leaves lower-case strings
      alone; together these make it idempotent. */
  lemma LowerIsLower(s: string)
    ensures IsLower(Lower(s))
    ensures IsLower(s) ==> Lower(s) == s
  {
  }

  lemma {:induction false} LowerIdempotent(s: string)
    ensures Lower(Lower(s)) == Lower(s)
  {
    LowerIsLower(s);
    LowerIsLower(Lower(s));
  }

  /** `t` occurs in `s` starting at index `i`. */
  predicate OccursAt(t: string, s: string, i: int) {
    0 <= i && i + |t| <= |s| && s[i..i + |t|] == t
  }

  /** `s.contains(t)`: some contiguous slice of `s` equals `t`. */
  function Contains(s: string, t: string): (r: bool)
    ensures r <==> exists i :: OccursAt(t, s, i)
    decreases |s|
  {
    if |t| > |s| then false
    else if s[..|t|] == t then
      assert OccursAt(t, s, 0);
      true
    else
      var rest := Contains(s[1..], t);
      if rest then
        var i :| OccursAt(t, s[1..], i);
        assert s[1..][i..i + |t|] == s[i + 1..i + 1 + |t|];
        assert OccursAt(t, s, i + 1);
        true
      else
        assert !OccursAt(t, s, 0);
        forall i | 0 < i && OccursAt(t, s, i)
          ensures OccursAt(t, s[1..], i - 1)
        {
          assert s[1..][i - 1..i - 1 + |t|] == s[i..i + |t|];
        }
        false
  }
}
