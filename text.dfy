/**
 * String helpers shared by the screens: an ASCII case map standing in for
 * `toLowerCase`/`toUpperCase`, JavaScript's `String.prototype.includes`,
 * and the avatar initials computed by Home and Profile alike.
 */
module Text {

  function LowerChar(c: char): (d: char)
    ensures !('A' <= d <= 'Z')
    ensures 'A' <= c <= 'Z' || d == c
    ensures 'A' <= c <= 'Z' ==> 'a' <= d <= 'z' && d as int - 'a' as int == c as int - 'A' as int
  {
    if 'A' <= c <= 'Z' then (c as int + 32) as char else c
  }

  function UpperChar(c: char): (d: char)
    ensures !('a' <= d <= 'z')
    ensures 'a' <= c <= 'z' || d == c
    ensures 'a' <= c <= 'z' ==> 'A' <= d <= 'Z' && d as int - 'A' as int == c as int - 'a' as int
  {
    if 'a' <= c <= 'z' then (c as int - 32) as char else c
  }

  /** `s.toLowerCase()` over ASCII: same length, each upper-case letter
      replaced by the lower-case letter at the same place in the alphabet,
      every other character kept. */
  function Lower(s: string): (r: string)
    ensures |r| == |s|
    ensures forall i :: 0 <= i < |r| ==> !('A' <= r[i] <= 'Z')
    ensures forall i :: 0 <= i < |s| && !('A' <= s[i] <= 'Z') ==> r[i] == s[i]
    ensures forall i :: 0 <= i < |s| && 'A' <= s[i] <= 'Z' ==>
      'a' <= r[i] <= 'z' && r[i] as int - 'a' as int == s[i] as int - 'A' as int
  {
    seq(|s|, i requires 0 <= i < |s| => LowerChar(s[i]))
  }

  predicate IsPrefix(p: string, s: string)
  {
    |p| <= |s| && s[..|p|] == p
  }

  /** `s.includes(t)`: does `t` occur in `s`, scanning left to right. */
  function Contains(s: string, t: string): bool
    decreases |s|
  {
    IsPrefix(t, s) || (|s| > 0 && Contains(s[1..], t))
  }

  /** Reference meaning of `includes`: `t` is the slice of `s` starting at `i`. */
  ghost predicate OccursAt(t: string, s: string, i: int)
  {
    0 <= i && i + |t| <= |s| && s[i..i + |t|] == t
  }

  lemma {:induction false} ContainsIffOccurs(s: string, t: string)
    ensures Contains(s, t) <==> exists i :: OccursAt(t, s, i)
    decreases |s|
  {
    if IsPrefix(t, s) {
      assert OccursAt(t, s, 0);
    } else if |s| == 0 {
    } else {
      ContainsIffOccurs(s[1..], t);
      if Contains(s[1..], t) {
        var j :| OccursAt(t, s[1..], j);
        assert s[1..][j..j + |t|] == s[j + 1..j + 1 + |t|];
        assert OccursAt(t, s, j + 1);
      }
      forall i | OccursAt(t, s, i) ensures Contains(s[1..], t) {
        assert s[1..][i - 1..i - 1 + |t|] == s[i..i + |t|];
        assert OccursAt(t, s[1..], i - 1);
      }
    }
  }

  /** Every string includes the empty string. */
  lemma ContainsEmpty(s: string)
    ensures Contains(s, "")
  {
    assert s[..0] == "";
  }

  /** A non-empty needle can only occur in a string holding its first character. */
  lemma {:induction false} ContainsNeedsFirstChar(s: string, t: string)
    requires |t| > 0 && Contains(s, t)
    ensures t[0] in s
    decreases |s|
  {
    if IsPrefix(t, s) {
      assert s[0] == t[0];
    } else {
      ContainsNeedsFirstChar(s[1..], t);
      assert t[0] in s[1..];
    }
  }

  /**
   * The avatar placeholder text of Home and Profile: the upper-cased first
   * character of each non-empty name, first name before last name.
   */
  function Initials(first: string, last: string): (r: string)
    ensures |r| == (if first == "" then 0 else 1) + (if last == "" then 0 else 1)
    ensures r == "" <==> first == "" && last == ""
    ensures first != "" ==> r[0] == UpperChar(first[0])
    ensures last != "" ==> r[|r| - 1] == UpperChar(last[0])
    ensures forall i :: 0 <= i < |r| ==> !('a' <= r[i] <= 'z')
  {
    (if first != "" then [UpperChar(first[0])] else [])
    + (if last != "" then [UpperChar(last[0])] else [])
  }
}
