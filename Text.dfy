/**
 * JavaScript's `String.prototype.includes`, which the application uses to
 * classify error messages and evaluation feedback.
 */
module Text {

  /** `s.includes(t)`: scan `s` from the left for a position where `t` starts. */
  predicate Includes(s: string, t: string)
    ensures Includes(s, t) ==> |t| <= |s|
    ensures t == [] ==> Includes(s, t)
    decreases |s|
  {
    if |t| > |s| then false
    else if s[..|t|] == t then true
    else Includes(s[1..], t)
  }

  /** `t` occurs in `s` as a contiguous run starting at index `i`. */
  ghost predicate OccursAt(s: string, t: string, i: int)
  {
    0 <= i && i + |t| <= |s| && s[i..i + |t|] == t
  }

  /** The scan finds `t` exactly when `t` occurs somewhere in `s`. */
  lemma {:induction false} IncludesIffOccurs(s: string, t: string)
    ensures Includes(s, t) <==> exists i :: OccursAt(s, t, i)
    decreases |s|
  {
    if |t| > |s| {
    } else if s[..|t|] == t {
      assert OccursAt(s, t, 0);
    } else {
      IncludesIffOccurs(s[1..], t);
      if Includes(s[1..], t) {
        var i :| OccursAt(s[1..], t, i);
        assert s[1..][i..i + |t|] == s[i + 1..i + 1 + |t|];
        assert OccursAt(s, t, i + 1);
      }
      if exists i :: OccursAt(s, t, i) {
        var i :| OccursAt(s, t, i);
        assert i != 0;
        assert s[1..][i - 1..i - 1 + |t|] == s[i..i + |t|];
        assert OccursAt(s[1..], t, i - 1);
      }
    }
  }

  /** A string that lacks one of the characters of `t` cannot include `t`. */
  lemma MissingCharExcludes(s: string, t: string, c: char)
    requires c in t && c !in s
    ensures !Includes(s, t)
  {
    IncludesIffOccurs(s, t);
  }

  /** Every string includes itself at its start, whatever follows it. */
  lemma IncludesPrefix(t: string, rest: string)
    ensures Includes(t + rest, t)
  {
    assert (t + rest)[..|t|] == t;
  }
}
