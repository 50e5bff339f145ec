/** Substring occurrence, used to state what templates embed and what listings strip. */
module Text {

  /** `w` occurs in `s` starting at index `i`. */
  predicate OccursAt(w: string, s: string, i: nat)
  {
    i + |w| <= |s| && s[i..i + |w|] == w
  }

  /** `w` is a substring of `s` (Python's `w in s`). */
  ghost predicate Occurs(w: string, s: string)
  {
    exists i: nat :: OccursAt(w, s, i)
  }

  /** An occurrence inside `m` is an occurrence inside any text that surrounds `m`. */
  lemma OccursWithin(w: string, a: string, m: string, b: string)
    requires Occurs(w, m)
    ensures Occurs(w, a + m + b)
  {
    var i: nat :| OccursAt(w, m, i);
    var s := a + m + b;
    assert s[|a| + i..|a| + i + |w|] == m[i..i + |w|];
    assert OccursAt(w, s, |a| + i);
  }
}
