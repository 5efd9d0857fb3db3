/** String helpers that mirror the JavaScript string operations the store uses. */
module Text {

  /** `sub` occurs in `s` starting at index `i`. */
  ghost predicate OccursAt(s: string, sub: string, i: int)
  {
    0 <= i && i + |sub| <= |s| && s[i..i + |sub|] == sub
  }

  /** `s` starts with `prefix`. */
  predicate StartsWith(s: string, prefix: string)
  {
    |prefix| <= |s| && s[..|prefix|] == prefix
  }

  /** JavaScript's `s.includes(sub)`: a scan that tries every start position in turn. */
  function Includes(s: string, sub: string): bool
    decreases |s|
  {
    StartsWith(s, sub) || (|s| > 0 && Includes(s[1..], sub))
  }

  /** An occurrence at index 0 is a prefix. */
  lemma OccursAtStart(s: string, sub: string)
    ensures OccursAt(s, sub, 0) <==> StartsWith(s, sub)
  {
  }

  /** Dropping the first character moves every later occurrence one place left. */
  lemma OccursShifted(s: string, sub: string, i: int)
    requires |s| > 0 && i > 0
    ensures OccursAt(s, sub, i) <==> OccursAt(s[1..], sub, i - 1)
  {
    if i + |sub| <= |s| {
      assert s[1..][i - 1..i - 1 + |sub|] == s[i..i + |sub|];
    }
  }

  /** The scan finds `sub` exactly when it occurs somewhere in `s`. */
  lemma {:induction false} IncludesIff(s: string, sub: string)
    ensures Includes(s, sub) <==> exists i :: OccursAt(s, sub, i)
    decreases |s|
  {
    OccursAtStart(s, sub);
    if StartsWith(s, sub) {
      assert OccursAt(s, sub, 0);
    } else if |s| > 0 {
      IncludesIff(s[1..], sub);
      if Includes(s[1..], sub) {
        var j :| OccursAt(s[1..], sub, j);
        OccursShifted(s, sub, j + 1);
      } else {
        forall i | OccursAt(s, sub, i)
          ensures false
        {
          if i > 0 {
            OccursShifted(s, sub, i);
          }
        }
      }
    }
  }
}
