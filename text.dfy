/**
 * The two string operations the coin search uses: `toLowerCase` and
 * `includes`. Case folding is ASCII-only here.
 */
module Text {

  function LowerChar(c: char): char {
    if 'A' <= c <= 'Z' then (c as int + 32) as char else c
  }

  /** `s.toLowerCase()` restricted to ASCII letters. */
  function ToLower(s: string): (r: string)
    ensures |r| == |s|
    ensures forall i :: 0 <= i < |s| ==> r[i] == LowerChar(s[i])
  {
    seq(|s|, i requires 0 <= i < |s| => LowerChar(s[i]))
  }

  /** `sub` occurs in `s` starting at index `i`. */
  predicate OccursAt(s: string, sub: string, i: int) {
    0 <= i && i + |sub| <= |s| && s[i..i + |sub|] == sub
  }

  /** `s.includes(sub)`: `sub` is a prefix of some suffix of `s`. */
  function Includes(s: string, sub: string): (r: bool)
    ensures sub <= s ==> r
    ensures r ==> |sub| <= |s|
  {
    if sub <= s then true
    else if s == [] then false
    else Includes(s[1..], sub)
  }

  /** `Includes` holds exactly when `sub` occurs at some position of `s`. */
  lemma IncludesIff(s: string, sub: string)
    ensures Includes(s, sub) <==> exists i :: OccursAt(s, sub, i)
  {
    if Includes(s, sub) {
      IncludesOccurs(s, sub);
    } else {
      forall i | OccursAt(s, sub, i) ensures false {
        OccursIncludes(s, sub, i);
      }
    }
  }

  lemma {:induction false} IncludesOccurs(s: string, sub: string)
    requires Includes(s, sub)
    ensures exists i :: OccursAt(s, sub, i)
  {
    if sub <= s {
      assert OccursAt(s, sub, 0);
    } else {
      IncludesOccurs(s[1..], sub);
      var i :| OccursAt(s[1..], sub, i);
      OccursShift(s, sub, i);
    }
  }

  lemma {:induction false} OccursIncludes(s: string, sub: string, i: int)
    requires OccursAt(s, sub, i)
    ensures Includes(s, sub)
    decreases i
  {
    if i > 0 && !(sub <= s) {
      OccursShift(s, sub, i - 1);
      OccursIncludes(s[1..], sub, i - 1);
    }
  }

  /** An occurrence in the tail of `s` is an occurrence in `s`, one position later. */
  lemma OccursShift(s: string, sub: string, i: int)
    requires s != [] && 0 <= i
    ensures OccursAt(s[1..], sub, i) <==> OccursAt(s, sub, i + 1)
  {
    if i + 1 + |sub| <= |s| {
      assert s[1..][i..i + |sub|] == s[i + 1..i + 1 + |sub|];
    }
  }

  /** Every string includes the empty string, so an empty query matches everything. */
  lemma IncludesEmpty(s: string)
    ensures Includes(s, "")
  {
  }
}
