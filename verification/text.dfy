/** Character-level helpers standing in for JavaScript's `toLowerCase` and
    `String.prototype.includes`. */
module Text {

  /** Lower-cases one ASCII letter; every other character is kept. */
  function LowerChar(c: char): char {
    if 'A' <= c <= 'Z' then (c as int + 32) as char else c
  }

  predicate IsUpper(c: char) {
    'A' <= c <= 'Z'
  }

  /** `s.toLowerCase()` over the ASCII range. */
  function Lower(s: string): (r: string)
    ensures |r| == |s|
    ensures forall i :: 0 <= i < |r| ==> !IsUpper(r[i])
    ensures forall i :: 0 <= i < |s| && !IsUpper(s[i]) ==> r[i] == s[i]
    ensures forall i :: 0 <= i < |s| && IsUpper(s[i]) ==> r[i] as int == s[i] as int + 32
  {
    seq(|s|, i requires 0 <= i < |s| => LowerChar(s[i]))
  }

  /** Lower-casing twice is lower-casing once; the source lower-cases keys
      that are already lower-case in several places. */
  lemma LowerIdempotent(s: string)
    ensures Lower(Lower(s)) == Lower(s)
  {
  }

  /** `t` occurs in `s` starting at position `k`. */
  predicate OccursAt(t: string, s: string, k: nat) {
    k + |t| <= |s| && s[k..k + |t|] == t
  }

  /** `t` occurs in `s` at some position. */
  ghost predicate Substring(t: string, s: string) {
    exists k: nat :: OccursAt(t, s, k)
  }

  /** `s.includes(t)`: a left-to-right scan of the start positions of `s`. */
  function Includes(s: string, t: string): (r: bool)
    ensures r <==> Substring(t, s)
    decreases |s|
  {
    if |t| > |s| then false
    else if s[..|t|] == t then
      assert OccursAt(t, s, 0);
      true
    else
      var r := Includes(s[1..], t);
      ShiftSubstring(s, t);
      r
  }

  /** Once position 0 is ruled out, `t` occurs in `s` exactly when it occurs
      in `s[1..]`. */
  lemma ShiftSubstring(s: string, t: string)
    requires |t| <= |s| && s[..|t|] != t
    ensures Substring(t, s) <==> Substring(t, s[1..])
  {
    if Substring(t, s) {
      var k: nat :| OccursAt(t, s, k);
      assert k != 0;
      assert s[1..][k - 1..k - 1 + |t|] == s[k..k + |t|];
      assert OccursAt(t, s[1..], k - 1);
    }
    if Substring(t, s[1..]) {
      var k: nat :| OccursAt(t, s[1..], k);
      assert s[k + 1..k + 1 + |t|] == s[1..][k..k + |t|];
      assert OccursAt(t, s, k + 1);
    }
  }

  /** The empty string occurs in every string, as `includes("")` is true. */
  lemma EmptyIsEverywhere(s: string)
    ensures Includes(s, "")
  {
    assert OccursAt("", s, 0);
  }
}
