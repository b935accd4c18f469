/**
 * The scheme-scheme test `new RegExp(tokenKey, "i").test(scheme)`, modelled as
 * case-insensitive substring containment: the key occurs somewhere in the
 * scheme, letters compared without regard to case. Regular-expression
 * metacharacters in the key are read as plain characters, and case folding
 * covers the ASCII letters only.
 */
module TokenPattern {

  /** ASCII lower-casing: the canonical form both sides are compared in. */
  function Fold(c: char): char
  {
    if 'A' <= c <= 'Z' then (c as int + 32) as char else c
  }

  /** ASCII upper-casing of a whole string (used to state the case rule). */
  function Upper(s: string): (r: string)
    ensures |r| == |s|
    ensures forall i :: 0 <= i < |s| ==> Fold(r[i]) == Fold(s[i])
  {
    if s == [] then []
    else [if 'a' <= s[0] <= 'z' then (s[0] as int - 32) as char else s[0]] + Upper(s[1..])
  }

  /** The key matches `scheme` at position `i`, ignoring case. */
  ghost predicate MatchesAt(scheme: string, key: string, i: int)
  {
    0 <= i && i + |key| <= |scheme| &&
    forall j :: 0 <= j < |key| ==> Fold(scheme[i + j]) == Fold(key[j])
  }

  /** The key occurs somewhere in the scheme, ignoring case. */
  ghost predicate OccursIn(key: string, scheme: string)
  {
    exists i :: MatchesAt(scheme, key, i)
  }

  /** `scheme` begins with `key`, ignoring case. */
  function StartsWith(scheme: string, key: string): (b: bool)
    ensures b <==> MatchesAt(scheme, key, 0)
  {
    |key| <= |scheme| && forall j :: 0 <= j < |key| ==> Fold(scheme[j]) == Fold(key[j])
  }

  /** The executable test: try every starting position from the left. */
  function Test(key: string, scheme: string): (b: bool)
    ensures b <==> OccursIn(key, scheme)
    decreases |scheme|
  {
    if StartsWith(scheme, key) then
      true
    else if |scheme| <= |key| then
      assert forall i :: MatchesAt(scheme, key, i) ==> i == 0;
      false
    else
      var found := Test(key, scheme[1..]);
      assert found ==> OccursIn(key, scheme) by {
        if found {
          var i :| MatchesAt(scheme[1..], key, i);
          assert MatchesAt(scheme, key, i + 1);
        }
      }
      assert OccursIn(key, scheme) ==> found by {
        if OccursIn(key, scheme) {
          var i :| MatchesAt(scheme, key, i);
          assert i != 0;
          assert MatchesAt(scheme[1..], key, i - 1);
        }
      }
      found
  }

  /** A scheme equal to the key up to case matches: `AUTH_TOKEN`,
      `auth_token` and `Auth_Token` all match the key `auth_token`. */
  lemma SameUpToCaseMatches(key: string, scheme: string)
    requires |scheme| == |key|
    requires forall j :: 0 <= j < |key| ==> Fold(scheme[j]) == Fold(key[j])
    ensures Test(key, scheme)
  {
  }

  /** The upper-cased key matches the key. */
  lemma UpperMatches(key: string)
    ensures Test(key, Upper(key))
  {
  }

  /** Any scheme that contains the key, with anything before or after it,
      matches too: the test is containment, not equality. */
  lemma EmbeddedMatches(key: string, before: string, after: string)
    ensures Test(key, before + key + after)
  {
    assert MatchesAt(before + key + after, key, |before|);
  }

  /** A scheme shorter than the key never matches. */
  lemma ShortLabelFails(key: string, scheme: string)
    requires |scheme| < |key|
    ensures !Test(key, scheme)
  {
  }
}
