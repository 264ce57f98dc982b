/**
 * The application-id format check of the create-task endpoint: the pattern
 * ^[0-9a-f]{8}-[0-9a-f]{4}-[0-9a-f]{4}-[0-9a-f]{4}-[0-9a-f]{12}$ with the
 * case-insensitive flag, i.e. the textual UUID form of section 3 of RFC 4122
 * (hex digits in either case, no version or variant check).
 */
module Uuid {

  /** A character that the class [0-9a-f] accepts when matching ignores case. */
  predicate IsHexChar(c: char)
  {
    '0' <= c <= '9' || 'a' <= c <= 'f' || 'A' <= c <= 'F'
  }

  /** The four separator positions of the 36-character form. */
  predicate IsHyphenPosition(i: int)
  {
    i == 8 || i == 13 || i == 18 || i == 23
  }

  /** The check, position by position: 36 characters, hyphens at the four
      separator positions and a hex digit everywhere else. */
  predicate IsUuidText(s: string)
  {
    |s| == 36 &&
    forall i :: 0 <= i < |s| ==> if IsHyphenPosition(i) then s[i] == '-' else IsHexChar(s[i])
  }

  // ---------------------------------------------------------------------------
  // Reference definition: the anchored pattern read group by group.
  // ---------------------------------------------------------------------------

  /** The group lengths of the pattern. */
  const UuidGroups: seq<nat> := [8, 4, 4, 4, 12]

  /** `s` starts with `n` hex digits. */
  predicate HexRun(s: string, n: nat)
  {
    n <= |s| && forall i :: 0 <= i < n ==> IsHexChar(s[i])
  }

  /** `s` is, in full, groups of `lens[0]`, `lens[1]`, ... hex digits joined by
      single hyphens: the anchors `^` and `$` leave nothing before the first
      group or after the last. */
  predicate MatchesGroups(s: string, lens: seq<nat>)
    decreases |lens|
  {
    if |lens| == 0 then s == []
    else
      HexRun(s, lens[0]) &&
      if |lens| == 1 then |s| == lens[0]
      else lens[0] < |s| && s[lens[0]] == '-' && MatchesGroups(s[lens[0] + 1..], lens[1..])
  }

  /** The per-position check accepts exactly the strings the pattern matches. */
  lemma UuidTextIsPattern(s: string)
    ensures IsUuidText(s) <==> MatchesGroups(s, UuidGroups)
  {
  }

  // ---------------------------------------------------------------------------
  // Case-insensitivity
  // ---------------------------------------------------------------------------

  /** ASCII lower-casing of one character. */
  function LowerChar(c: char): (r: char)
    ensures 'A' <= c <= 'Z' ==> r as int == c as int + 32
    ensures !('A' <= c <= 'Z') ==> r == c
  {
    if 'A' <= c <= 'Z' then (c as int + 32) as char else c
  }

  /** ASCII lower-casing of a string. */
  function Lower(s: string): (r: string)
    ensures |r| == |s|
    ensures forall i :: 0 <= i < |s| ==> r[i] == LowerChar(s[i])
  {
    if s == [] then [] else [LowerChar(s[0])] + Lower(s[1..])
  }

  /** Upper- and lower-case hex digits are accepted alike: a string passes
      exactly when its lower-case form does. */
  lemma CaseInsensitive(s: string)
    ensures IsUuidText(s) <==> IsUuidText(Lower(s))
  {
  }

  /** The pattern checks no version or variant digit: the nil UUID passes. */
  lemma NilUuidPasses()
    ensures IsUuidText("00000000-0000-0000-0000-000000000000")
  {
  }

  /** Mixed-case hex digits pass. */
  lemma MixedCasePasses()
    ensures IsUuidText("ABCDEF01-abcd-EF01-2345-6789abcdefAB")
  {
  }

  /** A braced form, the 32-digit form without hyphens and a non-hex digit fail. */
  lemma MalformedFail()
    ensures !IsUuidText("{11111111-1111-1111-1111-111111111111}")
    ensures !IsUuidText("11111111111111111111111111111111")
    ensures !IsUuidText("11111111-1111-1111-1111-11111111111g")
  {
    var g := "11111111-1111-1111-1111-11111111111g";
    assert !IsHexChar(g[35]);
  }
}
