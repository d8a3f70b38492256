/** String helpers: ASCII upper-casing and the inverse of a fixed text template. */
module Strings {
  import opened Wrappers

  function UpperChar(c: char): char
  {
    if 'a' <= c <= 'z' then (c as int - 32) as char else c
  }

  function LowerChar(c: char): char
  {
    if 'A' <= c <= 'Z' then (c as int + 32) as char else c
  }

  /** Python's `str.upper()`, restricted to ASCII letters. */
  function Upper(s: string): (r: string)
    ensures |r| == |s|
    ensures forall i :: 0 <= i < |s| ==> r[i] == UpperChar(s[i])
  {
    seq(|s|, i requires 0 <= i < |s| => UpperChar(s[i]))
  }

  /** Every character is an upper-case ASCII letter or not a letter at all. */
  predicate IsUpperName(name: string)
  {
    forall i :: 0 <= i < |name| ==> !('a' <= name[i] <= 'z')
  }

  /** Reference definition of a case-insensitive match: each character is the name's or its lower-case form. */
  predicate MatchesIgnoringCase(s: string, name: string)
  {
    |s| == |name| && forall i :: 0 <= i < |s| ==> s[i] == name[i] || s[i] == LowerChar(name[i])
  }

  /** Upper-casing then comparing with an upper-case name is exactly a case-insensitive match. */
  lemma UpperEqualsIff(s: string, name: string)
    requires IsUpperName(name)
    ensures Upper(s) == name <==> MatchesIgnoringCase(s, name)
  {
  }

  /** The middle of `s`, when `s` starts with `prefix` and ends with `suffix` without overlap. */
  function StripAffixes(s: string, prefix: string, suffix: string): (r: Option<string>)
    ensures r.Some? ==> s == prefix + r.value + suffix
  {
    if |prefix| + |suffix| <= |s| && s[..|prefix|] == prefix && s[|s| - |suffix|..] == suffix
    then
      var middle := s[|prefix|..|s| - |suffix|];
      assert s == s[..|prefix|] + middle + s[|s| - |suffix|..];
      Some(middle)
    else None
  }

  /** Stripping a template's fixed prefix and suffix recovers what was put between them. */
  lemma StripAffixesInverse(prefix: string, middle: string, suffix: string)
    ensures StripAffixes(prefix + middle + suffix, prefix, suffix) == Some(middle)
  {
  }
}
