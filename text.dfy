/**
 String helpers used by the keyword matchers and the client-side cache:
 substring search (Python `in`, JavaScript `includes`), ASCII lower-casing
 and the "only whitespace" test behind `not s.strip()`.
 */
module Text {

  predicate StartsWith(s: string, prefix: string)
  {
    |prefix| <= |s| && s[..|prefix|] == prefix
  }

  /** `pattern` occurs in `s` starting at position `i`. */
  predicate MatchAt(s: string, pattern: string, i: nat)
  {
    i + |pattern| <= |s| && s[i..i + |pattern|] == pattern
  }

  /** `pattern in s`: some position of `s` starts a copy of `pattern`. */
  predicate Contains(s: string, pattern: string)
  {
    exists i: nat :: i <= |s| && MatchAt(s, pattern, i)
  }

  /** A search from the left, the executable counterpart of `Contains`. */
  function FindFrom(s: string, pattern: string, from: nat): (found: bool)
    requires from <= |s|
    ensures found <==> exists i: nat :: from <= i && MatchAt(s, pattern, i)
    decreases |s| - from
  {
    if from + |pattern| > |s| then false
    else if MatchAt(s, pattern, from) then true
    else
      assert forall i: nat :: from <= i && MatchAt(s, pattern, i) ==> from + 1 <= i;
      FindFrom(s, pattern, from + 1)
  }

  function Includes(s: string, pattern: string): (found: bool)
    ensures found <==> Contains(s, pattern)
  {
    FindFrom(s, pattern, 0)
  }

  /** `any(word in s for word in words)`. */
  predicate ContainsAny(s: string, words: seq<string>)
  {
    exists w :: w in words && Contains(s, w)
  }

  function LowerChar(c: char): char
  {
    if 'A' <= c <= 'Z' then (c as int + 32) as char else c
  }

  /** `s.lower()` on the ASCII letters. */
  function Lower(s: string): (r: string)
    ensures |r| == |s|
    ensures forall i :: 0 <= i < |s| ==> r[i] == LowerChar(s[i])
  {
    seq(|s|, i requires 0 <= i < |s| => LowerChar(s[i]))
  }

  lemma LowerIdempotent(s: string)
    ensures Lower(Lower(s)) == Lower(s)
  {
  }

  /** Python's `str.isspace`: space, tab to carriage return, the separators 0x1C to 0x1F, the
      next-line and no-break spaces, and the Unicode space and line/paragraph separators. */
  predicate IsSpace(c: char)
  {
    || c == ' ' || '\t' <= c <= '\r' || '\U{1C}' <= c <= '\U{1F}'
    || c == '\U{85}' || c == '\U{A0}' || c == '\U{1680}'
    || '\U{2000}' <= c <= '\U{200A}' || c == '\U{2028}' || c == '\U{2029}'
    || c == '\U{202F}' || c == '\U{205F}' || c == '\U{3000}'
  }

  /** `not s.strip()`: the string is empty or only whitespace. */
  predicate IsBlank(s: string)
  {
    forall i :: 0 <= i < |s| ==> IsSpace(s[i])
  }
}
