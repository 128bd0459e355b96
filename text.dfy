/**
 * The Python `str` operations the chat panel relies on: `strip()` with no
 * argument, `lower()` (ASCII letters only) and the substring test `q in s`.
 */
module Text {

  /** Python's `str.isspace` for one character: the characters `strip()` removes. */
  predicate IsSpace(c: char)
  {
    ('\U{0009}' <= c <= '\U{000D}') || ('\U{001C}' <= c <= '\U{0020}') ||
    c == '\U{0085}' || c == '\U{00A0}' || c == '\U{1680}' ||
    ('\U{2000}' <= c <= '\U{200A}') || c == '\U{2028}' || c == '\U{2029}' ||
    c == '\U{202F}' || c == '\U{205F}' || c == '\U{3000}'
  }

  predicate AllSpace(s: string)
  {
    forall i :: 0 <= i < |s| ==> IsSpace(s[i])
  }

  /** Neither end of `s` is whitespace: what `strip()` returns. */
  predicate IsStripped(s: string)
  {
    s == [] || (!IsSpace(s[0]) && !IsSpace(s[|s| - 1]))
  }

  /** The length of the longest all-whitespace prefix of `s`. */
  function LeadingSpaces(s: string): (n: nat)
    ensures n <= |s|
    ensures forall i :: 0 <= i < n ==> IsSpace(s[i])
    ensures n == |s| || !IsSpace(s[n])
  {
    if s != [] && IsSpace(s[0]) then 1 + LeadingSpaces(s[1..]) else 0
  }

  /** The length of the longest all-whitespace suffix of `s`. */
  function TrailingSpaces(s: string): (n: nat)
    ensures n <= |s|
    ensures forall i :: |s| - n <= i < |s| ==> IsSpace(s[i])
    ensures n == |s| || !IsSpace(s[|s| - n - 1])
  {
    if s != [] && IsSpace(s[|s| - 1]) then 1 + TrailingSpaces(s[..|s| - 1]) else 0
  }

  /** Any whitespace prefix that stops at a non-whitespace character (or the end) is the longest one. */
  lemma LeadingSpacesUnique(s: string, n: nat)
    requires n <= |s| && (forall i :: 0 <= i < n ==> IsSpace(s[i]))
    requires n == |s| || !IsSpace(s[n])
    ensures LeadingSpaces(s) == n
  {
  }

  /** Any whitespace suffix that stops at a non-whitespace character (or the start) is the longest one. */
  lemma TrailingSpacesUnique(s: string, n: nat)
    requires n <= |s| && (forall i :: |s| - n <= i < |s| ==> IsSpace(s[i]))
    requires n == |s| || !IsSpace(s[|s| - n - 1])
    ensures TrailingSpaces(s) == n
  {
  }

  /** `s.lstrip()`. */
  function StripLeft(s: string): string
  {
    s[LeadingSpaces(s)..]
  }

  /** `s.rstrip()`. */
  function StripRight(s: string): string
  {
    s[..|s| - TrailingSpaces(s)]
  }

  /** `s.strip()`: a piece of `s` with no whitespace at either end. */
  function Strip(s: string): (r: string)
    ensures |r| <= |s|
    ensures IsStripped(r)
  {
    var l := StripLeft(s);
    var r := StripRight(l);
    assert r != [] ==> r[0] == s[LeadingSpaces(s)] && r[|r| - 1] == l[|l| - TrailingSpaces(l) - 1];
    r
  }

  /** `strip()` is empty exactly for all-whitespace text. */
  lemma StripSpec(s: string)
    ensures Strip(s) == [] <==> AllSpace(s)
  {
    var l := StripLeft(s);
    assert |Strip(s)| == |l| - TrailingSpaces(l);
  }

  /**
   * `strip()` characterised without recursion: text that is `core` between
   * two runs of whitespace strips to `core`, when `core` has no whitespace at
   * either end.
   */
  lemma StripBetweenSpace(lead: string, core: string, trail: string)
    requires AllSpace(lead) && AllSpace(trail) && IsStripped(core)
    ensures Strip(lead + core + trail) == core
  {
    var s := lead + core + trail;
    if core == [] {
      LeadingSpacesUnique(s, |s|);
    } else {
      assert s[|lead|] == core[0];
      LeadingSpacesUnique(s, |lead|);
      var l := StripLeft(s);
      assert l == core + trail;
      assert l[|core| - 1] == core[|core| - 1];
      TrailingSpacesUnique(l, |trail|);
    }
  }

  /** Stripping twice is stripping once. */
  lemma StripIdempotent(s: string)
    ensures Strip(Strip(s)) == Strip(s)
  {
    StripSpec(s);
    StripBetweenSpace([], Strip(s), []);
    assert [] + Strip(s) + [] == Strip(s);
  }

  /** Python's `str.lower` on one character, for the ASCII letters. */
  function LowerChar(c: char): char
  {
    if 'A' <= c <= 'Z' then (c as int + ('a' as int - 'A' as int)) as char else c
  }

  /** `s.lower()`, letter by letter. */
  function Lower(s: string): (r: string)
    ensures |r| == |s|
    ensures forall i :: 0 <= i < |s| ==> r[i] == LowerChar(s[i])
  {
    if s == [] then [] else [LowerChar(s[0])] + Lower(s[1..])
  }

  predicate StartsWith(s: string, prefix: string)
  {
    |prefix| <= |s| && s[..|prefix|] == prefix
  }

  /** Python's `needle in s` for strings: `needle` occurs at some offset of `s`. */
  predicate Contains(s: string, needle: string)
    ensures Contains(s, needle) ==> |needle| <= |s|
    ensures needle == [] ==> Contains(s, needle)
    decreases |s|
  {
    StartsWith(s, needle) || (s != [] && Contains(s[1..], needle))
  }

  /** `needle` is the window of `s` that starts at offset `k`. */
  predicate OccursAt(s: string, needle: string, k: int)
  {
    0 <= k <= |s| - |needle| && s[k..k + |needle|] == needle
  }

  /** The recursive substring test agrees with "some window of `s` equals `needle`". */
  lemma {:induction false} ContainsAt(s: string, needle: string)
    ensures Contains(s, needle) <==> exists k :: OccursAt(s, needle, k)
    decreases |s|
  {
    if StartsWith(s, needle) {
      assert OccursAt(s, needle, 0);
    }
    if s != [] {
      ContainsAt(s[1..], needle);
      if Contains(s[1..], needle) {
        var k :| OccursAt(s[1..], needle, k);
        assert s[k + 1..k + 1 + |needle|] == s[1..][k..k + |needle|];
        assert OccursAt(s, needle, k + 1);
      }
      if k :| OccursAt(s, needle, k) {
        if k > 0 {
          assert s[1..][k - 1..k - 1 + |needle|] == s[k..k + |needle|];
          assert OccursAt(s[1..], needle, k - 1);
        }
      }
    } else if k :| OccursAt(s, needle, k) {
      assert k == 0 && s[..|needle|] == needle;
    }
  }

  /** A one-character needle occurs exactly when that character does. */
  lemma ContainsChar(s: string, ch: char)
    ensures Contains(s, [ch]) <==> ch in s
  {
    ContainsAt(s, [ch]);
    if ch in s {
      var k :| 0 <= k < |s| && s[k] == ch;
      assert s[k..k + 1] == [ch];
      assert OccursAt(s, [ch], k);
    }
    if k :| OccursAt(s, [ch], k) {
      assert s[k] == s[k..k + 1][0];
    }
  }
}
