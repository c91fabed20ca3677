/**
 * The Foundation string operations the contacts library relies on:
 * character classes for trimming, `trimmingCharacters(in:)`, `lowercased()`,
 * `uppercased()` and substring search with `contains(_:)`.
 * Case mapping is modelled on ASCII letters only.
 */
module Text {

  /** `CharacterSet.whitespaces`: the Unicode space separators (category Zs) and the tab. */
  predicate IsWhitespace(c: char)
  {
    || c == ' ' || c == '\t' || c == '\U{A0}' || c == '\U{1680}'
    || ('\U{2000}' <= c <= '\U{200A}')
    || c == '\U{202F}' || c == '\U{205F}' || c == '\U{3000}'
  }

  /** `CharacterSet.newlines`: U+000A to U+000D, U+0085, U+2028 and U+2029. */
  predicate IsNewline(c: char)
  {
    ('\n' <= c <= '\r') || c == '\U{85}' || c == '\U{2028}' || c == '\U{2029}'
  }

  /** `CharacterSet.whitespacesAndNewlines`. */
  predicate IsWhitespaceOrNewline(c: char)
  {
    IsWhitespace(c) || IsNewline(c)
  }

  /** The index of the first character at or after `i` that `drop` does not select, or `|s|`. */
  function SkipLeading(s: string, drop: char -> bool, i: nat): (k: nat)
    requires i <= |s|
    ensures i <= k <= |s|
    ensures k == |s| || !drop(s[k])
    ensures forall j :: i <= j < k ==> drop(s[j])
    decreases |s| - i
  {
    if i < |s| && drop(s[i]) then SkipLeading(s, drop, i + 1) else i
  }

  /** The end of `s[lo..hi]` once the trailing characters that `drop` selects are cut off. */
  function SkipTrailing(s: string, drop: char -> bool, lo: nat, hi: nat): (k: nat)
    requires lo <= hi <= |s|
    ensures lo <= k <= hi
    ensures k == lo || !drop(s[k - 1])
    ensures forall j :: k <= j < hi ==> drop(s[j])
    decreases hi - lo
  {
    if lo < hi && drop(s[hi - 1]) then SkipTrailing(s, drop, lo, hi - 1) else hi
  }

  /**
   * `trimmingCharacters(in:)`: the longest run of `s` that neither starts nor
   * ends with a character of the set; everything cut off belongs to the set.
   */
  function Trim(s: string, drop: char -> bool): (r: string)
    ensures var lo := SkipLeading(s, drop, 0);
      && lo + |r| <= |s|
      && r == s[lo..lo + |r|]
      && (forall i :: 0 <= i < lo ==> drop(s[i]))
      && (forall i :: lo + |r| <= i < |s| ==> drop(s[i]))
    ensures r != [] ==> !drop(r[0]) && !drop(r[|r| - 1])
  {
    var lo := SkipLeading(s, drop, 0);
    s[lo..SkipTrailing(s, drop, lo, |s|)]
  }

  /** Trimming yields the empty string exactly when every character belongs to the set. */
  lemma TrimEmpty(s: string, drop: char -> bool)
    ensures Trim(s, drop) == [] <==> forall i :: 0 <= i < |s| ==> drop(s[i])
  {
    var lo := SkipLeading(s, drop, 0);
    if Trim(s, drop) != [] {
      assert s[lo] == Trim(s, drop)[0];
    }
  }

  /** A string whose ends are outside the set is its own trimming. */
  lemma TrimKeepsEdgeFree(s: string, drop: char -> bool)
    requires s == [] || (!drop(s[0]) && !drop(s[|s| - 1]))
    ensures Trim(s, drop) == s
  {
    assert SkipLeading(s, drop, 0) == 0;
    assert SkipTrailing(s, drop, 0, |s|) == |s|;
  }

  /** Trimming a string that is already trimmed changes nothing. */
  lemma TrimIdempotent(s: string, drop: char -> bool)
    ensures Trim(Trim(s, drop), drop) == Trim(s, drop)
  {
    TrimKeepsEdgeFree(Trim(s, drop), drop);
  }

  /**
   * Joining two edge-free strings with a separator from the set and trimming
   * gives the join itself, or the one non-empty part when the other is empty.
   */
  lemma TrimJoined(a: string, sep: char, b: string, drop: char -> bool)
    requires drop(sep)
    requires a == [] || (!drop(a[0]) && !drop(a[|a| - 1]))
    requires b == [] || (!drop(b[0]) && !drop(b[|b| - 1]))
    ensures Trim(a + [sep] + b, drop) == if a == [] then b else if b == [] then a else a + [sep] + b
  {
    var s := a + [sep] + b;
    if a == [] && b == [] {
      TrimEmpty(s, drop);
    } else if a == [] {
      assert s[0] == sep && s[1] == b[0] && s[|s| - 1] == b[|b| - 1];
      assert SkipLeading(s, drop, 0) == 1;
      assert SkipTrailing(s, drop, 1, |s|) == |s|;
      assert s[1..] == b;
    } else if b == [] {
      assert s[0] == a[0] && s[|s| - 1] == sep && s[|s| - 2] == a[|a| - 1];
      assert SkipLeading(s, drop, 0) == 0;
      assert SkipTrailing(s, drop, 0, |s|) == |s| - 1;
      assert s[..|s| - 1] == a;
    } else {
      assert s[0] == a[0] && s[|s| - 1] == b[|b| - 1];
      TrimKeepsEdgeFree(s, drop);
    }
  }

  /** ASCII model of the lower-case mapping of one character. */
  function LowerChar(c: char): (r: char)
    ensures 'A' <= c <= 'Z' ==> 'a' <= r <= 'z'
    ensures !('A' <= c <= 'Z') ==> r == c
  {
    if 'A' <= c <= 'Z' then (c as int + 32) as char else c
  }

  /** ASCII model of the upper-case mapping of one character. */
  function UpperChar(c: char): (r: char)
    ensures 'a' <= c <= 'z' ==> 'A' <= r <= 'Z' && LowerChar(r) == c
    ensures !('a' <= c <= 'z') ==> r == c
  {
    if 'a' <= c <= 'z' then (c as int - 32) as char else c
  }

  /**
   * `lowercased()`, character by character: every capital becomes the small
   * letter that upper-cases back to it, every other character is kept, and
   * no capital is left.
   */
  function Lowercased(s: string): (r: string)
    ensures |r| == |s|
    ensures forall i :: 0 <= i < |s| && 'A' <= s[i] <= 'Z' ==> 'a' <= r[i] <= 'z' && UpperChar(r[i]) == s[i]
    ensures forall i :: 0 <= i < |s| && !('A' <= s[i] <= 'Z') ==> r[i] == s[i]
    ensures forall i :: 0 <= i < |r| ==> !('A' <= r[i] <= 'Z')
  {
    seq(|s|, i requires 0 <= i < |s| => LowerChar(s[i]))
  }

  /** Lower-casing neither creates nor removes whitespace or newlines. */
  lemma LowercasedKeepsBlanks(s: string)
    ensures forall i :: 0 <= i < |s| ==> (IsWhitespaceOrNewline(Lowercased(s)[i]) <==> IsWhitespaceOrNewline(s[i]))
  {
  }

  /** `needle` occurs in `s` starting at index `k`. */
  predicate OccursAt(s: string, needle: string, k: int)
  {
    0 <= k && k + |needle| <= |s| && s[k..k + |needle|] == needle
  }

  /** `needle` occurs in `s` at index `k` or later. */
  predicate OccursFrom(s: string, needle: string, k: nat)
    ensures OccursFrom(s, needle, k) <==> exists j :: k <= j && OccursAt(s, needle, j)
    decreases |s| - k
  {
    if k + |needle| > |s| then false
    else OccursAt(s, needle, k) || OccursFrom(s, needle, k + 1)
  }

  /** `contains(_:)`: `needle` occurs in `s` as a contiguous run of characters. */
  predicate Contains(s: string, needle: string)
    ensures Contains(s, needle) <==> exists k :: OccursAt(s, needle, k)
  {
    OccursFrom(s, needle, 0)
  }

  /** `needle` cannot occur in a string that lacks one of its characters. */
  lemma NotContainsForeignChar(s: string, needle: string, j: int)
    requires 0 <= j < |needle|
    requires forall k :: 0 <= k < |s| ==> s[k] != needle[j]
    ensures !Contains(s, needle)
  {
    forall k | 0 <= k <= |s| - |needle|
      ensures !OccursAt(s, needle, k)
    {
      assert s[k..k + |needle|][j] == s[k + j];
    }
  }
}
