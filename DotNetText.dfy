/**
  The parts of .NET's System.String and System.Char that both services rely on:
  `char.IsWhiteSpace`, `string.IsNullOrWhiteSpace`, `string.Trim()`,
  `string.ToLower()`, ordinal `string.Contains(string)`, and the text a
  `StringBuilder` holds after a sequence of `Append` calls.
 */
module DotNetText {
  import opened Wrappers

  /** `char.IsWhiteSpace`: the Unicode space, line and paragraph separators,
      the control characters U+0009..U+000D, and U+0085. */
  predicate IsWhiteSpace(c: char) {
    || ('\U{0009}' <= c <= '\U{000D}')
    || c == ' ' || c == '\U{0085}' || c == '\U{00A0}' || c == '\U{1680}'
    || ('\U{2000}' <= c <= '\U{200A}')
    || c == '\U{2028}' || c == '\U{2029}' || c == '\U{202F}' || c == '\U{205F}' || c == '\U{3000}'
  }

  predicate AllWhiteSpace(s: string) {
    forall i :: 0 <= i < |s| ==> IsWhiteSpace(s[i])
  }

  /** `string.IsNullOrWhiteSpace`: null, empty, or white space only. */
  predicate IsNullOrWhiteSpace(s: Option<string>) {
    s.None? || AllWhiteSpace(s.value)
  }

  /** Every character of `s` from index `lo` up to (not including) `hi` is white space. */
  predicate WhiteSpan(s: string, lo: int, hi: int)
    requires 0 <= lo && hi <= |s|
  {
    forall k :: lo <= k < hi ==> IsWhiteSpace(s[k])
  }

  /** Number of white-space characters at the start of `s`. */
  function LeadingWhiteSpace(s: string): (n: nat)
    ensures n <= |s| && WhiteSpan(s, 0, n)
    ensures n < |s| ==> !IsWhiteSpace(s[n])
  {
    if |s| > 0 && IsWhiteSpace(s[0]) then
      var n := 1 + LeadingWhiteSpace(s[1..]);
      assert forall k :: 1 <= k < n ==> s[k] == s[1..][k - 1];
      n
    else
      0
  }

  /** Number of white-space characters at the end of `s`. */
  function TrailingWhiteSpace(s: string): (n: nat)
    ensures n <= |s| && WhiteSpan(s, |s| - n, |s|)
    ensures n < |s| ==> !IsWhiteSpace(s[|s| - n - 1])
  {
    if |s| > 0 && IsWhiteSpace(s[|s| - 1]) then
      1 + TrailingWhiteSpace(s[..|s| - 1])
    else
      0
  }

  /** True when `r` has no white space at either end. */
  predicate HasTrimmedEnds(r: string) {
    r == [] || (!IsWhiteSpace(r[0]) && !IsWhiteSpace(r[|r| - 1]))
  }

  /** `r` is what is left of `s` once white space is stripped from both ends:
      `s` is `r` wrapped in white space on either side, and `r` itself
      neither starts nor ends with white space. */
  ghost predicate IsTrimOf(r: string, s: string) {
    HasTrimmedEnds(r) &&
    exists i, j :: 0 <= i <= j <= |s| && s[i..j] == r && WhiteSpan(s, 0, i) && WhiteSpan(s, j, |s|)
  }

  /** `string.Trim()`. */
  function Trim(s: string): (r: string)
    ensures IsTrimOf(r, s)
  {
    var a := LeadingWhiteSpace(s);
    var b := TrailingWhiteSpace(s[a..]);
    assert forall k :: |s| - b <= k < |s| ==> s[k] == s[a..][k - a];
    s[a..|s| - b]
  }

  /** The white space counted by `LeadingWhiteSpace` ends at the first
      character that is not white space. */
  lemma LeadingEndsAtFirstNonWhite(s: string, i: nat)
    requires i <= |s| && WhiteSpan(s, 0, i)
    requires i < |s| ==> !IsWhiteSpace(s[i])
    ensures LeadingWhiteSpace(s) == i
  {
  }

  /** The white space counted by `TrailingWhiteSpace` starts right after the
      last character that is not white space. */
  lemma TrailingStartsAfterLastNonWhite(t: string, j: nat)
    requires j <= |t| && WhiteSpan(t, j, |t|)
    requires 0 < j ==> !IsWhiteSpace(t[j - 1])
    ensures TrailingWhiteSpace(t) == |t| - j
  {
  }

  /** `Trim` strips `i` characters from the front and `|s| - j` from the back
      whenever `s[i..j]` starts and ends with non-white space and the rest of
      `s` is white space. */
  lemma TrimStripsExactly(s: string, i: nat, j: nat)
    requires i < j <= |s| && WhiteSpan(s, 0, i) && WhiteSpan(s, j, |s|)
    requires !IsWhiteSpace(s[i]) && !IsWhiteSpace(s[j - 1])
    ensures Trim(s) == s[i..j]
  {
    LeadingEndsAtFirstNonWhite(s, i);
    var t := s[i..];
    assert WhiteSpan(t, j - i, |t|) by {
      assert forall k :: j - i <= k < |t| ==> t[k] == s[k + i];
    }
    TrailingStartsAfterLastNonWhite(t, j - i);
  }

  /** `IsTrimOf` determines its first argument: `Trim` is the only function
      that meets it. */
  lemma TrimUnique(r: string, s: string)
    requires IsTrimOf(r, s)
    ensures r == Trim(s)
  {
    var i, j :| 0 <= i <= j <= |s| && s[i..j] == r && WhiteSpan(s, 0, i) && WhiteSpan(s, j, |s|);
    if i == j {
      LeadingEndsAtFirstNonWhite(s, |s|);
    } else {
      TrimStripsExactly(s, i, j);
    }
  }

  /** Trimming twice is trimming once. */
  lemma TrimIdempotent(s: string)
    ensures Trim(Trim(s)) == Trim(s)
  {
    var r := Trim(s);
    assert r[0..|r|] == r;
    assert IsTrimOf(r, r);
    TrimUnique(r, r);
  }

  /** A string trims to the empty string exactly when it is white space only:
      the guard `IsNullOrWhiteSpace` rejects exactly the prompts that `Trim`
      would empty. */
  lemma BlankIffTrimsToEmpty(s: string)
    ensures AllWhiteSpace(s) <==> Trim(s) == []
  {
    var r := Trim(s);
    var i, j :| 0 <= i <= j <= |s| && s[i..j] == r && WhiteSpan(s, 0, i) && WhiteSpan(s, j, |s|);
    if r != [] {
      assert s[i] == r[0] && !IsWhiteSpace(s[i]);
    }
  }

  /** `char.ToLower`, restricted to the capitals this model maps: ASCII
      A..Z and the Latin-1 capitals U+00C0..U+00DE other than U+00D7. Every
      other character, including capitals of other scripts and the
      culture-specific mappings, is left as it is. */
  function LowerChar(c: char): char {
    if 'A' <= c <= 'Z' || ('\U{00C0}' <= c <= '\U{00DE}' && c != '\U{00D7}') then
      (c as int + 32) as char
    else
      c
  }

  /** `string.ToLower()`, character by character. */
  function ToLower(s: string): (r: string)
    ensures |r| == |s|
    ensures forall i :: 0 <= i < |s| ==> r[i] == LowerChar(s[i])
  {
    seq(|s|, i requires 0 <= i < |s| => LowerChar(s[i]))
  }

  /** A lower-cased character has nothing left to lower. */
  lemma LowerCharIdempotent(c: char)
    ensures LowerChar(LowerChar(c)) == LowerChar(c)
  {
  }

  /** Lower-casing twice is lower-casing once: no mapped capital survives
      `ToLower`. */
  lemma ToLowerIdempotent(s: string)
    ensures ToLower(ToLower(s)) == ToLower(s)
  {
    forall i | 0 <= i < |s|
      ensures ToLower(ToLower(s))[i] == ToLower(s)[i]
    {
      LowerCharIdempotent(s[i]);
    }
  }

  /** Letter case never changes whether a character is white space. */
  lemma LowerCharKeepsWhiteSpace(c: char)
    ensures IsWhiteSpace(LowerChar(c)) <==> IsWhiteSpace(c)
  {
  }

  /** Two strings that differ only in letter case. */
  predicate EqualIgnoringCase(s: string, t: string) {
    |s| == |t| && forall i :: 0 <= i < |s| ==> LowerChar(s[i]) == LowerChar(t[i])
  }

  predicate StartsWith(s: string, prefix: string) {
    |prefix| <= |s| && s[..|prefix|] == prefix
  }

  /** Ordinal `string.Contains(string)`: `sub` occurs in `s` at some offset. */
  predicate Contains(s: string, sub: string) {
    exists i :: 0 <= i <= |s| && StartsWith(s[i..], sub)
  }

  /** A string that lacks one of the characters of `sub` cannot contain it. */
  lemma MissingCharNotContained(s: string, sub: string, k: nat)
    requires k < |sub|
    requires forall i :: 0 <= i < |s| ==> s[i] != sub[k]
    ensures !Contains(s, sub)
  {
    forall i | 0 <= i <= |s| ensures !StartsWith(s[i..], sub) {
      if |sub| <= |s| - i {
        assert s[i..][..|sub|][k] == s[i + k];
      }
    }
  }

  /** The text of a `StringBuilder` after appending `fragments` in order. */
  function Concat(fragments: seq<string>): string {
    if fragments == [] then [] else Concat(fragments[..|fragments| - 1]) + fragments[|fragments| - 1]
  }

  /** Appending two runs of fragments one after the other gives the
      concatenation of their texts, so no fragment is lost or reordered. */
  lemma {:induction false} ConcatAppend(a: seq<string>, b: seq<string>)
    ensures Concat(a + b) == Concat(a) + Concat(b)
  {
    if b == [] {
      assert a + b == a;
    } else {
      var b' := b[..|b| - 1];
      assert (a + b)[..|a + b| - 1] == a + b';
      ConcatAppend(a, b');
    }
  }

  /** Fragment `k` appears in the concatenation right after fragments `0..k`. */
  lemma ConcatContainsFragment(fragments: seq<string>, k: nat)
    requires k < |fragments|
    ensures var pre := |Concat(fragments[..k])|;
            pre + |fragments[k]| <= |Concat(fragments)| &&
            Concat(fragments)[pre..pre + |fragments[k]|] == fragments[k]
  {
    assert fragments == fragments[..k] + [fragments[k]] + fragments[k + 1..];
    ConcatAppend(fragments[..k] + [fragments[k]], fragments[k + 1..]);
    ConcatAppend(fragments[..k], [fragments[k]]);
    assert [fragments[k]][..0] == [];
  }
}
