/**
 * Characters and strings as the analyzer's Python code sees them:
 * whitespace as `str.isspace`/`\s`, word characters as `\w` (ASCII part),
 * `str.upper`, `str.strip`, `in` on strings and case-insensitive matching.
 */
module Text {

  /** Python's `str.isspace()`, which is also what `\s` matches in a `str` pattern. */
  predicate IsSpace(c: char) {
    || c == ' '
    || ('\t' <= c <= '\r')
    || ('\U{1c}' <= c <= '\U{1f}')
    || c == '\U{85}' || c == '\U{a0}' || c == '\U{1680}'
    || ('\U{2000}' <= c <= '\U{200a}')
    || c == '\U{2028}' || c == '\U{2029}' || c == '\U{202f}' || c == '\U{205f}' || c == '\U{3000}'
  }

  predicate IsAsciiUpper(c: char) { 'A' <= c <= 'Z' }
  predicate IsAsciiLower(c: char) { 'a' <= c <= 'z' }
  predicate IsDigit(c: char) { '0' <= c <= '9' }

  /** The first character of `[a-zA-Z_][a-zA-Z0-9_]*`. */
  predicate IsIdentStart(c: char) { IsAsciiUpper(c) || IsAsciiLower(c) || c == '_' }

  /** A later character of `[a-zA-Z_][a-zA-Z0-9_]*`; also the `\w` word characters of `\b`. */
  predicate IsWordChar(c: char) { IsIdentStart(c) || IsDigit(c) }

  /** `str.upper()` on one character. */
  function UpperChar(c: char): (u: char)
    ensures IsAsciiLower(c) ==> IsAsciiUpper(u)
    ensures !IsAsciiLower(c) ==> u == c
    ensures !IsAsciiLower(u)
  {
    if IsAsciiLower(c) then (c as int - 32) as char else c
  }

  /** `str.upper()`. */
  function Upper(s: string): (r: string)
    ensures |r| == |s|
    ensures forall i | 0 <= i < |s| :: r[i] == UpperChar(s[i])
  {
    seq(|s|, i requires 0 <= i < |s| => UpperChar(s[i]))
  }

  /** A string that `upper()` leaves unchanged. */
  predicate IsUpperText(s: string) {
    forall i | 0 <= i < |s| :: UpperChar(s[i]) == s[i]
  }

  lemma UpperIsUpperText(s: string)
    ensures IsUpperText(Upper(s))
  {
  }

  predicate AllSpace(s: string) {
    forall i | 0 <= i < |s| :: IsSpace(s[i])
  }

  /** The end of the run of whitespace that starts at `k` (what a greedy `\s*` consumes). */
  function SpaceEnd(s: string, k: nat): (r: nat)
    requires k <= |s|
    ensures k <= r <= |s|
    ensures r == |s| || !IsSpace(s[r])
    decreases |s| - k
  {
    if k == |s| || !IsSpace(s[k]) then k else SpaceEnd(s, k + 1)
  }

  /** Everything `SpaceEnd` skips is whitespace. */
  lemma {:induction false} SpaceEndSkipsSpace(s: string, k: nat)
    requires k <= |s|
    ensures forall j | k <= j < SpaceEnd(s, k) :: IsSpace(s[j])
    decreases |s| - k
  {
    if k < |s| && IsSpace(s[k]) {
      SpaceEndSkipsSpace(s, k + 1);
    }
  }

  /** The first index at or after `k` holding `c`, or `|s|` when there is none. */
  function CharIndex(s: string, c: char, k: nat): (r: nat)
    requires k <= |s|
    ensures k <= r <= |s|
    ensures r == |s| || s[r] == c
    decreases |s| - k
  {
    if k == |s| || s[k] == c then k else CharIndex(s, c, k + 1)
  }

  /** No index before the one `CharIndex` gives holds `c`. */
  lemma {:induction false} CharIndexIsFirst(s: string, c: char, k: nat)
    requires k <= |s|
    ensures forall j | k <= j < CharIndex(s, c, k) :: s[j] != c
    decreases |s| - k
  {
    if k < |s| && s[k] != c {
      CharIndexIsFirst(s, c, k + 1);
    }
  }

  /** `s.startswith(p)`. */
  predicate StartsWith(s: string, p: string) {
    |p| <= |s| && s[..|p|] == p
  }

  predicate ContainsAt(s: string, p: string, i: nat) {
    i + |p| <= |s| && s[i..i + |p|] == p
  }

  /** `p in s`, searched left to right from `i` on. */
  predicate ContainsFrom(s: string, p: string, i: nat)
    decreases |s| + 1 - i
  {
    i <= |s| && (ContainsAt(s, p, i) || ContainsFrom(s, p, i + 1))
  }

  /** The search finds `p` exactly when `p` occurs at or after `i`. */
  lemma {:induction false} ContainsFound(s: string, p: string, i: nat)
    ensures ContainsFrom(s, p, i) <==> exists j: nat | i <= j <= |s| :: ContainsAt(s, p, j)
    decreases |s| + 1 - i
  {
    if i <= |s| {
      ContainsFound(s, p, i + 1);
      if !ContainsAt(s, p, i) && ContainsFrom(s, p, i) {
        var j: nat :| i + 1 <= j <= |s| && ContainsAt(s, p, j);
      }
    }
  }

  /** `p in s` on Python strings. */
  predicate Contains(s: string, p: string) {
    ContainsFrom(s, p, 0)
  }

  /** `kw` (upper case) matches at `i` under `re.IGNORECASE`. */
  predicate MatchesAt(s: string, kw: string, i: nat) {
    i + |kw| <= |s| && forall j | 0 <= j < |kw| :: UpperChar(s[i + j]) == kw[j]
  }

  /** On text that is already upper case, case-insensitive matching is plain matching. */
  lemma MatchesAtUpperText(s: string, kw: string, i: nat)
    requires IsUpperText(s)
    ensures MatchesAt(s, kw, i) <==> ContainsAt(s, kw, i)
  {
    if MatchesAt(s, kw, i) {
      assert forall j | 0 <= j < |kw| :: s[i..i + |kw|][j] == kw[j];
    }
    if ContainsAt(s, kw, i) {
      assert forall j | 0 <= j < |kw| :: kw[j] == s[i..i + |kw|][j] == s[i + j];
    }
  }

  /** Upper-casing changes no character's whitespace status, so a whitespace run ends at the same place. */
  lemma {:induction false} SpaceEndUpper(s: string, k: nat)
    requires k <= |s|
    ensures SpaceEnd(Upper(s), k) == SpaceEnd(s, k)
    decreases |s| - k
  {
    if k < |s| && IsSpace(s[k]) {
      SpaceEndUpper(s, k + 1);
    }
  }

  /** Case-insensitive matching sees no difference between a text and its upper-cased form. */
  lemma MatchesAtUpper(s: string, kw: string, i: nat)
    ensures MatchesAt(Upper(s), kw, i) <==> MatchesAt(s, kw, i)
  {
  }

  /** What `lstrip(chars)` keeps: the suffix after the leading run of `drop` characters. */
  function DropWhile(s: string, drop: char -> bool): (r: string)
    ensures |r| <= |s|
    ensures r == [] || !drop(r[0])
  {
    if s == [] || !drop(s[0]) then s else DropWhile(s[1..], drop)
  }

  /** `DropWhile` removes exactly the leading run of `drop` characters. */
  lemma {:induction false} DropWhileRemovesLeadingRun(s: string, drop: char -> bool)
    ensures var r := DropWhile(s, drop);
            && r == s[|s| - |r|..]
            && forall i | 0 <= i < |s| - |r| :: drop(s[i])
  {
    if s != [] && drop(s[0]) {
      DropWhileRemovesLeadingRun(s[1..], drop);
      var r := DropWhile(s[1..], drop);
      assert s[1..][|s| - 1 - |r|..] == s[|s| - |r|..];
    }
  }

  /** What `rstrip(chars)` keeps: the prefix before the trailing run of `drop` characters. */
  function DropWhileEnd(s: string, drop: char -> bool): (r: string)
    ensures |r| <= |s| && r == s[..|r|]
    ensures r == [] || !drop(r[|r| - 1])
  {
    if s == [] || !drop(s[|s| - 1]) then s
    else
      var r := DropWhileEnd(s[..|s| - 1], drop);
      assert s[..|s| - 1][..|r|] == s[..|r|];
      r
  }

  /** `DropWhileEnd` removes exactly the trailing run of `drop` characters. */
  lemma {:induction false} DropWhileEndRemovesTrailingRun(s: string, drop: char -> bool)
    ensures var r := DropWhileEnd(s, drop);
            forall i | |r| <= i < |s| :: drop(s[i])
  {
    if s != [] && drop(s[|s| - 1]) {
      DropWhileEndRemovesTrailingRun(s[..|s| - 1], drop);
    }
  }

  /** `s.strip(chars)` where `drop` tells the stripped characters. */
  function StripBy(s: string, drop: char -> bool): (r: string)
    ensures |r| <= |s|
    ensures r == [] || (!drop(r[0]) && !drop(r[|r| - 1]))
  {
    DropWhileEnd(DropWhile(s, drop), drop)
  }

  /**
   * `strip(chars)` keeps one contiguous piece of `s`: everything before it
   * and everything after it is a stripped character, and (by the
   * function's contract) the piece neither starts nor ends with one.
   */
  lemma StripByExact(s: string, drop: char -> bool)
    ensures var r := StripBy(s, drop);
            var a := |s| - |DropWhile(s, drop)|;
            && a + |r| <= |s|
            && r == s[a..a + |r|]
            && (forall j | 0 <= j < a :: drop(s[j]))
            && (forall j | a + |r| <= j < |s| :: drop(s[j]))
  {
    var t := DropWhile(s, drop);
    var r := StripBy(s, drop);
    var a := |s| - |t|;
    DropWhileRemovesLeadingRun(s, drop);
    DropWhileEndRemovesTrailingRun(t, drop);
    assert t == s[a..];
    assert r == t[..|r|];
    assert r == s[a..a + |r|];
    forall j | a + |r| <= j < |s|
      ensures drop(s[j])
    {
      assert s[j] == t[j - a];
    }
  }

  /** `s.strip()`. */
  function Strip(s: string): string {
    StripBy(s, IsSpace)
  }

  /** `strip()` leaves a text alone that starts and ends with a non-whitespace character. */
  lemma StripUnchanged(s: string)
    requires s != [] && !IsSpace(s[0]) && !IsSpace(s[|s| - 1])
    ensures Strip(s) == s
  {
  }

  /** `strip()` on a text with one newline at each end drops exactly those two newlines. */
  lemma StripNewlines(body: string)
    requires body != [] && !IsSpace(body[0]) && !IsSpace(body[|body| - 1])
    ensures Strip("\n" + body + "\n") == body
  {
    var t := body + "\n";
    var s := "\n" + t;
    assert s == "\n" + body + "\n";
    assert s[1..] == t && IsSpace(s[0]);
    assert t[0] == body[0];
    assert DropWhile(s, IsSpace) == DropWhile(t, IsSpace) == t;
    assert t[..|t| - 1] == body && IsSpace(t[|t| - 1]);
    assert DropWhileEnd(t, IsSpace) == DropWhileEnd(body, IsSpace) == body;
  }

  /** `strip()` on a text that ends with one newline drops exactly that newline. */
  lemma StripFinalNewline(body: string)
    requires body != [] && !IsSpace(body[0]) && !IsSpace(body[|body| - 1])
    ensures Strip(body + "\n") == body
  {
    var t := body + "\n";
    assert t[0] == body[0];
    assert DropWhile(t, IsSpace) == t;
    assert t[..|t| - 1] == body && IsSpace(t[|t| - 1]);
    assert DropWhileEnd(t, IsSpace) == DropWhileEnd(body, IsSpace) == body;
  }
}
