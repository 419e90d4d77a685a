/**
 * The string trimming the provider does on its inputs: `str.strip()` on the MFA code
 * submitted by the human, and `str.rstrip("/")` on the configured server URL.
 */
module Text {

  /**
   * Python's `str.isspace` for one character: the ASCII controls 9 to 13 and 28 to 31,
   * the space, and the Unicode separators Python also counts as whitespace.
   */
  predicate IsSpace(c: char)
  {
    || '\U{0009}' <= c <= '\U{000D}'
    || '\U{001C}' <= c <= '\U{0020}'
    || c == '\U{0085}' || c == '\U{00A0}' || c == '\U{1680}'
    || '\U{2000}' <= c <= '\U{200A}'
    || c == '\U{2028}' || c == '\U{2029}' || c == '\U{202F}' || c == '\U{205F}' || c == '\U{3000}'
  }

  /** Drops the longest prefix of `s` whose characters all satisfy `drop`. */
  function TrimStart(s: string, drop: char -> bool): (r: string)
    ensures |r| <= |s| && r == s[|s| - |r|..]
    ensures forall k :: 0 <= k < |s| - |r| ==> drop(s[k])
    ensures r != "" ==> !drop(r[0])
    decreases |s|
  {
    if s != "" && drop(s[0]) then
      var r := TrimStart(s[1..], drop);
      assert forall k :: 1 <= k < |s| - |r| ==> s[k] == s[1..][k - 1];
      r
    else
      s
  }

  /** Drops the longest suffix of `s` whose characters all satisfy `drop`. */
  function TrimEnd(s: string, drop: char -> bool): (r: string)
    ensures |r| <= |s| && r == s[..|r|]
    ensures forall k :: |r| <= k < |s| ==> drop(s[k])
    ensures r != "" ==> !drop(r[|r| - 1])
    decreases |s|
  {
    if s != "" && drop(s[|s| - 1]) then
      var r := TrimEnd(s[..|s| - 1], drop);
      assert forall k :: |r| <= k < |s| - 1 ==> s[k] == s[..|s| - 1][k];
      r
    else
      s
  }

  /** `r` is `s` with a run of `drop` characters removed from its front and one from its back. */
  predicate TrimmedBy(s: string, r: string, i: int, j: int, drop: char -> bool)
  {
    && 0 <= i <= j <= |s| && r == s[i..j]
    && (forall k :: 0 <= k < i ==> drop(s[k]))
    && (forall k :: j <= k < |s| ==> drop(s[k]))
  }

  /** Python's `s.strip()`: whitespace removed from both ends. */
  function Strip(s: string): (r: string)
    ensures exists i, j :: TrimmedBy(s, r, i, j, IsSpace)
    ensures r != "" ==> !IsSpace(r[0]) && !IsSpace(r[|r| - 1])
  {
    var t := TrimStart(s, IsSpace);
    var r := TrimEnd(t, IsSpace);
    assert r != "" ==> r[0] == t[0];
    TrimBoth(s, t, r, IsSpace);
    r
  }

  /**
   * Removing a run of `drop` characters from the front of `s` (giving `t`) and then from the
   * back of `t` (giving `r`) removes a run of them at each end of `s`.
   */
  lemma TrimBoth(s: string, t: string, r: string, drop: char -> bool)
    requires |t| <= |s| && t == s[|s| - |t|..] && forall k :: 0 <= k < |s| - |t| ==> drop(s[k])
    requires |r| <= |t| && r == t[..|r|] && forall k :: |r| <= k < |t| ==> drop(t[k])
    ensures TrimmedBy(s, r, |s| - |t|, |s| - |t| + |r|, drop)
  {
    forall k | |s| - |t| + |r| <= k < |s|
      ensures drop(s[k])
    {
      assert s[k] == t[k - (|s| - |t|)];
    }
  }

  /** Python's `s.rstrip(c)` for a single character `c`: every trailing `c` removed. */
  function RStrip(s: string, c: char): (r: string)
    ensures |r| <= |s| && r == s[..|r|]
    ensures forall k :: |r| <= k < |s| ==> s[k] == c
    ensures r != "" ==> r[|r| - 1] != c
  {
    TrimEnd(s, x => x == c)
  }

  /** `rstrip` removes a trailing `c` from a string that does not otherwise end in `c`. */
  lemma RStripOne(s: string, c: char)
    requires s == "" || s[|s| - 1] != c
    ensures RStrip(s + [c], c) == s
  {
    assert (s + [c])[..|s|] == s;
  }

  /** A stripped string is empty exactly when the input was all whitespace. */
  lemma StripBlank(s: string)
    ensures Strip(s) == "" <==> forall k :: 0 <= k < |s| ==> IsSpace(s[k])
  {
    var t := TrimStart(s, IsSpace);
    if Strip(s) == "" {
      // a non-empty `t` would start with a character TrimEnd cannot drop
      assert t == "";
    }
  }

  /** Stripping twice is stripping once. */
  lemma StripIdempotent(s: string)
    ensures Strip(Strip(s)) == Strip(s)
  {
    var r := Strip(s);
    if r != "" {
      assert TrimStart(r, IsSpace) == r;
      assert TrimEnd(r, IsSpace) == r;
    }
  }
}
