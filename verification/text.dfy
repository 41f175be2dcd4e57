/** String helpers of the widget: label truncation and Python's `str.rstrip` of one character. */
module Text {

  function Min(a: int, b: int): int { if a <= b then a else b }
  function Max(a: int, b: int): int { if a <= b then b else a }

  /** Python's slice `s[:k]`: a negative `k` counts from the end, and both ends are clamped. */
  function PrefixTo(s: string, k: int): (r: string)
    ensures |r| == (if k >= 0 then Min(k, |s|) else Max(0, |s| + k))
    ensures r == s[..|r|]
  {
    if k >= 0 then (if k <= |s| then s[..k] else s)
    else if |s| + k >= 0 then s[..|s| + k]
    else []
  }

  const Ellipsis: string := "..."

  /** `MediaWidget.truncate_text`: text longer than `maxLength` keeps its first
      `maxLength - 3` characters (Python slice semantics) followed by an ellipsis. */
  function Truncate(text: string, maxLength: int): (r: string)
    ensures |text| <= maxLength ==> r == text
    ensures |text| > maxLength ==>
      3 <= |r| <= |text| + 3 && r[|r| - 3..] == Ellipsis && r[..|r| - 3] == text[..|r| - 3]
    ensures 3 <= maxLength ==> |r| <= maxLength
    ensures 3 <= maxLength < |text| ==> |r| == maxLength
  {
    if |text| > maxLength then PrefixTo(text, maxLength - 3) + Ellipsis else text
  }

  /** With a limit of at least three characters, truncating twice is truncating once. */
  lemma TruncateIdempotent(text: string, maxLength: int)
    requires 3 <= maxLength
    ensures Truncate(Truncate(text, maxLength), maxLength) == Truncate(text, maxLength)
  {
  }

  /** Below three characters the ellipsis alone overflows the limit, and a second
      truncation changes the text again. */
  lemma TruncateShortLimitNotIdempotent()
    ensures Truncate("abcd", 2) == "abc..."
    ensures Truncate(Truncate("abcd", 2), 2) == "abc....."
  {
    assert PrefixTo("abcd", -1) == "abc";
    assert PrefixTo("abc...", -1) == "abc..";
  }

  /** Python's `s.rstrip(c)` for a single character `c`: the longest prefix of `s`
      that does not end in `c` and after which only copies of `c` follow. */
  function RStrip(s: string, c: char): (r: string)
    ensures |r| <= |s| && r == s[..|r|]
    ensures |r| > 0 ==> r[|r| - 1] != c
    ensures forall i :: |r| <= i < |s| ==> s[i] == c
    decreases |s|
  {
    if |s| > 0 && s[|s| - 1] == c then RStrip(s[..|s| - 1], c) else s
  }

  /** Stripping a run of `c` appended to a text that does not end in `c` gives the text back. */
  lemma RStripAppended(u: string, pad: string, c: char)
    requires |u| == 0 || u[|u| - 1] != c
    requires forall i :: 0 <= i < |pad| ==> pad[i] == c
    ensures RStrip(u + pad, c) == u
  {
    var s := u + pad;
    var r := RStrip(s, c);
    assert |u| > 0 ==> s[|u| - 1] == u[|u| - 1];
    assert |r| == |u|;
    assert r == s[..|u|] == u;
  }

  /** Stripping is idempotent. */
  lemma RStripIdempotent(s: string, c: char)
    ensures RStrip(RStrip(s, c), c) == RStrip(s, c)
  {
    var r := RStrip(s, c);
    RStripAppended(r, [], c);
    assert r + [] == r;
  }
}
