/**
 * The two string operations the decoder relies on: `str::trim` and the
 * right-aligned, zero-filled formatting `format!("{:0>4}", s)`.
 * Strings are sequences of Unicode scalar values, as Rust's `char`s are.
 */
module Text {

  /**
   * Rust's `char::is_whitespace`: the Unicode White_Space property.
   * No general fact below depends on which characters are in this set.
   */
  predicate IsWhitespace(c: char) {
    || c == ' '
    || '\t' <= c <= '\r'
    || c == '\U{0085}'
    || c == '\U{00A0}'
    || c == '\U{1680}'
    || '\U{2000}' <= c <= '\U{200A}'
    || c == '\U{2028}'
    || c == '\U{2029}'
    || c == '\U{202F}'
    || c == '\U{205F}'
    || c == '\U{3000}'
  }

  /** Neither end of `s` is whitespace. */
  predicate IsTrimmed(s: string) {
    s == [] || (!IsWhitespace(s[0]) && !IsWhitespace(s[|s| - 1]))
  }

  /**
   * `str::trim`: drops whitespace from the front, then from the back, one
   * character at a time, until neither end is whitespace.
   */
  function Trim(s: string): (r: string)
    ensures |r| <= |s|
    decreases |s|
  {
    if s != [] && IsWhitespace(s[0]) then Trim(s[1..])
    else if s != [] && IsWhitespace(s[|s| - 1]) then Trim(s[..|s| - 1])
    else s
  }

  /** Neither end of a trimmed string is whitespace. */
  lemma {:induction false} TrimmedHasNoOuterWhitespace(s: string)
    ensures IsTrimmed(Trim(s))
    decreases |s|
  {
    if s != [] && IsWhitespace(s[0]) {
      TrimmedHasNoOuterWhitespace(s[1..]);
    } else if s != [] && IsWhitespace(s[|s| - 1]) {
      TrimmedHasNoOuterWhitespace(s[..|s| - 1]);
    }
  }

  /** How many whitespace characters `s` starts with. */
  function LeadingWhitespace(s: string): (n: nat)
    ensures n <= |s|
  {
    if s != [] && IsWhitespace(s[0]) then 1 + LeadingWhitespace(s[1..]) else 0
  }

  /**
   * What trimming keeps: the contiguous part of `s` that starts after its
   * leading whitespace; everything removed before and after it is whitespace.
   */
  lemma {:induction false} TrimKeepsTheMiddle(s: string)
    ensures var n := LeadingWhitespace(s);
      && n + |Trim(s)| <= |s|
      && Trim(s) == s[n..n + |Trim(s)|]
      && (forall j | 0 <= j < n :: IsWhitespace(s[j]))
      && (forall j | n + |Trim(s)| <= j < |s| :: IsWhitespace(s[j]))
    decreases |s|
  {
    if s != [] && IsWhitespace(s[0]) {
      TrimKeepsTheMiddle(s[1..]);
    } else if s != [] && IsWhitespace(s[|s| - 1]) {
      var t := s[..|s| - 1];
      TrimKeepsTheMiddle(t);
      assert LeadingWhitespace(t) == 0;
    }
  }

  /** Trimming changes a string exactly when one of its ends is whitespace. */
  lemma TrimFixesExactlyTrimmed(s: string)
    ensures Trim(s) == s <==> IsTrimmed(s)
  {
  }

  /** Trimming twice is trimming once. */
  lemma TrimIdempotent(s: string)
    ensures Trim(Trim(s)) == Trim(s)
  {
    TrimmedHasNoOuterWhitespace(s);
    TrimFixesExactlyTrimmed(Trim(s));
  }

  /**
   * `format!("{:0>width$}", s)` with fill `fill`: right-aligns `s` in a field
   * of `width` characters by adding `fill` on the left; never truncates.
   */
  function PadLeft(s: string, width: nat, fill: char): (r: string)
    ensures |r| == if |s| < width then width else |s|
    ensures r[|r| - |s|..] == s
    ensures forall i | 0 <= i < |r| - |s| :: r[i] == fill
  {
    if |s| < width then seq(width - |s|, _ => fill) + s else s
  }
}
