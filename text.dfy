/**
 * The three JavaScript string operations the handler relies on:
 * `String.prototype.trim`, `String.prototype.toLowerCase` and the
 * `length` property (which counts UTF-16 code units, not characters).
 */
module Text {

  /** The characters from `lo` to `hi`, both included. */
  datatype CharRange = CharRange(lo: char, hi: char)

  /** The characters `trim` removes: ECMAScript WhiteSpace (tab, vertical tab,
      form feed, space, no-break space, byte-order mark and the other Unicode
      "Zs" spaces) and LineTerminator (line feed, carriage return, line and
      paragraph separators). */
  const WhitespaceRanges: seq<CharRange> := [
    CharRange('\t', '\r'), CharRange(' ', ' '), CharRange('\U{00A0}', '\U{00A0}'),
    CharRange('\U{1680}', '\U{1680}'), CharRange('\U{2000}', '\U{200A}'),
    CharRange('\U{2028}', '\U{2029}'), CharRange('\U{202F}', '\U{202F}'),
    CharRange('\U{205F}', '\U{205F}'), CharRange('\U{3000}', '\U{3000}'),
    CharRange('\U{FEFF}', '\U{FEFF}')
  ]

  predicate InRanges(c: char, ranges: seq<CharRange>) {
    ranges != [] && (ranges[0].lo <= c <= ranges[0].hi || InRanges(c, ranges[1..]))
  }

  predicate IsWhitespace(c: char) {
    InRanges(c, WhitespaceRanges)
  }

  /** A character in none of the ranges, checked range by range. */
  lemma {:induction false} OutsideRanges(c: char, ranges: seq<CharRange>)
    requires forall k :: 0 <= k < |ranges| ==> c < ranges[k].lo || ranges[k].hi < c
    ensures !InRanges(c, ranges)
  {
    if ranges != [] {
      OutsideRanges(c, ranges[1..]);
    }
  }

  /** Printable ASCII characters other than the space are not whitespace. */
  lemma PrintableIsNotWhitespace(c: char)
    requires '!' <= c <= '~'
    ensures !IsWhitespace(c)
  {
    OutsideRanges(c, WhitespaceRanges);
  }

  /** Every character of `s` from index `lo` (inclusive) to `hi` (exclusive) is whitespace. */
  predicate WhitespaceBetween(s: string, lo: int, hi: int) {
    forall k :: lo <= k < hi && 0 <= k < |s| ==> IsWhitespace(s[k])
  }

  /** `s` is `core` surrounded by whitespace, with `core` starting at index `i`. */
  predicate PaddedBy(s: string, core: string, i: int) {
    0 <= i && i + |core| <= |s| && s[i..i + |core|] == core &&
    WhitespaceBetween(s, 0, i) && WhitespaceBetween(s, i + |core|, |s|)
  }

  /** Drops the leading whitespace: the result is the suffix of `s` that starts
      at its first non-whitespace character. */
  function TrimStart(s: string): (r: string)
    ensures |r| <= |s| && r == s[|s| - |r|..]
    ensures WhitespaceBetween(s, 0, |s| - |r|)
    ensures r == [] || !IsWhitespace(r[0])
  {
    if s != [] && IsWhitespace(s[0]) then TrimStart(s[1..]) else s
  }

  /** Drops the trailing whitespace: the result is the prefix of `s` that ends
      at its last non-whitespace character. */
  function TrimEnd(s: string): (r: string)
    ensures |r| <= |s| && r == s[..|r|]
    ensures WhitespaceBetween(s, |r|, |s|)
    ensures r == [] || !IsWhitespace(r[|r| - 1])
  {
    if s != [] && IsWhitespace(s[|s| - 1]) then TrimEnd(s[..|s| - 1]) else s
  }

  /** Leading whitespace, then a prefix of the rest followed by whitespace:
      together, a core padded by whitespace. */
  lemma PaddedCompose(s: string, i: int, t: string, r: string)
    requires 0 <= i <= |s| && t == s[i..] && WhitespaceBetween(s, 0, i)
    requires |r| <= |t| && r == t[..|r|] && WhitespaceBetween(t, |r|, |t|)
    ensures PaddedBy(s, r, i)
  {
    assert s[i..i + |r|] == r;
    forall k | i + |r| <= k < |s|
      ensures IsWhitespace(s[k])
    {
      assert s[k] == t[k - i];
    }
  }

  /** `String.prototype.trim`: `s` with whitespace removed at both ends. */
  function Trim(s: string): (r: string)
    ensures PaddedBy(s, r, |s| - |TrimStart(s)|)
    ensures r == [] || (!IsWhitespace(r[0]) && !IsWhitespace(r[|r| - 1]))
  {
    var t := TrimStart(s);
    var r := TrimEnd(t);
    PaddedCompose(s, |s| - |t|, t, r);
    assert r != [] ==> r[0] == t[0];
    r
  }

  /** Two positions that both end a whitespace prefix and hold a
      non-whitespace character are the same position. */
  lemma SameStart(s: string, i: int, i': int)
    requires 0 <= i < |s| && 0 <= i' < |s|
    requires WhitespaceBetween(s, 0, i) && WhitespaceBetween(s, 0, i')
    requires !IsWhitespace(s[i]) && !IsWhitespace(s[i'])
    ensures i == i'
  {
  }

  /** Two positions that both start a whitespace suffix and follow a
      non-whitespace character are the same position. */
  lemma SameEnd(s: string, e: int, e': int)
    requires 0 < e <= |s| && 0 < e' <= |s|
    requires WhitespaceBetween(s, e, |s|) && WhitespaceBetween(s, e', |s|)
    requires !IsWhitespace(s[e - 1]) && !IsWhitespace(s[e' - 1])
    ensures e == e'
  {
  }

  /** Trim's result is determined by its characterisation: whichever way `s`
      is split into whitespace, a core that starts and ends with a
      non-whitespace character, and whitespace, that core is `Trim(s)`. */
  lemma {:induction false} TrimUnique(s: string, core: string, i: int)
    requires PaddedBy(s, core, i)
    requires core != [] && !IsWhitespace(core[0]) && !IsWhitespace(core[|core| - 1])
    ensures Trim(s) == core
  {
    var r := Trim(s);
    var i' := |s| - |TrimStart(s)|;
    var e, e' := i + |core|, i' + |r|;
    assert s[i] == core[0] && s[e - 1] == core[|core| - 1];
    if r == [] {
      assert false;
    }
    assert s[i'] == r[0] && s[e' - 1] == r[|r| - 1];
    SameStart(s, i, i');
    SameEnd(s, e, e');
  }

  /** Trimming twice is trimming once. */
  lemma TrimIdempotent(s: string)
    ensures Trim(Trim(s)) == Trim(s)
  {
    var r := Trim(s);
    if r != [] {
      assert r[0..|r|] == r;
      TrimUnique(r, r, 0);
    }
  }

  /** A string that starts and ends with a printable ASCII character other
      than the space is left as is by `trim`. */
  lemma TrimKeepsPrintableEnds(s: string)
    requires s != [] && '!' <= s[0] <= '~' && '!' <= s[|s| - 1] <= '~'
    ensures Trim(s) == s
  {
    PrintableIsNotWhitespace(s[0]);
    PrintableIsNotWhitespace(s[|s| - 1]);
    assert s[0..|s|] == s;
    TrimUnique(s, s, 0);
  }

  /** `toLowerCase` on one character, restricted to the ASCII letters. */
  function LowerChar(c: char): char {
    if 'A' <= c <= 'Z' then (c as int + 32) as char else c
  }

  /** `String.prototype.toLowerCase`, restricted to the ASCII letters. */
  function AsciiLower(s: string): (r: string)
    ensures |r| == |s|
  {
    seq(|s|, k requires 0 <= k < |s| => LowerChar(s[k]))
  }

  /** The JavaScript `length` of `s`: characters outside the Basic
      Multilingual Plane take two UTF-16 code units. */
  function Utf16Length(s: string): (n: nat)
    ensures |s| <= n <= 2 * |s|
    ensures n == 0 <==> s == []
  {
    if s == [] then 0
    else (if s[0] as int > 0xFFFF then 2 else 1) + Utf16Length(s[1..])
  }
}
