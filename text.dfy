/** Text primitives the cache relies on: UTF-8 encoding (`str.encode("utf-8")`),
    Python's `str.strip()`, the newline translation of a file opened in text mode,
    and decimal rendering of integers (`str(int)`). */
module Text {

  type byte = b: int | 0 <= b < 256

  // ---------------------------------------------------------------------------
  // UTF-8
  // ---------------------------------------------------------------------------

  /** The UTF-8 encoding of one Unicode scalar value. */
  function Utf8Char(c: char): (r: seq<byte>)
    ensures 1 <= |r| <= 4
    ensures |r| == 1 <==> c as int < 0x80
    ensures |r| == 1 ==> r[0] == c as int
    ensures 0x80 <= r[0]  ==> 0xC0 <= r[0]
    ensures forall i :: 1 <= i < |r| ==> 0x80 <= r[i] < 0xC0
  {
    var n := c as int;
    if n < 0x80 then [n]
    else if n < 0x800 then [0xC0 + n / 0x40, 0x80 + n % 0x40]
    else if n < 0x10000 then [0xE0 + n / 0x40 / 0x40, 0x80 + n / 0x40 % 0x40, 0x80 + n % 0x40]
    else [0xF0 + n / 0x40 / 0x40 / 0x40, 0x80 + n / 0x40 / 0x40 % 0x40, 0x80 + n / 0x40 % 0x40, 0x80 + n % 0x40]
  }

  /** `s.encode("utf-8")`: every character contributes one to four bytes. */
  function Utf8(s: string): (r: seq<byte>)
    ensures |s| <= |r| <= 4 * |s|
    ensures (forall i :: 0 <= i < |s| ==> s[i] as int < 0x80) ==> |r| == |s|
  {
    if s == [] then [] else Utf8Char(s[0]) + Utf8(s[1..])
  }

  /** The length of the sequence a UTF-8 lead byte starts. */
  function Utf8Width(lead: byte): (w: nat)
    ensures 1 <= w <= 4
  {
    if lead < 0x80 then 1 else if lead < 0xE0 then 2 else if lead < 0xF0 then 3 else 4
  }

  /** The scalar value one to four UTF-8 bytes carry. */
  function Utf8Scalar(bs: seq<byte>): int
    requires 1 <= |bs| <= 4
  {
    var b := seq(|bs|, i requires 0 <= i < |bs| => bs[i] as int);
    if |b| == 1 then b[0]
    else if |b| == 2 then (b[0] - 0xC0) * 0x40 + (b[1] - 0x80)
    else if |b| == 3 then (b[0] - 0xE0) * 0x1000 + (b[1] - 0x80) * 0x40 + (b[2] - 0x80)
    else (b[0] - 0xF0) * 0x40000 + (b[1] - 0x80) * 0x1000 + (b[2] - 0x80) * 0x40 + (b[3] - 0x80)
  }

  predicate IsScalar(n: int)
  {
    0 <= n < 0xD800 || 0xE000 <= n < 0x11_0000
  }

  /** `bytes.decode("utf-8")` on well-formed input; a malformed sequence is dropped. */
  function Utf8Decode(bs: seq<byte>): string
    decreases |bs|
  {
    if bs == [] then []
    else
      var w := Utf8Width(bs[0]);
      if |bs| < w then []
      else
        var n := Utf8Scalar(bs[..w]);
        (if IsScalar(n) then [n as char] else []) + Utf8Decode(bs[w..])
  }

  /** The lead byte of a character's encoding announces its length, and the
      bytes carry the character's scalar value. */
  lemma Utf8CharDecodes(c: char)
    ensures Utf8Width(Utf8Char(c)[0]) == |Utf8Char(c)|
    ensures Utf8Scalar(Utf8Char(c)) == c as int
  {
    var n := c as int;
    var q1 := n / 0x40;
    var q2 := q1 / 0x40;
    assert n == 0x40 * q1 + n % 0x40;
    assert q1 == 0x40 * q2 + q1 % 0x40;
    if n >= 0x10000 {
      assert q2 == 0x40 * (q2 / 0x40) + q2 % 0x40;
    }
  }

  /** Decoding the UTF-8 encoding of a text gives the text back, so the bytes
      `_hash_text` digests determine the text. */
  lemma {:induction false} Utf8Decodes(s: string)
    ensures Utf8Decode(Utf8(s)) == s
  {
    if s != [] {
      var e := Utf8Char(s[0]);
      var bs := Utf8(s);
      assert bs == e + Utf8(s[1..]);
      Utf8CharDecodes(s[0]);
      assert bs[0] == e[0];
      assert bs[..|e|] == e;
      assert bs[|e|..] == Utf8(s[1..]);
      Utf8Decodes(s[1..]);
      assert (s[0] as int) as char == s[0];
    }
  }

  // ---------------------------------------------------------------------------
  // str.strip()
  // ---------------------------------------------------------------------------

  /** The characters for which Python's `str.isspace()` holds. */
  predicate IsSpace(c: char)
  {
    c in {'\t', '\n', '\U{0B}', '\U{0C}', '\r', '\U{1C}', '\U{1D}', '\U{1E}', '\U{1F}', ' ',
          '\U{85}', '\U{A0}', '\U{1680}', '\U{2028}', '\U{2029}', '\U{202F}', '\U{205F}', '\U{3000}'}
    || ('\U{2000}' <= c <= '\U{200A}')
  }

  predicate AllSpace(s: string)
  {
    forall i :: 0 <= i < |s| ==> IsSpace(s[i])
  }

  /** The number of whitespace characters at the start of `s`. */
  function LeadingSpaces(s: string): (n: nat)
    ensures n <= |s|
    ensures AllSpace(s[..n])
    ensures n < |s| ==> !IsSpace(s[n])
  {
    if s == [] || !IsSpace(s[0]) then 0 else 1 + LeadingSpaces(s[1..])
  }

  /** The number of whitespace characters at the end of `s`. */
  function TrailingSpaces(s: string): (n: nat)
    ensures n <= |s|
    ensures AllSpace(s[|s| - n..])
    ensures n < |s| ==> !IsSpace(s[|s| - n - 1])
  {
    if s == [] || !IsSpace(s[|s| - 1]) then 0 else 1 + TrailingSpaces(s[..|s| - 1])
  }

  /** `r` is the slice of `s` starting at `a`, with only whitespace around it. */
  predicate StrippedAt(s: string, r: string, a: nat)
  {
    a + |r| <= |s| && r == s[a..a + |r|] && AllSpace(s[..a]) && AllSpace(s[a + |r|..])
  }

  /** `s.strip()`: the longest slice of `s` neither starting nor ending in whitespace. */
  function Strip(s: string): (r: string)
    ensures r == [] || (!IsSpace(r[0]) && !IsSpace(r[|r| - 1]))
    ensures StrippedAt(s, r, LeadingSpaces(s))
    ensures r == [] <==> AllSpace(s)
  {
    var a := LeadingSpaces(s);
    var t := s[a..];
    var b := TrailingSpaces(t);
    assert AllSpace(t[|t| - b..]);
    assert s[a + (|t| - b)..] == t[|t| - b..];
    assert AllSpace(s) ==> a == |s|;
    t[..|t| - b]
  }

  lemma {:induction false} StripIdempotent(s: string)
    ensures Strip(Strip(s)) == Strip(s)
  {
    var r := Strip(s);
    if r != [] {
      assert LeadingSpaces(r) == 0;
      assert TrailingSpaces(r) == 0;
      assert r[0..] == r;
    }
  }

  // ---------------------------------------------------------------------------
  // Text-mode reading
  // ---------------------------------------------------------------------------

  /** What a file opened with `open(path, "r")` reads back: universal-newline
      mode turns every "\r\n" and every lone "\r" into "\n". */
  function TranslateNewlines(s: string): (r: string)
    ensures '\r' !in r
    ensures '\r' !in s ==> r == s
    ensures |r| <= |s|
  {
    if s == [] then []
    else if s[0] == '\r' then
      "\n" + TranslateNewlines(if |s| > 1 && s[1] == '\n' then s[2..] else s[1..])
    else
      assert '\r' !in s ==> '\r' !in s[1..];
      [s[0]] + TranslateNewlines(s[1..])
  }

  // ---------------------------------------------------------------------------
  // str(int)
  // ---------------------------------------------------------------------------

  function DigitChar(d: nat): (c: char)
    requires d < 10
    ensures '0' <= c <= '9'
  {
    "0123456789"[d]
  }

  /** The decimal digits of `n`, most significant first, without leading zeros. */
  function NatToString(n: nat): (r: string)
    ensures |r| >= 1
    ensures forall i :: 0 <= i < |r| ==> '0' <= r[i] <= '9'
    ensures r[0] == '0' ==> n == 0
  {
    if n < 10 then [DigitChar(n)] else NatToString(n / 10) + [DigitChar(n % 10)]
  }

  /** `str(n)` for a Python int. */
  function IntToString(n: int): (r: string)
    ensures |r| >= 1
    ensures n < 0 <==> r[0] == '-'
  {
    if n < 0 then "-" + NatToString(-n) else NatToString(n)
  }
}
