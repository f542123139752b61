/**
 * The Foundation text services the colour helpers of ThemeManager.swift and
 * SettingsView.swift call into: character sets, `trimmingCharacters(in:)`,
 * and `Scanner.scanHexInt64`, together with the hexadecimal digits that
 * `String(format: "%02X")` prints.
 */
module HexText {
  import opened Wrappers

  /** One colour channel, 0 ... 255. */
  type Byte = x: int | 0 <= x < 256

  /** `UInt64.max`, where `scanHexInt64` saturates on overflow. */
  const UInt64Max: nat := 0xFFFF_FFFF_FFFF_FFFF

  // ---------------------------------------------------------------------
  // Character sets

  /** `CharacterSet.whitespacesAndNewlines`: Unicode general category Z*,
      U+0009 ... U+000D and U+0085. */
  predicate IsWhitespaceOrNewline(c: char) {
    || c == ' ' || '\t' <= c <= '\r' || c == '\U{85}' || c == '\U{A0}'
    || c == '\U{1680}' || '\U{2000}' <= c <= '\U{200A}' || c == '\U{2028}'
    || c == '\U{2029}' || c == '\U{202F}' || c == '\U{205F}' || c == '\U{3000}'
  }

  /** `CharacterSet.alphanumerics`, restricted to ASCII letters and digits. */
  predicate IsAlphanumeric(c: char) {
    '0' <= c <= '9' || 'a' <= c <= 'z' || 'A' <= c <= 'Z'
  }

  /** `CharacterSet.alphanumerics.inverted`. */
  predicate IsNotAlphanumeric(c: char) {
    !IsAlphanumeric(c)
  }

  predicate IsHexDigit(c: char) {
    '0' <= c <= '9' || 'a' <= c <= 'f' || 'A' <= c <= 'F'
  }

  /** A digit as `%X` prints it: a decimal digit or an upper-case letter. */
  predicate IsUpperHexDigit(c: char) {
    '0' <= c <= '9' || 'A' <= c <= 'F'
  }

  predicate AllHex(s: string) {
    forall i :: 0 <= i < |s| ==> IsHexDigit(s[i])
  }

  predicate AllUpperHex(s: string) {
    forall i :: 0 <= i < |s| ==> IsUpperHexDigit(s[i])
  }

  /** The shape `String(format: "#%02X%02X%02X", r, g, b)` prints for three bytes. */
  predicate IsHexColorLiteral(s: string) {
    |s| == 7 && s[0] == '#' && AllUpperHex(s[1..])
  }

  // ---------------------------------------------------------------------
  // Trimming

  /** The length of the longest prefix of `s` whose characters all satisfy `p`. */
  function LeadingCount(s: string, p: char -> bool): (n: nat)
    ensures n <= |s|
    ensures forall i :: 0 <= i < n ==> p(s[i])
    ensures n < |s| ==> !p(s[n])
  {
    if s == [] || !p(s[0]) then 0 else 1 + LeadingCount(s[1..], p)
  }

  /** The length of the longest suffix of `s` whose characters all satisfy `p`. */
  function TrailingCount(s: string, p: char -> bool): (n: nat)
    ensures n <= |s|
    ensures forall i :: |s| - n <= i < |s| ==> p(s[i])
    ensures n < |s| ==> !p(s[|s| - 1 - n])
  {
    if s == [] || !p(s[|s| - 1]) then 0 else 1 + TrailingCount(s[..|s| - 1], p)
  }

  /** `s.trimmingCharacters(in: p)`: drops the characters in `p` from both ends. */
  function Trimmed(s: string, p: char -> bool): (r: string)
    ensures LeadingCount(s, p) + |r| <= |s|
    ensures r == s[LeadingCount(s, p)..LeadingCount(s, p) + |r|]
    ensures r != [] ==> !p(r[0]) && !p(r[|r| - 1])
    ensures forall i :: LeadingCount(s, p) + |r| <= i < |s| ==> p(s[i])
    ensures r == [] ==> forall i :: 0 <= i < |s| ==> p(s[i])
  {
    var i := LeadingCount(s, p);
    if i == |s| then [] else s[i..|s| - TrailingCount(s, p)]
  }

  /** Trimming leaves a string alone whose two ends are outside the set. */
  lemma TrimmedUnchanged(s: string, p: char -> bool)
    requires s != [] && !p(s[0]) && !p(s[|s| - 1])
    ensures Trimmed(s, p) == s
  {
    assert LeadingCount(s, p) == 0;
    assert TrailingCount(s, p) == 0;
  }

  // ---------------------------------------------------------------------
  // Hexadecimal digits and numerals

  function HexDigitValue(c: char): (d: nat)
    requires IsHexDigit(c)
    ensures d < 16
    ensures ('0' <= c <= '9') == (d < 10)
  {
    if '0' <= c <= '9' then c as int - '0' as int
    else if 'a' <= c <= 'f' then c as int - 'a' as int + 10
    else c as int - 'A' as int + 10
  }

  /** The digit `%X` prints for `d`. */
  function UpperHexDigit(d: nat): (c: char)
    requires d < 16
    ensures IsUpperHexDigit(c) && IsHexDigit(c)
    ensures HexDigitValue(c) == d
  {
    if d < 10 then ('0' as int + d) as char else ('A' as int + d - 10) as char
  }

  function Pow16(n: nat): (p: nat)
    ensures p >= 1
  {
    if n == 0 then 1 else 16 * Pow16(n - 1)
  }

  /** The number a string of hex digits denotes, most significant digit first. */
  function HexValue(digits: string): (v: nat)
    requires AllHex(digits)
    ensures v < Pow16(|digits|)
  {
    if digits == [] then 0
    else HexValue(digits[..|digits| - 1]) * 16 + HexDigitValue(digits[|digits| - 1])
  }

  /** Reading `a + b` reads `a`, shifted left by the digits of `b`, then `b`. */
  lemma {:induction false} HexValueAppend(a: string, b: string)
    requires AllHex(a) && AllHex(b)
    ensures AllHex(a + b)
    ensures HexValue(a + b) == HexValue(a) * Pow16(|b|) + HexValue(b)
  {
    if b == [] {
      assert a + b == a;
    } else {
      var b' := b[..|b| - 1];
      assert (a + b)[..|a + b| - 1] == a + b';
      HexValueAppend(a, b');
      assert AllHex(a + b') by { assert a + b' == (a + b)[..|a + b| - 1]; }
      var x, y, p, d := HexValue(a), HexValue(b'), Pow16(|b'|), HexDigitValue(b[|b| - 1]);
      assert HexValue(a + b) == HexValue(a + b') * 16 + d;
      assert HexValue(b) == y * 16 + d;
      assert Pow16(|b|) == 16 * p;
      ShiftDigit(x, p, y, d);
    }
  }

  lemma ShiftDigit(x: int, p: int, y: int, d: int)
    ensures (x * p + y) * 16 + d == x * (16 * p) + (y * 16 + d)
  {
  }

  /** `String(format: "%02X", x)` for a byte: two upper-case digits that read back as `x`. */
  function Hex2(x: Byte): (s: string)
    ensures |s| == 2 && AllUpperHex(s) && AllHex(s)
    ensures HexValue(s) == x
  {
    var s := [UpperHexDigit(x / 16), UpperHexDigit(x % 16)];
    assert s[..1][..0] == [];
    s
  }

  /** `(v >> shift) & 0xFF`. */
  function ByteAt(v: nat, shift: nat): Byte
    requires shift in {0, 8, 16, 24}
  {
    var p := if shift == 0 then 1 else if shift == 8 then 0x100 else if shift == 16 then 0x1_0000 else 0x100_0000;
    (v / p) % 256
  }

  // ---------------------------------------------------------------------
  // Scanner.scanHexInt64

  /** Where the scanner starts reading digits: past the leading whitespace it
      skips by default, and past a `0x` or `0X` that a hex digit follows. */
  function DigitsStart(s: string): (k: nat)
    ensures k <= |s|
    ensures LeadingCount(s, IsWhitespaceOrNewline) <= k
  {
    var w := LeadingCount(s, IsWhitespaceOrNewline);
    if w + 2 < |s| && s[w] == '0' && (s[w + 1] == 'x' || s[w + 1] == 'X') && IsHexDigit(s[w + 2])
    then w + 2 else w
  }

  /** `v`, or `UInt64.max` when `v` does not fit in 64 bits. */
  function Saturated(v: nat): (r: nat)
    ensures r <= UInt64Max
    ensures v <= UInt64Max ==> r == v
    ensures UInt64Max < v ==> r == UInt64Max
  {
    if v > UInt64Max then UInt64Max else v
  }

  /** `Scanner(string: s).scanHexInt64(&value)`: `None` when it returns false
      (and leaves `value` alone), otherwise the value it stores, which
      saturates at `UInt64.max`. */
  function ScanHexInt64(s: string): (r: Option<nat>)
    ensures r.Some? ==> r.value <= UInt64Max
    ensures var w := LeadingCount(s, IsWhitespaceOrNewline);
            r.None? <==> w == |s| || !IsHexDigit(s[w])
  {
    var k := DigitsStart(s);
    var n := LeadingCount(s[k..], IsHexDigit);
    if n == 0 then None
    else
      Some(Saturated(HexValue(s[k..][..n])))
  }

  /** A string made of at most sixteen hex digits alone scans as the number
      it spells. */
  lemma ScanAllHex(s: string)
    requires s != [] && AllHex(s) && |s| <= 16
    ensures ScanHexInt64(s) == Some(HexValue(s))
  {
    assert LeadingCount(s, IsWhitespaceOrNewline) == 0;
    assert DigitsStart(s) == 0;
    assert s[0..] == s;
    assert LeadingCount(s, IsHexDigit) == |s|;
    assert s[..|s|] == s;
    Pow16Bound(|s|);
  }

  /** Leading whitespace is skipped before the digits are read. */
  lemma ScanAfterWhitespace(w: string, d: string)
    requires forall i :: 0 <= i < |w| ==> IsWhitespaceOrNewline(w[i])
    requires d != [] && AllHex(d) && |d| <= 16
    ensures ScanHexInt64(w + d) == Some(HexValue(d))
  {
    var s := w + d;
    LeadingCountPrefix(w, d, IsWhitespaceOrNewline);
    assert s[|w|..] == d;
    assert DigitsStart(s) == |w|;
    LeadingCountPrefix(d, [], IsHexDigit);
    assert d + [] == d && d[..|d|] == d;
    Pow16Bound(|d|);
  }

  /** After the skipped whitespace the scanner reads the whole run of hex
      digits `d` and stops at the first other character, saturating when the
      run is worth more than `UInt64.max`. (A lone `0` before `x` or `X` and a
      hex digit would instead be read as a `0x` prefix.) */
  lemma ScanReadsRun(w: string, d: string, rest: string)
    requires forall i :: 0 <= i < |w| ==> IsWhitespaceOrNewline(w[i])
    requires d != [] && AllHex(d)
    requires rest == [] || !IsHexDigit(rest[0])
    requires !(d == "0" && |rest| >= 2 && (rest[0] == 'x' || rest[0] == 'X') && IsHexDigit(rest[1]))
    ensures ScanHexInt64(w + d + rest) == Some(Saturated(HexValue(d)))
  {
    var s := w + d + rest;
    assert s == w + (d + rest);
    LeadingCountPrefix(w, d + rest, IsWhitespaceOrNewline);
    assert s[|w|..] == d + rest;
    if |d| >= 2 {
      assert s[|w| + 1] == d[1];
    } else if |s| > |w| + 2 {
      assert s[|w| + 1] == rest[0] && s[|w| + 2] == rest[1];
    }
    ScanFrom(s, |w|, d, rest);
  }

  /** Once the digits start at `k`, the scanner reads the run `d` in front of `rest`. */
  lemma ScanFrom(s: string, k: nat, d: string, rest: string)
    requires DigitsStart(s) == k && k <= |s| && s[k..] == d + rest
    requires d != [] && AllHex(d)
    requires rest == [] || !IsHexDigit(rest[0])
    ensures ScanHexInt64(s) == Some(Saturated(HexValue(d)))
  {
    LeadingCountPrefix(d, rest, IsHexDigit);
    assert (d + rest)[..|d|] == d;
  }

  /** A run of at most sixteen hex digits is read exactly, whatever follows it
      (except a lone `0` before `x` or `X` and a hex digit, which is a prefix). */
  lemma ScanStopsAtNonHex(w: string, d: string, rest: string)
    requires forall i :: 0 <= i < |w| ==> IsWhitespaceOrNewline(w[i])
    requires d != [] && AllHex(d) && |d| <= 16
    requires rest == [] || !IsHexDigit(rest[0])
    requires !(d == "0" && |rest| >= 2 && (rest[0] == 'x' || rest[0] == 'X') && IsHexDigit(rest[1]))
    ensures ScanHexInt64(w + d + rest) == Some(HexValue(d))
  {
    ScanReadsRun(w, d, rest);
    Pow16Bound(|d|);
  }

  /** A `0x` or `0X` before the digits is skipped. */
  lemma ScanAfterPrefix(w: string, x: char, d: string, rest: string)
    requires forall i :: 0 <= i < |w| ==> IsWhitespaceOrNewline(w[i])
    requires x == 'x' || x == 'X'
    requires d != [] && AllHex(d)
    requires rest == [] || !IsHexDigit(rest[0])
    ensures ScanHexInt64(w + ['0', x] + d + rest) == Some(Saturated(HexValue(d)))
  {
    var tail := ['0', x] + d + rest;
    var s := w + tail;
    assert w + ['0', x] + d + rest == s;
    LeadingCountPrefix(w, tail, IsWhitespaceOrNewline);
    assert s[|w|..] == tail;
    assert tail[0] == '0' && tail[1] == x && tail[2] == d[0];
    assert DigitsStart(s) == |w| + 2;
    assert s[|w| + 2..] == d + rest by {
      assert s[|w| + 2..] == tail[2..];
      assert tail[2..] == d + rest;
    }
    ScanFrom(s, |w| + 2, d, rest);
  }

  /** Seventeen `F`s are worth more than `UInt64.max`, and read as `UInt64.max`. */
  lemma ScanSaturates(d: string)
    requires |d| == 17 && forall i :: 0 <= i < |d| ==> d[i] == 'F'
    ensures ScanHexInt64(d) == Some(UInt64Max)
  {
    assert AllHex(d);
    ScanReadsRun([], d, []);
    assert [] + d + [] == d;
    HexValueAppend(d[..1], d[1..]);
    assert d[..1] + d[1..] == d;
    assert HexValue(d[..1]) == 15 by { assert d[..1][..0] == []; }
    Pow16Sixteen();
  }

  /** The run of `p` at the front of `w + d` is `w` when `d` starts outside `p`
      (or is empty). */
  lemma LeadingCountPrefix(w: string, d: string, p: char -> bool)
    requires forall i :: 0 <= i < |w| ==> p(w[i])
    requires d == [] || !p(d[0])
    ensures LeadingCount(w + d, p) == |w|
  {
    var s := w + d;
    assert forall i :: 0 <= i < |w| ==> s[i] == w[i];
    if d != [] {
      assert s[|w|] == d[0];
    }
  }

  lemma Pow16Bound(n: nat)
    requires n <= 16
    ensures Pow16(n) <= UInt64Max + 1
  {
    Pow16Monotone(n, 16);
    Pow16Sixteen();
  }

  /** Sixteen hex digits span exactly the 64-bit range. */
  lemma Pow16Sixteen()
    ensures Pow16(16) == UInt64Max + 1
  {
    assert Pow16(0) == 1;
    assert Pow16(1) == 0x10;
    assert Pow16(2) == 0x100;
    assert Pow16(3) == 0x1000;
    assert Pow16(4) == 0x1_0000;
    assert Pow16(5) == 0x10_0000;
    assert Pow16(6) == 0x100_0000;
    assert Pow16(7) == 0x1000_0000;
    assert Pow16(8) == 0x1_0000_0000;
    assert Pow16(9) == 0x10_0000_0000;
    assert Pow16(10) == 0x100_0000_0000;
    assert Pow16(11) == 0x1000_0000_0000;
    assert Pow16(12) == 0x1_0000_0000_0000;
    assert Pow16(13) == 0x10_0000_0000_0000;
    assert Pow16(14) == 0x100_0000_0000_0000;
    assert Pow16(15) == 0x1000_0000_0000_0000;
  }

  lemma {:induction false} Pow16Monotone(m: nat, n: nat)
    requires m <= n
    ensures Pow16(m) <= Pow16(n)
  {
    if m < n { Pow16Monotone(m, n - 1); }
  }
}
