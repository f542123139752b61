/**
 * Models NotchFlow/Sources/Models/ThemeManager.swift: the font choices, the
 * accent palette, the two stored preferences of `ThemeManager` and the
 * `color(from:)` hex parser.
 */
module Theme {
  import opened Wrappers
  import opened HexText

  // ---------------------------------------------------------------------
  // FontChoice

  datatype FontDesign = RoundedDesign | MonospacedDesign | SerifDesign | DefaultDesign

  datatype FontChoice = Rounded | Mono | Serif | Classic {

    /** The enum's `String` raw value. */
    function RawValue(): string {
      match this
      case Rounded => "rounded"
      case Mono => "mono"
      case Serif => "serif"
      case Classic => "classic"
    }

    function Design(): FontDesign {
      match this
      case Rounded => RoundedDesign
      case Mono => MonospacedDesign
      case Serif => SerifDesign
      case Classic => DefaultDesign
    }

    function DisplayName(): string {
      match this
      case Rounded => "Rounded"
      case Mono => "Monospaced"
      case Serif => "Serif"
      case Classic => "Classic"
    }
  }

  /** `FontChoice.allCases`, in declaration order. */
  const AllFontChoices: seq<FontChoice> := [Rounded, Mono, Serif, Classic]

  /** `FontChoice(rawValue:)`: the case whose raw value is `raw`, if any. */
  function FontChoiceFromRaw(raw: string): (c: Option<FontChoice>)
    ensures c.Some? ==> c.value.RawValue() == raw
    ensures c.None? ==> forall k: FontChoice :: k.RawValue() != raw
  {
    if raw == "rounded" then Some(Rounded)
    else if raw == "mono" then Some(Mono)
    else if raw == "serif" then Some(Serif)
    else if raw == "classic" then Some(Classic)
    else None
  }

  /** Every case is listed once, and the raw values, designs and display names
      tell the cases apart, so reading a raw value back gives the case. */
  lemma FontChoiceTables(c: FontChoice, d: FontChoice)
    ensures c in AllFontChoices && |AllFontChoices| == 4
    ensures FontChoiceFromRaw(c.RawValue()) == Some(c)
    ensures c != d ==> c.RawValue() != d.RawValue()
    ensures c != d ==> c.Design() != d.Design() && c.DisplayName() != d.DisplayName()
  {
  }

  // ---------------------------------------------------------------------
  // Colour and the hex parser

  /** A SwiftUI colour as the parsers build it: either the system
      `.accentColor` fallback, or sRGB channels and opacity as bytes
      (the source divides each by 255; opacity 1.0 is 255). */
  datatype Color = AccentColor | Srgb(red: Byte, green: Byte, blue: Byte, opacity: Byte)

  /** The string `color(from:)` scans: whitespace trimmed, one leading `#` removed. */
  function Sanitised(hex: string): (s: string)
    ensures var t := Trimmed(hex, IsWhitespaceOrNewline);
            (|s| == |t| || |s| == |t| - 1) && s == t[|t| - |s|..]
    ensures var t := Trimmed(hex, IsWhitespaceOrNewline);
            |s| == |t| - 1 <==> t != [] && t[0] == '#'
    ensures s != [] ==> !IsWhitespaceOrNewline(s[|s| - 1])
  {
    var t := Trimmed(hex, IsWhitespaceOrNewline);
    if |t| > 0 && t[0] == '#' then t[1..] else t
  }

  /** `ThemeManager.color(from:)`. */
  function ColorFrom(hex: string): (c: Color)
    ensures var s := Sanitised(hex);
            c.AccentColor? <==> (|s| != 6 && |s| != 8) || ScanHexInt64(s).None?
    ensures c.Srgb? && |Sanitised(hex)| == 6 ==> c.opacity == 255
  {
    var s := Sanitised(hex);
    if |s| != 6 && |s| != 8 then AccentColor
    else
      match ScanHexInt64(s)
      case None => AccentColor
      case Some(v) =>
        if |s| == 6 then Srgb(ByteAt(v, 16), ByteAt(v, 8), ByteAt(v, 0), 255)
        else Srgb(ByteAt(v, 24), ByteAt(v, 16), ByteAt(v, 8), ByteAt(v, 0))
  }

  /** Unpacking three bytes packed most significant first. */
  lemma UnpackRgb(v: nat, x: Byte, y: Byte, z: Byte)
    requires v == x * 0x1_0000 + y * 0x100 + z
    ensures ByteAt(v, 16) == x && ByteAt(v, 8) == y && ByteAt(v, 0) == z
  {
    var u := x * 0x100 + y;
    assert v / 0x100 == u && v % 0x100 == z by {
      assert v == u * 0x100 + z;
    }
    assert v / 0x1_0000 == x && u % 0x100 == y by {
      assert v == x * 0x1_0000 + (y * 0x100 + z);
    }
  }

  /** Unpacking four bytes packed most significant first. */
  lemma UnpackRgba(v: nat, x: Byte, y: Byte, z: Byte, w: Byte)
    requires v == x * 0x100_0000 + y * 0x1_0000 + z * 0x100 + w
    ensures ByteAt(v, 24) == x && ByteAt(v, 16) == y && ByteAt(v, 8) == z && ByteAt(v, 0) == w
  {
    var u := x * 0x1_0000 + y * 0x100 + z;
    assert v / 0x100_0000 == x by {
      assert v == x * 0x100_0000 + (y * 0x1_0000 + z * 0x100 + w);
    }
    assert v / 0x100 == u && v % 0x100 == w by {
      assert v == u * 0x100 + w;
    }
    assert v / 0x1_0000 == u / 0x100 by {
      assert v == (x * 0x100 + y) * 0x1_0000 + (z * 0x100 + w);
      assert u == (x * 0x100 + y) * 0x100 + z;
    }
    UnpackRgb(u, x, y, z);
  }

  /** Six hex digits, with or without a `#`, are read as RRGGBB at full opacity. */
  lemma ColorFromRgb(hex: string, digits: string)
    requires |digits| == 6 && AllHex(digits)
    requires hex == digits || hex == "#" + digits
    ensures ColorFrom(hex) ==
      Srgb(HexValue(digits[..2]), HexValue(digits[2..4]), HexValue(digits[4..]), 255)
  {
    var v := ScannedDigits(hex, digits);
    RgbPairs(digits);
  }

  /** Eight hex digits, with or without a `#`, are read as RRGGBBAA. */
  lemma ColorFromRgba(hex: string, digits: string)
    requires |digits| == 8 && AllHex(digits)
    requires hex == digits || hex == "#" + digits
    ensures ColorFrom(hex) ==
      Srgb(HexValue(digits[..2]), HexValue(digits[2..4]), HexValue(digits[4..6]), HexValue(digits[6..]))
  {
    var v := ScannedDigits(hex, digits);
    RgbaPairs(digits);
  }

  /** The bytes of a six-digit numeral are its digit pairs. */
  lemma RgbPairs(digits: string)
    requires |digits| == 6 && AllHex(digits)
    ensures var v := HexValue(digits);
            && ByteAt(v, 16) == HexValue(digits[..2])
            && ByteAt(v, 8) == HexValue(digits[2..4])
            && ByteAt(v, 0) == HexValue(digits[4..])
  {
    var r, g, b := digits[..2], digits[2..4], digits[4..];
    assert AllHex(r) && AllHex(g) && AllHex(b);
    PackedRgb(r, g, b);
    assert r + g + b == digits;
    UnpackRgb(HexValue(digits), HexValue(r), HexValue(g), HexValue(b));
  }

  lemma PackedRgb(r: string, g: string, b: string)
    requires |r| == |g| == |b| == 2
    requires AllHex(r) && AllHex(g) && AllHex(b)
    ensures AllHex(r + g + b)
    ensures HexValue(r + g + b) == HexValue(r) * 0x1_0000 + HexValue(g) * 0x100 + HexValue(b)
  {
    var x, y, z := HexValue(r), HexValue(g), HexValue(b);
    assert Pow16(2) == 0x100;
    HexValueAppend(r, g);
    var rg := x * 0x100 + y;
    assert HexValue(r + g) == rg;
    HexValueAppend(r + g, b);
    assert HexValue(r + g + b) == rg * 0x100 + z;
  }

  /** The bytes of an eight-digit numeral are its digit pairs. */
  lemma RgbaPairs(digits: string)
    requires |digits| == 8 && AllHex(digits)
    ensures var v := HexValue(digits);
            && ByteAt(v, 24) == HexValue(digits[..2])
            && ByteAt(v, 16) == HexValue(digits[2..4])
            && ByteAt(v, 8) == HexValue(digits[4..6])
            && ByteAt(v, 0) == HexValue(digits[6..])
  {
    var r, g, b, a := digits[..2], digits[2..4], digits[4..6], digits[6..];
    assert AllHex(r) && AllHex(g) && AllHex(b) && AllHex(a);
    PackedRgba(r, g, b, a);
    assert r + g + b + a == digits;
    UnpackRgba(HexValue(digits), HexValue(r), HexValue(g), HexValue(b), HexValue(a));
  }

  lemma PackedRgba(r: string, g: string, b: string, a: string)
    requires |r| == |g| == |b| == |a| == 2
    requires AllHex(r) && AllHex(g) && AllHex(b) && AllHex(a)
    ensures AllHex(r + g + b + a)
    ensures HexValue(r + g + b + a) ==
      HexValue(r) * 0x100_0000 + HexValue(g) * 0x1_0000 + HexValue(b) * 0x100 + HexValue(a)
  {
    var x, y, z, w := HexValue(r), HexValue(g), HexValue(b), HexValue(a);
    assert Pow16(2) == 0x100;
    HexValueAppend(r, g);
    var rg := x * 0x100 + y;
    assert HexValue(r + g) == rg;
    HexValueAppend(r + g, b);
    var rgb := rg * 0x100 + z;
    assert HexValue(r + g + b) == rgb;
    HexValueAppend(r + g + b, a);
    assert HexValue(r + g + b + a) == rgb * 0x100 + w;
  }

  /** Six or eight hex digits pass both guards, and the scanner reads them all. */
  lemma ScannedDigits(hex: string, digits: string) returns (v: nat)
    requires (|digits| == 6 || |digits| == 8) && AllHex(digits)
    requires hex == digits || hex == "#" + digits
    ensures v == HexValue(digits)
    ensures |digits| == 6 ==> ColorFrom(hex) == Srgb(ByteAt(v, 16), ByteAt(v, 8), ByteAt(v, 0), 255)
    ensures |digits| == 8 ==> ColorFrom(hex) == Srgb(ByteAt(v, 24), ByteAt(v, 16), ByteAt(v, 8), ByteAt(v, 0))
  {
    SanitisedDigits(hex, digits);
    ScanAllHex(digits);
    v := HexValue(digits);
  }

  lemma SanitisedDigits(hex: string, digits: string)
    requires |digits| > 0 && AllHex(digits)
    requires hex == digits || hex == "#" + digits
    ensures Sanitised(hex) == digits
  {
    TrimmedUnchanged(hex, IsWhitespaceOrNewline);
    if hex != digits {
      assert hex[1..] == digits;
    }
  }

  /** The length guard alone does not check the digits: `12ZZ56` is accepted,
      the scanner stops at `Z`, and the colour is 0x000012. */
  lemma ColorFromStopsAtNonHex()
    ensures ColorFrom("12ZZ56") == Srgb(0, 0, 0x12, 255)
  {
    TrimmedUnchanged("12ZZ56", IsWhitespaceOrNewline);
    assert Sanitised("12ZZ56") == "12ZZ56";
    DigitsThenLettersScan();
    UnpackRgb(0x12, 0, 0, 0x12);
  }

  lemma DigitsThenLettersScan()
    ensures ScanHexInt64("12ZZ56") == Some(0x12)
  {
    assert "12ZZ56" == [] + "12" + "ZZ56";
    assert AllHex("12") && HexValue("12") == 0x12 by { assert "12"[..1] == "1" && "1"[..0] == []; }
    ScanStopsAtNonHex([], "12", "ZZ56");
  }

  /** The scanner skips whitespace that the trim left behind the `#`:
      `# 12345` passes the length guard as ` 12345` and reads 0x012345. */
  lemma ColorFromSpaceAfterHash()
    ensures ColorFrom("# 12345") == Srgb(0x01, 0x23, 0x45, 255)
  {
    TrimmedUnchanged("# 12345", IsWhitespaceOrNewline);
    assert Sanitised("# 12345") == " 12345";
    SpaceThenDigitsScan();
    UnpackRgb(0x12345, 0x01, 0x23, 0x45);
  }

  lemma SpaceThenDigitsScan()
    ensures ScanHexInt64(" 12345") == Some(0x12345)
  {
    assert " 12345" == " " + "12345";
    assert AllHex("12345") && HexValue("12345") == 0x12345 by {
      assert "1"[..0] == [] && "12"[..1] == "1" && "123"[..2] == "12";
      assert "1234"[..3] == "123" && "12345"[..4] == "1234";
    }
    ScanAfterWhitespace(" ", "12345");
  }

  /** Any input whose sanitised length is neither 6 nor 8 gives the fallback. */
  lemma ColorFromWrongLength(hex: string)
    requires |Sanitised(hex)| != 6 && |Sanitised(hex)| != 8
    ensures ColorFrom(hex) == AccentColor
  {
  }

  // ---------------------------------------------------------------------
  // Palette

  datatype AccentOption = AccentOption(id: string, name: string, hex: string) {
    /** `AccentOption.color`: a `#RRGGBB` hex gives an opaque sRGB colour made
        of its digit pairs, never the fallback. */
    function ToColor(): (c: Color)
      ensures IsHexColorLiteral(hex) ==>
                && AllHex(hex[1..])
                && c == Srgb(HexValue(hex[1..3]), HexValue(hex[3..5]), HexValue(hex[5..]), 255)
    {
      if IsHexColorLiteral(hex) then
        ColorFromHexLiteral(hex);
        ColorFrom(hex)
      else ColorFrom(hex)
    }
  }

  /** The accent stored when nothing else has been chosen. */
  const DefaultAccentHex: string := "#007AFF"

  /** `AccentOption.palette`. */
  const Palette: seq<AccentOption> := [
    AccentOption("#007AFF", "Electric Blue", "#007AFF"),
    AccentOption("#AF52DE", "Violet", "#AF52DE"),
    AccentOption("#FF6B6B", "Coral", "#FF6B6B"),
    AccentOption("#34C759", "Emerald", "#34C759"),
    AccentOption("#FF9F0A", "Sunset Orange", "#FF9F0A"),
    AccentOption("#FF2D55", "Hot Pink", "#FF2D55"),
    AccentOption("#5AC8FA", "Cyan", "#5AC8FA"),
    AccentOption("#FFD60A", "Gold", "#FFD60A")
  ]

  /** Eight presets, each identified by its own hex, each hex a `#RRGGBB`
      literal, no two alike, and the default first. */
  lemma PaletteWellFormed()
    ensures |Palette| == 8 && Palette[0].hex == DefaultAccentHex
    ensures forall i :: 0 <= i < |Palette| ==> Palette[i].id == Palette[i].hex
    ensures forall i :: 0 <= i < |Palette| ==> IsHexColorLiteral(Palette[i].hex)
    ensures forall i, j :: 0 <= i < j < |Palette| ==> Palette[i].hex != Palette[j].hex
  {
  }

  /** A `#RRGGBB` literal, as the formatter prints and the palette holds,
      parses to its three digit pairs at full opacity. */
  lemma ColorFromHexLiteral(h: string)
    requires IsHexColorLiteral(h)
    ensures AllHex(h[1..])
    ensures ColorFrom(h) == Srgb(HexValue(h[1..3]), HexValue(h[3..5]), HexValue(h[5..]), 255)
  {
    var d := h[1..];
    assert h == "#" + d;
    assert d[..2] == h[1..3] && d[2..4] == h[3..5] && d[4..] == h[5..];
    ColorFromRgb(h, d);
  }

  /** Every preset parses to an opaque colour whose channels are its digit pairs. */
  lemma PaletteColors(i: nat)
    requires i < |Palette|
    ensures var h := Palette[i].hex;
            AllHex(h[1..]) &&
            Palette[i].ToColor() == Srgb(HexValue(h[1..3]), HexValue(h[3..5]), HexValue(h[5..]), 255)
  {
    PaletteWellFormed();
    ColorFromHexLiteral(Palette[i].hex);
  }

  // ---------------------------------------------------------------------
  // ThemeManager

  class ThemeManager {
    /** `@AppStorage("notchflow_accent_hex")`. */
    var accentColorHex: string
    /** `@AppStorage("notchflow_font_choice")`. */
    var fontChoiceRaw: string

    /** Each preference takes its stored value when one exists, its default otherwise. */
    constructor(storedAccent: Option<string>, storedFont: Option<string>)
      ensures accentColorHex == storedAccent.GetOr(DefaultAccentHex)
      ensures fontChoiceRaw == storedFont.GetOr(Rounded.RawValue())
    {
      accentColorHex := storedAccent.GetOr(DefaultAccentHex);
      fontChoiceRaw := storedFont.GetOr(Rounded.RawValue());
    }

    /** The getter of `fontChoice`: the stored case, `.rounded` when the
        stored string names none. */
    function CurrentFontChoice(): (c: FontChoice)
      reads this
      ensures c.RawValue() == fontChoiceRaw
              || (c == Rounded && forall k: FontChoice :: k.RawValue() != fontChoiceRaw)
    {
      FontChoiceFromRaw(fontChoiceRaw).GetOr(Rounded)
    }

    /** The setter of `fontChoice`. */
    method SetFontChoice(c: FontChoice)
      modifies this
      ensures fontChoiceRaw == c.RawValue() && accentColorHex == old(accentColorHex)
      ensures CurrentFontChoice() == c
    {
      fontChoiceRaw := c.RawValue();
      FontChoiceTables(c, c);
    }

    /** `accentColor`: a stored `#RRGGBB` literal gives its digit pairs at full
        opacity; a stored string of the wrong length gives the fallback. */
    function AccentColorValue(): (c: Color)
      reads this
      ensures var h := accentColorHex;
              IsHexColorLiteral(h) ==>
                && AllHex(h[1..])
                && c == Srgb(HexValue(h[1..3]), HexValue(h[3..5]), HexValue(h[5..]), 255)
      ensures |Sanitised(accentColorHex)| != 6 && |Sanitised(accentColorHex)| != 8 ==> c == AccentColor
    {
      if IsHexColorLiteral(accentColorHex) then
        ColorFromHexLiteral(accentColorHex);
        ColorFrom(accentColorHex)
      else ColorFrom(accentColorHex)
    }

    method SetAccent(option: AccentOption)
      modifies this
      ensures accentColorHex == option.hex && fontChoiceRaw == old(fontChoiceRaw)
    {
      accentColorHex := option.hex;
    }

    /** Leaves the same state from any state, so calling it twice is calling it once. */
    method ResetToDefaults()
      modifies this
      ensures accentColorHex == DefaultAccentHex && fontChoiceRaw == Rounded.RawValue()
      ensures CurrentFontChoice() == Rounded && AccentColorValue() == Palette[0].ToColor()
    {
      accentColorHex := DefaultAccentHex;
      fontChoiceRaw := Rounded.RawValue();
    }
  }
}
