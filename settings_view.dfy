/**
 * Models NotchFlow/Sources/Views/SettingsView.swift: the lenient
 * `Color(hexString:)` parser, the `Color.hexString` formatter, `clamped(to:)`,
 * the font pill labels, and the selection logic of the colour circles and
 * font pills, with the gear button that shows and hides the panel.
 */
module Settings {
  import opened Wrappers
  import opened HexText
  import opened Theme

  // ---------------------------------------------------------------------
  // clamped(to:)

  /** `x.clamped(to: lo...hi)`; a closed range needs `lo <= hi`. */
  function Clamped(x: int, lo: int, hi: int): (r: int)
    requires lo <= hi
    ensures lo <= r <= hi
    ensures lo <= x <= hi ==> r == x
    ensures x < lo ==> r == lo
    ensures hi < x ==> r == hi
  {
    var atLeastLo := if x > lo then x else lo;
    if atLeastLo < hi then atLeastLo else hi
  }

  lemma ClampedIdempotent(x: int, lo: int, hi: int)
    requires lo <= hi
    ensures Clamped(Clamped(x, lo, hi), lo, hi) == Clamped(x, lo, hi)
  {
  }

  // ---------------------------------------------------------------------
  // Color.hexString

  /** A colour's `cgColor` components, each already multiplied by 255 and
      rounded; `None` when the colour has no `cgColor`. */
  type Components = Option<seq<int>>

  /** The channel `hexString` prints for a scaled component. */
  function Channel(component: int): Byte {
    Clamped(component, 0, 255)
  }

  /** `Color.hexString`. */
  function HexString(color: Components): (r: Option<string>)
    ensures r.None? <==> color.None? || |color.value| < 3
    ensures r.Some? ==> IsHexColorLiteral(r.value)
  {
    if color.None? || |color.value| < 3 then None
    else
      var cs := color.value;
      var digits := Hex2(Channel(cs[0])) + Hex2(Channel(cs[1])) + Hex2(Channel(cs[2]));
      assert AllUpperHex(("#" + digits)[1..]) by { assert ("#" + digits)[1..] == digits; }
      Some("#" + digits)
  }

  /** The three digit pairs of a non-nil `hexString` are the clamped channels. */
  lemma HexStringChannels(cs: seq<int>)
    requires |cs| >= 3
    ensures var h := HexString(Some(cs)).value;
            && AllHex(h[1..])
            && HexValue(h[1..3]) == Channel(cs[0])
            && HexValue(h[3..5]) == Channel(cs[1])
            && HexValue(h[5..]) == Channel(cs[2])
  {
    var h := HexString(Some(cs)).value;
    var r, g, b := Hex2(Channel(cs[0])), Hex2(Channel(cs[1])), Hex2(Channel(cs[2]));
    assert h == "#" + r + g + b;
    assert h[1..3] == r && h[3..5] == g && h[5..] == b;
  }

  // ---------------------------------------------------------------------
  // Color(hexString:)

  /** `Color(hexString:)`: non-alphanumerics trimmed from both ends, the
      scan's result ignored (so nothing scanned leaves 0), the low 24 bits
      read as RRGGBB, opacity always 1. */
  function ColorFromHexString(hex: string): (c: Color)
    ensures c.Srgb? && c.opacity == 255
  {
    var clean := Trimmed(hex, IsNotAlphanumeric);
    var value := ScanHexInt64(clean).GetOr(0);
    Srgb(ByteAt(value, 16), ByteAt(value, 8), ByteAt(value, 0), 255)
  }

  /** Input that starts with no hex digit gives black instead of failing. */
  lemma ColorFromHexStringBlack(hex: string)
    requires ScanHexInt64(Trimmed(hex, IsNotAlphanumeric)).None?
    ensures ColorFromHexString(hex) == Srgb(0, 0, 0, 255)
  {
  }

  /** Only the low 24 bits count: of eight digits after a `#`, the first pair
      is dropped and the other three are read as RRGGBB at opacity 1, where
      `color(from:)` reads the same text as RRGGBBAA. */
  lemma LenientDropsHighPair(h: string, d: string)
    requires |d| == 8 && AllHex(d) && h == "#" + d
    ensures ColorFromHexString(h) == Srgb(HexValue(d[2..4]), HexValue(d[4..6]), HexValue(d[6..]), 255)
  {
    var v := LenientScansAll(h, d);
    RgbaPairs(d);
  }

  /** A `#` followed by hex digits is trimmed to the digits, which are all scanned. */
  lemma LenientScansAll(h: string, d: string) returns (v: nat)
    requires 0 < |d| <= 16 && AllHex(d) && h == "#" + d
    ensures v == HexValue(d)
    ensures ColorFromHexString(h) == Srgb(ByteAt(v, 16), ByteAt(v, 8), ByteAt(v, 0), 255)
  {
    assert h[1..] == d;
    assert LeadingCount(h, IsNotAlphanumeric) == 1 by {
      assert LeadingCount(h[1..], IsNotAlphanumeric) == 0;
    }
    assert TrailingCount(h, IsNotAlphanumeric) == 0;
    assert Trimmed(h, IsNotAlphanumeric) == d;
    ScanAllHex(d);
    v := HexValue(d);
  }

  /** A `#` and six hex digits are read as RRGGBB at full opacity. */
  lemma LenientRgb(h: string, d: string)
    requires |d| == 6 && AllHex(d) && h == "#" + d
    ensures ColorFromHexString(h) == Srgb(HexValue(d[..2]), HexValue(d[2..4]), HexValue(d[4..]), 255)
  {
    var v := LenientScansAll(h, d);
    RgbPairs(d);
  }

  /** A `#RRGGBB` literal reads the same through both parsers: the trim
      drops the `#`, and every digit is scanned. */
  lemma ParsersAgree(h: string)
    requires IsHexColorLiteral(h)
    ensures ColorFromHexString(h) == ColorFrom(h)
  {
    var d := h[1..];
    assert AllHex(d) && h == "#" + d;
    LenientRgb(h, d);
    ColorFromRgb(h, d);
  }

  /** Formatting a colour and parsing the text back, with either parser,
      gives its three clamped channels at full opacity. */
  lemma HexStringRoundTrip(cs: seq<int>)
    requires |cs| >= 3
    ensures HexString(Some(cs)).Some?
    ensures var h := HexString(Some(cs)).value;
            var c := Srgb(Channel(cs[0]), Channel(cs[1]), Channel(cs[2]), 255);
            ColorFromHexString(h) == c && ColorFrom(h) == c
  {
    var h := HexString(Some(cs)).value;
    HexStringChannels(cs);
    ParsersAgree(h);
    ColorFromHexLiteral(h);
  }

  /** Both parsers read every palette entry the same way. */
  lemma PaletteParsersAgree(i: nat)
    requires i < |Palette|
    ensures ColorFromHexString(Palette[i].hex) == Palette[i].ToColor()
  {
    PaletteWellFormed();
    ParsersAgree(Palette[i].hex);
  }

  // ---------------------------------------------------------------------
  // Font pills

  /** `FontChoice.pillLabel`. */
  function PillLabel(c: FontChoice): string {
    match c
    case Rounded => "Round"
    case Mono => "Mono"
    case Serif => "Serif"
    case Classic => "Classic"
  }

  lemma PillLabelsDistinct(c: FontChoice, d: FontChoice)
    ensures PillLabel(c) != [] && (c != d ==> PillLabel(c) != PillLabel(d))
  {
  }

  // ---------------------------------------------------------------------
  // The panel

  /** `Color.white` as its scaled components. */
  const White: Components := Some([255, 255, 255, 255])

  class SettingsView {
    const themeManager: ThemeManager
    /** `@State customPickerColor`. */
    var customPickerColor: Components
    /** `@State isCustomSelected`. */
    var isCustomSelected: bool

    constructor(themeManager: ThemeManager)
      ensures this.themeManager == themeManager
      ensures customPickerColor == White && !isCustomSelected
    {
      this.themeManager := themeManager;
      customPickerColor := White;
      isCustomSelected := false;
    }

    /** The preset circle's highlight. */
    predicate IsPresetSelected(option: AccentOption)
      reads this, themeManager
    {
      !isCustomSelected && themeManager.accentColorHex == option.hex
    }

    /** The font pill's highlight. */
    predicate IsPillSelected(choice: FontChoice)
      reads this, themeManager
    {
      themeManager.CurrentFontChoice() == choice
    }

    /** Tapping a preset circle stores its hex and selects it. */
    method TapPreset(option: AccentOption)
      modifies this, themeManager
      ensures themeManager.accentColorHex == option.hex && !isCustomSelected
      ensures IsPresetSelected(option)
      ensures themeManager.fontChoiceRaw == old(themeManager.fontChoiceRaw)
      ensures customPickerColor == old(customPickerColor)
    {
      themeManager.accentColorHex := option.hex;
      isCustomSelected := false;
    }

    /** The colour picker reporting `newColor`: the `onChange` action runs
        only if the colour changed, and stores the accent and raises the
        custom flag only when the colour can be written as hex. */
    method PickCustomColor(newColor: Components)
      modifies this, themeManager
      ensures customPickerColor == newColor
      ensures var hex := HexString(newColor);
              if newColor != old(customPickerColor) && hex.Some? then
                && themeManager.accentColorHex == hex.value && isCustomSelected
                && themeManager.AccentColorValue() == Srgb(
                     Channel(newColor.value[0]), Channel(newColor.value[1]), Channel(newColor.value[2]), 255)
              else
                && themeManager.accentColorHex == old(themeManager.accentColorHex)
                && isCustomSelected == old(isCustomSelected)
      ensures themeManager.fontChoiceRaw == old(themeManager.fontChoiceRaw)
    {
      var changed := newColor != customPickerColor;
      customPickerColor := newColor;
      if changed {
        var hex := HexString(newColor);
        if hex.Some? {
          themeManager.accentColorHex := hex.value;
          isCustomSelected := true;
          HexStringRoundTrip(newColor.value);
        }
      }
    }

    /** Tapping a font pill selects that pill and no other. */
    method TapPill(choice: FontChoice)
      modifies themeManager
      ensures IsPillSelected(choice)
      ensures forall other: FontChoice :: IsPillSelected(other) ==> other == choice
      ensures themeManager.accentColorHex == old(themeManager.accentColorHex)
    {
      themeManager.SetFontChoice(choice);
    }
  }

  /** No two presets are highlighted at once. */
  lemma AtMostOnePresetSelected(view: SettingsView, i: nat, j: nat)
    requires i < j < |Palette|
    ensures !(view.IsPresetSelected(Palette[i]) && view.IsPresetSelected(Palette[j]))
  {
    PaletteWellFormed();
  }

  /** Whatever is stored, exactly one font pill is highlighted. */
  lemma ExactlyOnePillSelected(view: SettingsView)
    ensures exists c: FontChoice :: view.IsPillSelected(c)
    ensures forall c: FontChoice, d: FontChoice :: view.IsPillSelected(c) && view.IsPillSelected(d) ==> c == d
  {
    assert view.IsPillSelected(view.themeManager.CurrentFontChoice());
  }

  /** `SettingsToggleButton`: the gear that shows and hides the panel. */
  class SettingsToggleButton {
    /** The `showSettings` binding. */
    var showSettings: bool
    var isHovered: bool

    constructor(showSettings: bool)
      ensures this.showSettings == showSettings && !isHovered
    {
      this.showSettings := showSettings;
      isHovered := false;
    }

    /** The SF Symbol shown: a cross while the panel is open, a gear otherwise. */
    function SymbolName(): (name: string)
      reads this
      ensures name == "xmark" <==> showSettings
    {
      if showSettings then "xmark" else "gearshape.fill"
    }

    method Tap()
      modifies this
      ensures showSettings == !old(showSettings) && isHovered == old(isHovered)
    {
      showSettings := !showSettings;
    }

    method Hover(hovering: bool)
      modifies this
      ensures isHovered == hovering && showSettings == old(showSettings)
    {
      isHovered := hovering;
    }
  }
}
