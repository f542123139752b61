# NotchFlow core in Dafny

NotchFlow is a macOS overlay that sits on the display's notch: a compact
clock that expands on hover into a larger clock and a settings panel
(accent colour, clock font). Almost all of it is SwiftUI and AppKit
presentation. This project models the three pieces of it that carry logic:

- **the hex colour codec** — `ThemeManager.color(from:)` (strict length
  guard, `.accentColor` fallback, RRGGBB or RRGGBBAA), the lenient
  `Color(hexString:)` initialiser, and the `Color.hexString` formatter
  (`#%02X%02X%02X` over clamped channels), with the Foundation text
  services they call (`trimmingCharacters(in:)`, `Scanner.scanHexInt64`);
- **the theme preferences** — the two stored strings of `ThemeManager`,
  the derived `fontChoice`, `setAccent`, `resetToDefaults`, the accent
  palette, and the selection logic of the settings panel (preset circles,
  custom picker, font pills, gear button);
- **the notch state machine** — `NotchViewModel`'s compact/expanded
  state, content size with its one-point tolerance, derived panel
  dimensions, and the debounced collapse timer, driven by the hover
  handler of `NotchRootView`.

Files: `wrappers.dfy` (Swift `Optional`), `hex_text.dfy` (module
`HexText`: character sets, trimming, hex numerals, the scanner),
`theme_manager.dfy` (module `Theme`), `notch_view_model.dfy` (module
`Notch`), `settings_view.dfy` (module `Settings`).

Modelling choices:

- A colour is `Srgb(red, green, blue, opacity)` in bytes 0…255 (opacity
  1.0 is 255) or the `AccentColor` fallback; the source's `/ 255` to
  `Double` is not modelled, so parsing and formatting are exact.
- `Scanner.scanHexInt64` skips leading whitespace and newlines (the
  scanner's default `charactersToBeSkipped`), accepts an optional `0x` /
  `0X` when a hex digit follows it, reads the longest run of hex digits,
  fails when there is none, and saturates at `UInt64.max`. It does not
  require the whole string to be hex, so `12ZZ56` passes the length guard
  of `color(from:)` and reads as 0x12 (`Theme.ColorFromStopsAtNonHex`), and
  `# 12345` reads as 0x012345 (`Theme.ColorFromSpaceAfterHash`).
- `Color.hexString` takes the colour's `cgColor` components already
  multiplied by 255 and rounded (`None` when there is no `cgColor`).
- The screen queries behind `compactWidth`, `compactHeight` and
  `maxPanelWidth` are a parameter: the list of screens (and the main
  screen), each reduced to the four values the code reads.
- A collapse `Timer` is an object with `isValid`; the run loop firing it
  is the method `FireCollapse`, which needs a valid timer. `Valid()` of
  the view model says that the only timer that can still fire is the one
  `collapseTimer` holds, so at most one collapse is ever pending.
- `CGFloat` is `real`.
- The case tables (`FontChoice.RawValue`, `Design`, `DisplayName`, `Settings.PillLabel`) and the selection predicates (`SettingsView.IsPresetSelected`, `IsPillSelected`) are plain definitions; what they promise is stated by `Theme.FontChoiceTables`, `Settings.PillLabelsDistinct`, `Settings.AtMostOnePresetSelected`, `Settings.ExactlyOnePillSelected` and the tap methods.
- `@AppStorage` becomes a constructor that takes the stored values, if any.

## Model

| member | source | states |
|---|---|---|
| `HexText.Trimmed` | NotchFlow/Sources/Models/ThemeManager.swift:122 | trimming drops exactly the longest runs of set members at both ends: the result is a slice starting after the leading run, both its ends are outside the set, and it is empty only when every character was in the set |
| `HexText.TrimmedUnchanged` | NotchFlow/Sources/Views/SettingsView.swift:229 | a string whose first and last characters are outside the set is left unchanged by trimming |
| `HexText.ScanHexInt64` | NotchFlow/Sources/Models/ThemeManager.swift:129-132 | the scan fails exactly when, after the skipped whitespace, there is no hex digit; a stored value never exceeds `UInt64.max` |
| `HexText.Saturated` | NotchFlow/Sources/Models/ThemeManager.swift:129 | a value that fits in a `UInt64` is kept, a larger one becomes `UInt64.max` |
| `HexText.ScanReadsRun` | NotchFlow/Sources/Models/ThemeManager.swift:130 | after the skipped whitespace the scanner reads the whole run of hex digits and stops at the first other character, saturating at `UInt64.max` |
| `HexText.ScanStopsAtNonHex` | NotchFlow/Sources/Models/ThemeManager.swift:130 | a run of at most 16 hex digits (leading zeros included) is read as the number it spells, whatever non-hex character follows it; the only exception is a lone `0` before `x` or `X` and a hex digit, which is read as a prefix |
| `HexText.ScanAfterPrefix` | NotchFlow/Sources/Models/ThemeManager.swift:130 | a `0x` or `0X` before the digits is skipped |
| `HexText.ScanSaturates` | NotchFlow/Sources/Models/ThemeManager.swift:129-130 | a run worth more than `UInt64.max` (seventeen `F`s) reads as `UInt64.max` |
| `HexText.ScanAllHex` | NotchFlow/Sources/Models/ThemeManager.swift:130 | a non-empty string of at most 16 hex digits scans as the number it spells |
| `HexText.ScanAfterWhitespace` | NotchFlow/Sources/Models/ThemeManager.swift:130 | leading whitespace is skipped before the digits are read |
| `HexText.HexValueAppend` | NotchFlow/Sources/Models/ThemeManager.swift:134-145 | the numeral `a + b` is `a` shifted left by the digits of `b`, plus `b`, which is what lets the channels be read off digit pairs |
| `HexText.Hex2` | NotchFlow/Sources/Views/SettingsView.swift:251 | `%02X` of a byte is two upper-case hex digits that read back as that byte |
| `Theme.FontChoiceFromRaw` | NotchFlow/Sources/Models/ThemeManager.swift:5-9 | `FontChoice(rawValue:)` gives the case whose raw value is the string, and nothing when no case has it |
| `Theme.FontChoiceTables` | NotchFlow/Sources/Models/ThemeManager.swift:5-27 | four cases in `allCases`; raw values, designs and display names differ between cases; a raw value reads back as its case |
| `Theme.Sanitised` | NotchFlow/Sources/Models/ThemeManager.swift:122-123 | the trimmed string with at most one character removed from its front, and one removed exactly when it is a `#`; it never ends in whitespace |
| `Theme.ColorFrom` | NotchFlow/Sources/Models/ThemeManager.swift:121-148 | the result is the `.accentColor` fallback exactly when the sanitised string has neither 6 nor 8 characters or the scan fails; a 6-character input is fully opaque |
| `Theme.ColorFromWrongLength` | NotchFlow/Sources/Models/ThemeManager.swift:122-127 | any input whose length after trimming and dropping one `#` is neither 6 nor 8 gives the fallback |
| `Theme.ColorFromRgb` | NotchFlow/Sources/Models/ThemeManager.swift:134-139 | six hex digits, with or without `#`, give red, green, blue from the first, second and third digit pairs, opacity 1 |
| `Theme.ColorFromRgba` | NotchFlow/Sources/Models/ThemeManager.swift:140-145 | eight hex digits, with or without `#`, are read as RRGGBBAA |
| `Theme.ColorFromStopsAtNonHex` | NotchFlow/Sources/Models/ThemeManager.swift:125-132 | the guards do not validate the digits: `12ZZ56` is accepted and gives 0x000012 |
| `Theme.ColorFromSpaceAfterHash` | NotchFlow/Sources/Models/ThemeManager.swift:122-132 | whitespace after the `#` survives the trim, counts towards the length and is skipped by the scanner: `# 12345` gives 0x012345 |
| `Theme.ColorFromHexLiteral` | NotchFlow/Sources/Models/ThemeManager.swift:121-148 | a `#RRGGBB` literal parses to its three digit pairs at full opacity |
| `Theme.RgbPairs` | NotchFlow/Sources/Models/ThemeManager.swift:136-138 | `(v >> 16) & 0xFF`, `(v >> 8) & 0xFF`, `v & 0xFF` of a six-digit numeral are its three digit pairs |
| `Theme.RgbaPairs` | NotchFlow/Sources/Models/ThemeManager.swift:141-144 | the four shifted bytes of an eight-digit numeral are its four digit pairs |
| `Theme.AccentOption.ToColor` | NotchFlow/Sources/Models/ThemeManager.swift:37 | an option whose hex is a `#RRGGBB` literal has the opaque sRGB colour of its digit pairs |
| `Theme.PaletteWellFormed` | NotchFlow/Sources/Models/ThemeManager.swift:41-50 | eight presets; each `id` equals its `hex`; every hex is `#` and six upper-case hex digits; no two alike; the first is the default `#007AFF` |
| `Theme.PaletteColors` | NotchFlow/Sources/Models/ThemeManager.swift:37-50 | every preset's colour is opaque sRGB made of its digit pairs, never the fallback |
| `Theme.ThemeManager.constructor` | NotchFlow/Sources/Models/ThemeManager.swift:59-67 | each preference starts from its stored value, or `#007AFF` and `rounded` when none is stored |
| `Theme.ThemeManager.CurrentFontChoice` | NotchFlow/Sources/Models/ThemeManager.swift:71-72 | the derived font is the case whose raw value is stored, and `.rounded` when the stored string names no case |
| `Theme.ThemeManager.SetFontChoice` | NotchFlow/Sources/Models/ThemeManager.swift:73 | setting the font stores its raw value, leaves the accent alone, and reading the font back gives the case set |
| `Theme.ThemeManager.AccentColorValue` | NotchFlow/Sources/Models/ThemeManager.swift:78-80 | a stored `#RRGGBB` literal gives its digit pairs at full opacity; a stored string of the wrong length gives the `.accentColor` fallback |
| `Theme.ThemeManager.SetAccent` | NotchFlow/Sources/Models/ThemeManager.swift:110-112 | stores the option's hex and leaves the font preference unchanged |
| `Theme.ThemeManager.ResetToDefaults` | NotchFlow/Sources/Models/ThemeManager.swift:114-117 | from any state, leaves `#007AFF` and `rounded` (so it is idempotent), i.e. the rounded font and the first preset's colour |
| `Notch.NotchedScreen` | NotchFlow/Sources/ViewModels/NotchViewModel.swift:23 | the first screen with a positive top inset, and nothing exactly when no screen has one |
| `Notch.CompactWidth` | NotchFlow/Sources/ViewModels/NotchViewModel.swift:22-30 | the notched screen's width less both auxiliary top areas, plus 4; 200 when there is no notched screen or one of its auxiliary areas is missing |
| `Notch.CompactHeight` | NotchFlow/Sources/ViewModels/NotchViewModel.swift:32-36 | the notched screen's top inset, else 37; always positive |
| `Notch.MaxPanelWidth` | NotchFlow/Sources/ViewModels/NotchViewModel.swift:50-53 | the notched screen's width, else the main screen's, else 1440 |
| `Notch.CollapseTimer.constructor` | NotchFlow/Sources/ViewModels/NotchViewModel.swift:83 | a newly scheduled timer is valid |
| `Notch.CollapseTimer.Invalidate` | NotchFlow/Sources/ViewModels/NotchViewModel.swift:82 | an invalidated timer can no longer fire |
| `Notch.NotchViewModel.constructor` | NotchFlow/Sources/ViewModels/NotchViewModel.swift:11-15 | starts compact, with zero content size and no collapse pending |
| `Notch.NotchViewModel.ExpandedWidth` | NotchFlow/Sources/ViewModels/NotchViewModel.swift:38-42 | the larger of compact width + 60 and content width + 80: at least both, and equal to one of them |
| `Notch.NotchViewModel.ExpandedHeight` | NotchFlow/Sources/ViewModels/NotchViewModel.swift:44-48 | the larger of compact height + 60 and content height + compact height + 40 |
| `Notch.NotchViewModel.CurrentWidth` | NotchFlow/Sources/ViewModels/NotchViewModel.swift:57-59 | compact width in the compact state; expanded width, strictly larger than the compact one, in the expanded state |
| `Notch.NotchViewModel.CurrentHeight` | NotchFlow/Sources/ViewModels/NotchViewModel.swift:61-63 | compact height in the compact state; expanded height, strictly larger, in the expanded state |
| `Notch.NotchViewModel.UpdateContentSize` | NotchFlow/Sources/ViewModels/NotchViewModel.swift:65-72 | each dimension is overwritten only when it moved by more than 1, independently, so each ends within 1 of the report; nothing else changes |
| `Notch.NotchViewModel.Expand` | NotchFlow/Sources/ViewModels/NotchViewModel.swift:74-79 | ends expanded from either state with no collapse able to fire, and the content size unchanged |
| `Notch.NotchViewModel.ScheduleCollapse` | NotchFlow/Sources/ViewModels/NotchViewModel.swift:81-87 | every earlier timer is invalidated and one fresh valid timer is installed, so exactly one collapse is pending; state unchanged |
| `Notch.NotchViewModel.CancelCollapse` | NotchFlow/Sources/ViewModels/NotchViewModel.swift:89-92 | no collapse can fire afterwards; state and content size unchanged |
| `Notch.NotchViewModel.FireCollapse` | NotchFlow/Sources/ViewModels/NotchViewModel.swift:82-86 | a firing timer is spent and the notch ends compact; a compact notch stays as it was |
| `Notch.OnHover` | NotchFlow/Sources/Views/NotchRootView.swift:26-33 | entering ends expanded with nothing pending; leaving keeps the state and leaves exactly one fresh pending collapse; the content size is never touched |
| `Notch.HoverOutAndBack` | NotchFlow/Sources/Views/NotchRootView.swift:26-33 | leaving and re-entering keeps the notch expanded, and the collapse scheduled on leaving can never fire |
| `Settings.Clamped` | NotchFlow/Sources/Views/SettingsView.swift:255-258 | the result lies in the range, equals the input when it already does, and is the nearer bound otherwise |
| `Settings.ClampedIdempotent` | NotchFlow/Sources/Views/SettingsView.swift:255-258 | clamping twice is clamping once |
| `Settings.HexString` | NotchFlow/Sources/Views/SettingsView.swift:240-252 | nil exactly when there is no `cgColor` or it has fewer than three components; otherwise a `#` and six upper-case hex digits |
| `Settings.HexStringChannels` | NotchFlow/Sources/Views/SettingsView.swift:248-251 | the three digit pairs of `hexString` are the red, green and blue components clamped to 0…255 |
| `Settings.ColorFromHexString` | NotchFlow/Sources/Views/SettingsView.swift:228-236 | never fails: always an sRGB colour with opacity 1 |
| `Settings.ColorFromHexStringBlack` | NotchFlow/Sources/Views/SettingsView.swift:230-231 | when no hex digit can be scanned the ignored scan leaves 0, which is black |
| `Settings.LenientDropsHighPair` | NotchFlow/Sources/Views/SettingsView.swift:232-234 | only the low 24 bits are used: of `#` and eight digits, the first pair is dropped and the rest read as RRGGBB |
| `Settings.LenientRgb` | NotchFlow/Sources/Views/SettingsView.swift:228-236 | `#` and six hex digits give the three digit pairs at opacity 1 |
| `Settings.ParsersAgree` | NotchFlow/Sources/Views/SettingsView.swift:62 | on a `#RRGGBB` literal the lenient parser and `color(from:)` give the same colour |
| `Settings.PaletteParsersAgree` | NotchFlow/Sources/Views/SettingsView.swift:62 | each preset circle is filled with the same colour the theme uses for that preset |
| `Settings.HexStringRoundTrip` | NotchFlow/Sources/Views/SettingsView.swift:228-252 | formatting a colour and parsing the text with either parser recovers its three clamped channels at opacity 1 |
| `Settings.PillLabelsDistinct` | NotchFlow/Sources/Views/SettingsView.swift:213-220 | every case has a non-empty pill label and different cases have different labels |
| `Settings.SettingsView.constructor` | NotchFlow/Sources/Views/SettingsView.swift:10-11 | the picker starts white and the custom flag off |
| `Settings.SettingsView.TapPreset` | NotchFlow/Sources/Views/SettingsView.swift:55-59 | stores the option's hex, clears the custom flag, so that preset shows as selected; font untouched |
| `Settings.AtMostOnePresetSelected` | NotchFlow/Sources/Views/SettingsView.swift:53 | no two presets are highlighted at once |
| `Settings.SettingsView.PickCustomColor` | NotchFlow/Sources/Views/SettingsView.swift:106-113 | when the picked colour changed and converts to hex, the accent becomes that hex (so the theme's colour is the clamped pick) and the custom flag is raised; otherwise neither changes |
| `Settings.SettingsView.TapPill` | NotchFlow/Sources/Views/SettingsView.swift:133-136 | the tapped pill becomes the only selected one; the accent is untouched |
| `Settings.ExactlyOnePillSelected` | NotchFlow/Sources/Views/SettingsView.swift:131 | whatever is stored, exactly one font pill is highlighted |
| `Settings.SettingsToggleButton.constructor` | NotchFlow/Sources/Views/SettingsView.swift:179-182 | starts from the binding's value, not hovered |
| `Settings.SettingsToggleButton.SymbolName` | NotchFlow/Sources/Views/SettingsView.swift:190 | shows the cross exactly while the panel is open |
| `Settings.SettingsToggleButton.Tap` | NotchFlow/Sources/Views/SettingsView.swift:185-188 | toggles the panel; hover state unchanged |
| `Settings.SettingsToggleButton.Hover` | NotchFlow/Sources/Views/SettingsView.swift:201-205 | records the hover state; panel unchanged |

## Left out

- SwiftUI layout, transitions, animations, hover visuals and previews in every view file: rendering with no checkable behaviour.
- `heroFont`, `compactFont`, `captionFont`, `accentGradient`, `secondaryText`: font and colour values handed to SwiftUI; only the `design` mapping they use is modelled.
- `ThemeManager.hex(from:)`: goes through `NSColor` and floating-point rounding (`+ 0.5`), neither of which is modelled.
- The `Double` channel values (`/ 255`) and the `* 255` and `.rounded()` in `hexString`: colours are bytes, and `hexString` receives components already scaled and rounded.
- `CharacterSet.alphanumerics` is taken as ASCII letters and digits; non-ASCII letters and digits are treated as trimmable.
- Theme.ColorFrom: lengths count Unicode scalars, whereas Swift's `count` counts grapheme clusters; the two differ for every cluster of more than one scalar (combining marks, CR LF, flag and emoji sequences). So `12\r\n345` has 6 characters in Swift, passes the length guard and reads as 0x000012, but has 7 scalars here and gives the fallback.
- Theme.Sanitised: `hasPrefix("#")` and `removeFirst()` work on whole characters, so the source keeps a `#` that carries a combining mark; the model removes the scalar `#` regardless of what follows it.
- Foundation's `Scanner` and `trimmingCharacters(in:)` are not part of this model's sources; they are modelled from their documented behaviour.
- The 0.3 s delay and the run loop: the pending collapse fires only through `FireCollapse`; the `[weak self]` case of a released view model is not modelled.
- `@AppStorage` persistence and `objectWillChange` notifications: the preferences are plain fields.
- `maxPanelHeight` is the constant `Notch.MaxPanelHeight`; the `SettingsView.showSettings` binding is unused inside `SettingsView` and is modelled on the gear button.
- `onChange(of:)` compares colours by their component lists.
- SpiderView.swift, NotchShape.swift, AppDelegate.swift, NotchPanel.swift and the clock views: decorative geometry, window setup and locale-dependent date formatting.
- CGFloat arithmetic is exact (`real`), without floating-point rounding.
