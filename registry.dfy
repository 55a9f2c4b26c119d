/**
 * The static tables of the editor: the theme palettes, the configuration
 * presets, the shadow-style class table and the control domains (font
 * families, font weights, alignments) the editor's controls offer.
 */
module Registry {
  import opened ConfigTree

  /** Font families offered by the family selector. */
  const Families: seq<string> := ["Inter", "Roboto", "Poppins", "System UI"]

  /** Font weights offered by the weight selector. */
  const Weights: seq<int> := [400, 500, 600, 700]

  /** Alignments offered by the button and gallery alignment selectors. */
  const Alignments: seq<string> := ["left", "center", "right"]

  /** Shadow style name to the class token the button receives. */
  const ShadowMap: map<string, string> :=
    map["none" := "", "small" := "shadow", "medium" := "shadow-md", "large" := "shadow-xl"]

  /** Shadow style names in the order the shadow selector lists them. */
  const ShadowNames: seq<string> := ["none", "small", "medium", "large"]

  const Aurora := Palette("from-fuchsia-500 via-indigo-500 to-sky-500", "bg-white/70 backdrop-blur",
                          "#6D28D9", "#22D3EE", "#FFFFFF")
  const Sunset := Palette("from-rose-500 via-orange-500 to-amber-400", "bg-white/70 backdrop-blur",
                          "#EA580C", "#F59E0B", "#111827")
  const Ocean := Palette("from-cyan-500 via-blue-500 to-indigo-500", "bg-white/70 backdrop-blur",
                         "#0EA5E9", "#6366F1", "#FFFFFF")
  const Forest := Palette("from-emerald-500 via-teal-500 to-cyan-500", "bg-white/70 backdrop-blur",
                          "#059669", "#14B8A6", "#FFFFFF")

  /** Theme name to palette. */
  const Themes: map<string, Palette> :=
    map["Aurora" := Aurora, "Sunset" := Sunset, "Ocean" := Ocean, "Forest" := Forest]

  /** Theme names in the order the theme selectors list them. */
  const ThemeNames: seq<string> := ["Aurora", "Sunset", "Ocean", "Forest"]

  /** The theme the editor starts with. */
  const InitialTheme: string := "Aurora"

  const Clean := Config(
    Typography("Inter", 400, 16),
    Button(12, "medium", "left", "#111827", "#ffffff"),
    Gallery("center", 12, 14),
    Layout(20, 28, "#ffffff"),
    Stroke("#e5e7eb", 1),
    "A")

  const Commerce := Config(
    Typography("Poppins", 500, 18),
    Button(20, "large", "center", "#4f46e5", "#ffffff"),
    Gallery("center", 14, 16),
    Layout(24, 32, "#f9fafb"),
    Stroke("#e2e8f0", 1),
    "A")

  const Contrast := Config(
    Typography("Roboto", 700, 18),
    Button(24, "large", "right", "#111827", "#fbbf24"),
    Gallery("right", 16, 20),
    Layout(28, 32, "#f3f4f6"),
    Stroke("#1f2937", 2),
    "B")

  /** Preset name to configuration snapshot. */
  const Presets: map<string, Config> :=
    map["Clean" := Clean, "Commerce" := Commerce, "Contrast" := Contrast]

  /** Preset names in the order the preset buttons list them. */
  const PresetNames: seq<string> := ["Clean", "Commerce", "Contrast"]

  /**
   * Names every plain object inherits from `Object.prototype`. The theme and
   * shadow tables are plain objects, so looking one of these names up in
   * them yields the inherited member instead of `undefined`.
   */
  const InheritedNames: set<string> := {
    "constructor", "hasOwnProperty", "isPrototypeOf", "propertyIsEnumerable",
    "toLocaleString", "toString", "valueOf", "__proto__",
    "__defineGetter__", "__defineSetter__", "__lookupGetter__", "__lookupSetter__"}

  /**
   * The text a template literal prints for the member inherited under
   * `name`: `Object.prototype` itself for "__proto__", the `Object`
   * constructor for "constructor", and a native method otherwise, in the
   * form the common JavaScript engines print native functions.
   */
  function InheritedMemberText(name: string): (r: string)
    requires name in InheritedNames
    ensures name == "__proto__" ==> r == "[object Object]"
    ensures name != "__proto__" ==> |r| > 9 && r[..9] == "function "
  {
    if name == "__proto__" then "[object Object]"
    else if name == "constructor" then "function Object() { [native code] }"
    else "function " + name + "() { [native code] }"
  }

  /** The baseline configuration: a copy of the Commerce preset. */
  const DefaultConfig: Config := Commerce

  /** The registries' name lists enumerate exactly their keys, each once. */
  lemma NameListsEnumerateKeys()
    ensures |ThemeNames| == 4 && (set n | n in ThemeNames) == Themes.Keys
    ensures forall i, j :: 0 <= i < j < |ThemeNames| ==> ThemeNames[i] != ThemeNames[j]
    ensures |PresetNames| == 3 && (set n | n in PresetNames) == Presets.Keys
    ensures forall i, j :: 0 <= i < j < |PresetNames| ==> PresetNames[i] != PresetNames[j]
    ensures |ShadowNames| == 4 && (set n | n in ShadowNames) == ShadowMap.Keys
    ensures forall i, j :: 0 <= i < j < |ShadowNames| ==> ShadowNames[i] != ShadowNames[j]
    ensures InitialTheme in Themes
  {
  }

  /** The baseline configuration is the Commerce preset. */
  lemma DefaultIsCommerce()
    ensures "Commerce" in Presets && DefaultConfig == Presets["Commerce"]
  {
  }

  /** Every palette supplies a non-empty primary and text-on-primary colour. */
  lemma PalettesHaveColours(name: string)
    requires name in Themes
    ensures Themes[name].primary != "" && Themes[name].textOnPrimary != ""
  {
  }

  /** `ch` is a lower-case hexadecimal digit. */
  predicate IsHexDigit(ch: char)
  {
    '0' <= ch <= '9' || 'a' <= ch <= 'f'
  }

  /** `s` is a colour as a colour picker produces it: '#' and six lower-case hex digits. */
  predicate IsHexColour(s: string)
  {
    |s| == 7 && s[0] == '#' && forall i :: 1 <= i < 7 ==> IsHexDigit(s[i])
  }

  /**
   * `c` lies within what the interactive controls can produce: each
   * enumerated field is one of the selector's options and each number is
   * within its slider's range. The store itself does not enforce this.
   */
  predicate InControlRanges(c: Config)
  {
    && c.typography.family in Families
    && c.typography.weight in Weights
    && 10 <= c.typography.size <= 60
    && 0 <= c.button.radius <= 40
    && c.button.shadow in ShadowMap
    && c.button.align in Alignments
    && IsHexColour(c.button.bg)
    && IsHexColour(c.button.text)
    && c.gallery.align in Alignments
    && 0 <= c.gallery.gap <= 32
    && 0 <= c.gallery.radius <= 36
    && 0 <= c.layout.cardRadius <= 36
    && 0 <= c.layout.padding <= 48
    && IsHexColour(c.layout.bg)
    && IsHexColour(c.stroke.color)
    && 0 <= c.stroke.weight <= 6
    && c.currentLayout in ["A", "B"]
  }

  /** Every built-in preset lies within the control ranges. */
  lemma PresetsInControlRanges(name: string)
    requires name in Presets
    ensures InControlRanges(Presets[name])
  {
  }
}
