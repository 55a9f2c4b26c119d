# ui-editor: configuration engine

A model of the configuration engine inside the single-page style editor in `src/App.jsx`. The editor holds a style configuration tree and a theme name. The user changes one leaf at a time, picks a preset, resets to the baseline, switches the theme, or exports and imports the state as a JSON document with the fields `cfg` and `theme`. A live preview draws the configuration in one of two layout variants, tinted by the theme's palette.

Modules:

- `ConfigTree` (`config_tree.dfy`): the `Config` tree (typography, button, gallery, layout, stroke, `currentLayout`), the `Palette`, and the editor state `EditorState(cfg, theme)`.
- `Registry` (`registry.dfy`): the four themes, the three presets, the shadow table, the control option lists, and the baseline configuration (a copy of the Commerce preset).
- `PathMutator` (`path_mutator.dfy`): the seventeen leaf paths as a closed datatype, their dot-path names, leaf read `Get`, and leaf write `Set`. `Set` builds the copy that `update(path, value)` commits.
- `LayoutRenderer` (`layout_renderer.dfy`): `LayoutA`, `LayoutB` and the `Render` selector. Each is a pure function from (configuration, palette) to a `RenderSpec` of resolved values: justification classes, shadow class, button colours with palette fallback, passed-through numbers and heading sizes.
- `Serializer` (`serializer.dfy`): the exported document and the import decision. The parser's result is an abstract input: a syntax error, the JSON value `null`, or a document with an optional `cfg` and an optional `theme`.
- `ConfigStore` (`config_store.dfy`): user actions, their specification `Step`, and sessions `Run`. The `Editor` class has the two state fields `cfg` and `theme`. Its methods are proved against `Step`, and all of them keep the invariant that the theme names a registered palette.
- `Options` (`options.dfy`): an `Option` datatype.

Enumerated configuration fields (font family, shadow, alignments, layout variant) are strings. The alignments and the layout variant are compared with string literals, with a fallback for "any other value". The shadow is looked up in the shadow table, and the font family is passed through unchanged. An imported document may carry any string in any of them. Numbers are unbounded integers. The configuration is an immutable value, so the earlier configuration is never altered by an update. This is the copy made by `structuredClone` in the source.

## Model

| member | source | states |
|---|---|---|
| `Registry.NameListsEnumerateKeys` | src/App.jsx:5-63 | The theme, preset and shadow name lists give exactly the keys of their tables, each once; the initial theme "Aurora" is registered |
| `Registry.DefaultIsCommerce` | src/App.jsx:65 | The baseline configuration equals the Commerce preset |
| `Registry.PalettesHaveColours` | src/App.jsx:7-36 | Every registered palette has a non-empty primary and text-on-primary colour |
| `Registry.InheritedMemberText` | src/App.jsx:128 | The text printed for an inherited member: "[object Object]" for "__proto__", and otherwise the text of a native function, which starts with "function " |
| `Registry.PresetsInControlRanges` | src/App.jsx:38-63 | Every preset's enumerated fields are options of their selectors, its numbers lie in the slider ranges, and its colours are lower-case `#rrggbb` as a colour picker gives them |
| `PathMutator.ParsePath` | src/App.jsx:308-311 | A path string resolves to a leaf only if it is that leaf's dot path; a string that is no leaf's dot path resolves to nothing |
| `PathMutator.ParsePathName` | src/App.jsx:412-536 | Each of the seventeen dot paths the controls pass resolves to its leaf, and a string resolves to a leaf exactly when it is that leaf's dot path |
| `PathMutator.SetOnlyThatLeaf` | src/App.jsx:305-314 | After update(p, v) the leaf at p reads v and every other leaf reads as before |
| `PathMutator.Extensionality` | src/App.jsx:38-63 | Two configurations with equal values at all seventeen leaves are equal; the tree has no other content |
| `PathMutator.SetUnique` | src/App.jsx:305-314 | Any configuration that reads v at p and agrees elsewhere is the result of update(p, v) |
| `PathMutator.SetToSameValue` | src/App.jsx:305-314 | Writing a leaf's current value back gives an equal configuration |
| `PathMutator.SetLastWriteWins` | src/App.jsx:305-314 | A second update of the same leaf overrides the first |
| `PathMutator.SetCommutes` | src/App.jsx:305-314 | Updates of two different leaves give the same configuration in either order |
| `LayoutRenderer.Justify` | src/App.jsx:85-90 | "left" gives justify-start, "center" gives justify-center, any other value gives justify-end, in both directions; there are only these three outcomes |
| `LayoutRenderer.ShadowClass` | src/App.jsx:128 | A shadow name in the table gives its class. A name every object inherits ("toString", "__proto__", ...) gives the printed text of the inherited member. Any other name gives the token "undefined" |
| `LayoutRenderer.ShadowClassesDistinct` | src/App.jsx:5 | none, small, medium and large give "", shadow, shadow-md and shadow-xl, all distinct; no name outside the table gives one of these four classes |
| `LayoutRenderer.OrElse` | src/App.jsx:130-131 | The string `||` gives the first operand unless it is empty, else the second |
| `LayoutRenderer.LayoutA` | src/App.jsx:84-161 | Variant A has one card, holding the text, the button and the gallery; its heading is the body size plus 8 |
| `LayoutRenderer.LayoutB` | src/App.jsx:164-247 | Variant B has a sidebar card with the text and button, then a main card with the gallery; its heading is the body size plus 6 |
| `LayoutRenderer.Render` | src/App.jsx:342 | The preview uses variant A exactly when `currentLayout` is "A", and variant B for any other value |
| `LayoutRenderer.RenderPassesNumbersThrough` | src/App.jsx:95-149 | Padding, card radius, stroke weight, gallery gap, image radius, button radius, font weight and body size are copied unchanged; heading size is size+8 in A and size+6 in B. The font family is copied unchanged, the grid has six images, and there is one card in A and two in B |
| `LayoutRenderer.RenderColourFallback` | src/App.jsx:129-133 | The button background is `button.bg` unless empty, else the palette primary; the button text is `button.text` unless empty, else the palette text-on-primary; section, card-border and image-border colours come from the configuration |
| `LayoutRenderer.RenderAlignmentAndShadow` | src/App.jsx:126-140 | Button and gallery justification use the same mapping into the three classes; the button shadow class is the shadow table lookup for every shadow name, including inherited and unknown names |
| `LayoutRenderer.VariantsShareRules` | src/App.jsx:164-247 | A and B agree on every derived value except the variant, the heading offset (A is 2 larger) and the cards; every card in either variant has the same border and spacing, and only what it holds differs |
| `LayoutRenderer.PaletteOnlyFillsEmptyColours` | src/App.jsx:205-206 | When both button colours are set, the palette does not affect the render spec |
| `LayoutRenderer.ButtonColoursNonEmpty` | src/App.jsx:303 | With a registered theme's palette, both resolved button colours are non-empty |
| `Serializer.Export` | src/App.jsx:317 | The exported document carries the current configuration as `cfg` and the theme name as `theme` |
| `Serializer.Import` | src/App.jsx:330-336 | Syntax errors and `null` give the invalid-format alert. Otherwise a present `cfg` replaces the configuration, an absent one keeps it. The theme changes only to a registered non-empty name and otherwise stays |
| `Serializer.AfterImport` | src/App.jsx:329-337 | After an alert the state is as before; otherwise it is the imported state |
| `Serializer.ImportKeepsRegisteredTheme` | src/App.jsx:333 | Import from a registered theme leaves a registered theme |
| `Serializer.ExportImportRoundTrip` | src/App.jsx:317-333 | Importing the document exported from (c, t), with t registered, gives exactly (c, t), whatever the state before |
| `Serializer.ImportIdempotent` | src/App.jsx:330-336 | Importing a document twice has the same effect as importing it once |
| `Serializer.UnknownThemeKeepsTheme` | src/App.jsx:332-333 | A document with a configuration and an unregistered theme name installs the configuration and keeps the current theme |
| `Serializer.ImportAsWritten` | src/App.jsx:333 | The theme test as written also accepts a name inherited by every object, and switches to it |
| `Serializer.ImportAsWrittenAcceptsInheritedName` | src/App.jsx:333 | As written, importing `{"theme": "toString"}` switches the theme to "toString", which has no palette |
| `Serializer.ImportAgreesOffInheritedNames` | src/App.jsx:333 | The corrected and the written import agree on every document whose theme is not an inherited name |
| `ConfigStore.Step` | src/App.jsx:305-394 | Update changes only the configuration, to the leaf-updated copy. A preset installs that preset and reset installs the Commerce preset. Theme choice changes only the theme, and import follows the import decision |
| `ConfigStore.RunKeepsRegisteredTheme` | src/App.jsx:298-394 | After any session of issuable actions from a registered theme, the theme is still registered |
| `ConfigStore.ResetAfterAnySession` | src/App.jsx:341 | Whatever session came before, reset yields the Commerce preset and keeps the theme |
| `ConfigStore.PresetReplacesWholeConfig` | src/App.jsx:394 | Choosing preset k gives configuration presets[k] from any two prior states alike |
| `ConfigStore.MalformedImportIsNoOp` | src/App.jsx:334-336 | A file that fails to parse, or parses to null, changes neither configuration nor theme |
| `ConfigStore.ButtonRadiusScenario` | src/App.jsx:446-452 | From the start state, setting the button radius to 40 gives radius 40 and keeps the alignment, the other sub-objects and the theme |
| `ConfigStore.ControlRangesByLeaf` | src/App.jsx:421-541 | A configuration is within the control ranges exactly when each leaf holds a value its control offers |
| `ConfigStore.UpdateKeepsControlRanges` | src/App.jsx:421-541 | Updating a leaf to a value its control offers keeps a configuration within the control ranges |
| `ConfigStore.Editor.constructor` | src/App.jsx:298-300 | The editor starts on the baseline configuration with theme Aurora |
| `ConfigStore.Editor.Update` | src/App.jsx:305-314 | The new state is Step of the old one for update(p, v); the theme invariant holds |
| `ConfigStore.Editor.SelectPreset` | src/App.jsx:394 | The new state is Step of the old one for choosing preset k |
| `ConfigStore.Editor.ResetConfig` | src/App.jsx:341 | The new state is Step of the old one for reset |
| `ConfigStore.Editor.SelectTheme` | src/App.jsx:379 | The new state is Step of the old one for choosing a listed theme, from the button or from the selector at line 356 |
| `ConfigStore.Editor.ImportJSON` | src/App.jsx:327-339 | The new state is Step of the old one for the import; the alert is raised exactly when parsing failed or gave null |
| `ConfigStore.Editor.ExportJSON` | src/App.jsx:316-317 | Returns the document holding the current configuration and theme, whose import restores the current state |
| `ConfigStore.Editor.Preview` | src/App.jsx:342 | The preview is the active layout of the configuration with the current theme's palette, and its button colours are non-empty |

## Left out

- Markup, Tailwind classes that do not depend on the configuration, hover and transition classes, picsum image URLs and tile sizes: presentation only. The render spec keeps the six-image count and, for each card, whether it holds the text and button, the gallery, or both.
- Page chrome drawn from the palette (gradient, surface token, accent swatch): presentation only. Palettes are modelled in full.
- The device frame, device selector, `Tag`, `Field`, `Section` and `PrettyRange` (its floating-point percentage and slider bounds): interface chrome. The slider bounds appear only as `InControlRanges`, a property of the controls, not a store invariant.
- Export plumbing (`JSON.stringify`, `Blob`, object URL, anchor click, the file name): I/O. `Export` gives the document that is written.
- The `FileReader` read, its asynchrony, the race between overlapping imports, and the alert dialog: I/O and concurrency. `ImportJSON` returns whether the alert is raised.
- `JSON.parse`: a foreign call. Its result is the abstract `Parsed` input.
- Serializer.Import: a truthy `cfg` that is not a full configuration tree (a number, a partial object) is installed by the source without checks. The model's document can only carry a complete `Config`, so it does not capture the malformed states that follow.
- Serializer.Import: a `theme` field that is not a string (for example an array coerced to a key) is treated as absent.
- A malformed path string (a TypeError, or a new key created silently): the `Path` datatype cannot express it, and `ParsePath` returns None.
- ConfigStore.Editor.Update: a value the wrong kind for its leaf (a string at a numeric leaf) is excluded by `Fits`, because the typed configuration cannot hold it. The controls always pass the right kind.
- Registry.InheritedMemberText: the exact text a native function prints depends on the JavaScript engine. The model uses the form the common engines print, and its contract promises only the "function " prefix.
- Numbers are integers. The sliders step by 1, so fractional values arise only through import, and floating point is not modelled.

## Findings

| source | as written | input that shows it | evidently intended | confidence | as-written member | corrected member |
|---|---|---|---|---|---|---|
| src/App.jsx:333 | `parsed.theme && themes[parsed.theme]` looks the name up on a plain object, so names inherited from `Object.prototype` pass the test | an imported file `{"theme": "toString"}` (also `"__proto__"`, `"constructor"`, ...) sets the theme to a name with no palette; `palette.grad`, `palette.primary` and the rest become undefined | only the four registered theme names switch the theme; any other name leaves it unchanged | not executed; high | `Serializer.ImportAsWritten`, `Serializer.ImportAsWrittenAcceptsInheritedName` | `Serializer.Import`, `Serializer.ImportKeepsRegisteredTheme`, `ConfigStore.RunKeepsRegisteredTheme` (used by `ConfigStore.Editor.ImportJSON`) |
