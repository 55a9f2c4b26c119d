/**
 * Export and import of the editor state as a document with two top-level
 * fields, `cfg` and `theme`. Turning text into a document and back is a
 * foreign call; here the parser's outcome is an abstract input and
 * `Export` gives the document whose text the exporter writes.
 */
module Serializer {
  import opened Options
  import opened ConfigTree
  import opened Registry

  /**
   * The two fields of a parsed document as the importer reads them. A field
   * is None when it is absent or falsy; `cfg` is taken to be a
   * configuration tree whenever it is present.
   */
  datatype Document = Document(cfg: Option<Config>, theme: Option<string>)

  /**
   * What parsing the file text gives: a syntax error; the `null` value,
   * whose field access throws inside the same guarded block; or any other
   * value, read through its `cfg` and `theme` fields.
   */
  datatype Parsed = SyntaxError | ParsedNull | Parsed(doc: Document)

  /** The outcome of an import: the new editor state, or the "Invalid JSON" alert with no change. */
  datatype ImportResult = Applied(state: EditorState) | InvalidFormat

  /** The document written for state `s`: both fields populated. */
  function Export(s: EditorState): (d: Document)
    ensures d.cfg == Some(s.cfg) && d.theme == Some(s.theme)
  {
    Document(Some(s.cfg), Some(s.theme))
  }

  /** The importer's theme test: a non-empty string naming a registered palette. */
  predicate ThemeAccepted(theme: Option<string>)
  {
    theme.Some? && theme.value != "" && theme.value in Themes
  }

  /**
   * Importing into state `s`: a present `cfg` replaces the configuration
   * wholesale and unvalidated; the theme switches only to a registered
   * palette name; a parse failure changes nothing and raises the alert.
   */
  function Import(s: EditorState, p: Parsed): (r: ImportResult)
    ensures r.InvalidFormat? <==> !p.Parsed?
    ensures r.Applied? && p.doc.cfg.Some? ==> r.state.cfg == p.doc.cfg.value
    ensures r.Applied? && p.doc.cfg.None? ==> r.state.cfg == s.cfg
    ensures r.Applied? && r.state.theme != s.theme ==> p.doc.theme == Some(r.state.theme)
    ensures r.Applied? && ThemeAccepted(p.doc.theme) ==> r.state.theme == p.doc.theme.value
    ensures r.Applied? && !ThemeAccepted(p.doc.theme) ==> r.state.theme == s.theme
  {
    match p
    case SyntaxError => InvalidFormat
    case ParsedNull => InvalidFormat
    case Parsed(doc) =>
      var cfg := if doc.cfg.Some? then doc.cfg.value else s.cfg;
      var theme := if ThemeAccepted(doc.theme) then doc.theme.value else s.theme;
      Applied(EditorState(cfg, theme))
  }

  /** The state the editor holds after an import: an alert leaves it as it was. */
  function AfterImport(s: EditorState, p: Parsed): (t: EditorState)
    ensures !p.Parsed? ==> t == s
    ensures p.Parsed? ==> t == Import(s, p).state
  {
    match Import(s, p)
    case Applied(t) => t
    case InvalidFormat => s
  }

  /** An import never leaves the editor on an unregistered theme. */
  lemma ImportKeepsRegisteredTheme(s: EditorState, p: Parsed)
    requires s.theme in Themes
    ensures AfterImport(s, p).theme in Themes
  {
  }

  /** Importing the exported document restores the exported state, whatever the state before. */
  lemma ExportImportRoundTrip(s: EditorState, before: EditorState)
    requires s.theme in Themes
    ensures Import(before, Parsed(Export(s))) == Applied(s)
  {
  }

  /** Importing the same document twice has the effect of importing it once. */
  lemma ImportIdempotent(s: EditorState, p: Parsed)
    ensures AfterImport(AfterImport(s, p), p) == AfterImport(s, p)
  {
  }

  /** A document naming an unknown theme still installs its configuration and keeps the theme. */
  lemma UnknownThemeKeepsTheme(s: EditorState, c: Config, name: string)
    requires name !in Themes
    ensures AfterImport(s, Parsed(Document(Some(c), Some(name)))) == EditorState(c, s.theme)
  {
  }

  /**
   * The theme test as the importer writes it, `parsed.theme && themes[parsed.theme]`:
   * the property lookup also succeeds for inherited names.
   */
  predicate ThemeAcceptedAsWritten(theme: Option<string>)
  {
    theme.Some? && theme.value != "" && (theme.value in Themes || theme.value in InheritedNames)
  }

  /** The import as written, with the inherited-name lookup. */
  function ImportAsWritten(s: EditorState, p: Parsed): (r: ImportResult)
    ensures r.InvalidFormat? <==> !p.Parsed?
    ensures r.Applied? && ThemeAcceptedAsWritten(p.doc.theme) ==> r.state.theme == p.doc.theme.value
  {
    match p
    case SyntaxError => InvalidFormat
    case ParsedNull => InvalidFormat
    case Parsed(doc) =>
      var cfg := if doc.cfg.Some? then doc.cfg.value else s.cfg;
      var theme := if ThemeAcceptedAsWritten(doc.theme) then doc.theme.value else s.theme;
      Applied(EditorState(cfg, theme))
  }

  /** As written, a document with theme "toString" switches the editor to a name with no palette. */
  lemma ImportAsWrittenAcceptsInheritedName()
    ensures var s := EditorState(DefaultConfig, InitialTheme);
      var r := ImportAsWritten(s, Parsed(Document(None, Some("toString"))));
      r.Applied? && r.state.theme == "toString" && r.state.theme !in Themes
  {
  }

  /** The corrected import agrees with the written one on every registered or absent theme name. */
  lemma ImportAgreesOffInheritedNames(s: EditorState, p: Parsed)
    requires p.Parsed? ==> p.doc.theme.None? || p.doc.theme.value !in InheritedNames
    ensures Import(s, p) == ImportAsWritten(s, p)
  {
  }
}
