/**
 * The editor's state and its transitions. The component holds the current
 * configuration and the theme name; user actions replace them. `Step` is
 * the specification of one action, `Run` of a session of actions, and the
 * `Editor` class holds the two state fields its methods update.
 */
module ConfigStore {
  import opened Options
  import opened ConfigTree
  import opened Registry
  import opened PathMutator
  import opened LayoutRenderer
  import opened Serializer

  /** A user action on the editor. */
  datatype Action =
    | Update(path: Path, value: Leaf)
    | ChoosePreset(preset: string)
    | Reset
    | ChooseTheme(theme: string)
    | ImportFile(parsed: Parsed)

  /** The action is one the controls can issue: a fitting leaf value, a listed preset or theme. */
  predicate Issuable(a: Action)
  {
    match a
    case Update(p, v) => Fits(p, v)
    case ChoosePreset(k) => k in Presets
    case ChooseTheme(t) => t in Themes
    case Reset => true
    case ImportFile(_) => true
  }

  /** The state in which the editor starts. */
  const Initial: EditorState := EditorState(DefaultConfig, InitialTheme)

  /** The state after one action. */
  function Step(s: EditorState, a: Action): (t: EditorState)
    requires Issuable(a)
    ensures a.Update? ==> t.theme == s.theme && t.cfg == Set(s.cfg, a.path, a.value)
    ensures a.ChoosePreset? ==> t == EditorState(Presets[a.preset], s.theme)
    ensures a.Reset? ==> t == EditorState(Presets["Commerce"], s.theme)
    ensures a.ChooseTheme? ==> t == EditorState(s.cfg, a.theme)
    ensures a.ImportFile? ==> t == AfterImport(s, a.parsed)
  {
    match a
    case Update(p, v) => s.(cfg := Set(s.cfg, p, v))
    case ChoosePreset(k) => s.(cfg := Presets[k])
    case Reset => s.(cfg := DefaultConfig)
    case ChooseTheme(t) => s.(theme := t)
    case ImportFile(p) => AfterImport(s, p)
  }

  /** Every action of the session is one the controls can issue. */
  predicate AllIssuable(acts: seq<Action>)
  {
    forall i :: 0 <= i < |acts| ==> Issuable(acts[i])
  }

  /** The state after a session of actions, applied in order. */
  function Run(s: EditorState, acts: seq<Action>): EditorState
    requires AllIssuable(acts)
    decreases |acts|
  {
    if acts == [] then s else Run(Step(s, acts[0]), acts[1..])
  }

  /** A session split in two runs as its first part followed by its second. */
  lemma {:induction false} RunAppend(s: EditorState, xs: seq<Action>, ys: seq<Action>)
    requires AllIssuable(xs) && AllIssuable(ys)
    ensures AllIssuable(xs + ys)
    ensures Run(s, xs + ys) == Run(Run(s, xs), ys)
    decreases |xs|
  {
    assert AllIssuable(xs + ys) by {
      forall i | 0 <= i < |xs + ys| ensures Issuable((xs + ys)[i]) {
        if i < |xs| { assert (xs + ys)[i] == xs[i]; } else { assert (xs + ys)[i] == ys[i - |xs|]; }
      }
    }
    if xs == [] {
      assert xs + ys == ys;
    } else {
      assert (xs + ys)[0] == xs[0];
      assert (xs + ys)[1..] == xs[1..] + ys;
      RunAppend(Step(s, xs[0]), xs[1..], ys);
    }
  }

  /** Whatever the session, the editor's theme stays a registered palette name. */
  lemma {:induction false} RunKeepsRegisteredTheme(s: EditorState, acts: seq<Action>)
    requires s.theme in Themes && AllIssuable(acts)
    ensures Run(s, acts).theme in Themes
    decreases |acts|
  {
    if acts != [] {
      if acts[0].ImportFile? {
        ImportKeepsRegisteredTheme(s, acts[0].parsed);
      }
      RunKeepsRegisteredTheme(Step(s, acts[0]), acts[1..]);
    }
  }

  /** After any session, a reset yields the Commerce preset and keeps the theme. */
  lemma {:induction false} ResetAfterAnySession(s: EditorState, acts: seq<Action>)
    requires AllIssuable(acts)
    ensures AllIssuable(acts + [Reset])
    ensures Run(s, acts + [Reset]) == EditorState(Presets["Commerce"], Run(s, acts).theme)
  {
    RunAppend(s, acts, [Reset]);
  }

  /** Choosing a preset replaces the whole configuration: the prior one leaves no trace. */
  lemma PresetReplacesWholeConfig(s: EditorState, u: EditorState, k: string)
    requires k in Presets
    ensures Step(s, ChoosePreset(k)).cfg == Step(u, ChoosePreset(k)).cfg == Presets[k]
  {
  }

  /** A malformed file changes neither the configuration nor the theme. */
  lemma MalformedImportIsNoOp(s: EditorState, p: Parsed)
    requires p.SyntaxError? || p.ParsedNull?
    ensures Step(s, ImportFile(p)) == s
  {
  }

  /**
   * From the starting state, setting the button radius to 40 gives that
   * radius and keeps the alignment and every other sub-object.
   */
  lemma ButtonRadiusScenario()
    ensures var t := Step(Initial, Update(ButtonRadius, Number(40)));
      && t.cfg.button.radius == 40
      && t.cfg.button.align == Initial.cfg.button.align
      && t.cfg.typography == Initial.cfg.typography && t.cfg.gallery == Initial.cfg.gallery
      && t.cfg.layout == Initial.cfg.layout && t.cfg.stroke == Initial.cfg.stroke
      && t.theme == Initial.theme
  {
  }

  /** `v` is a value the control bound to leaf `p` can produce. */
  predicate Offered(p: Path, v: Leaf)
  {
    match p
    case TypographyFamily => v.Text? && v.s in Families
    case TypographyWeight => v.Number? && v.n in Weights
    case TypographySize => v.Number? && 10 <= v.n <= 60
    case ButtonRadius => v.Number? && 0 <= v.n <= 40
    case ButtonShadow => v.Text? && v.s in ShadowMap
    case ButtonAlign => v.Text? && v.s in Alignments
    case ButtonBg => v.Text? && IsHexColour(v.s)
    case ButtonText => v.Text? && IsHexColour(v.s)
    case GalleryAlign => v.Text? && v.s in Alignments
    case GalleryGap => v.Number? && 0 <= v.n <= 32
    case GalleryRadius => v.Number? && 0 <= v.n <= 36
    case LayoutCardRadius => v.Number? && 0 <= v.n <= 36
    case LayoutPadding => v.Number? && 0 <= v.n <= 48
    case LayoutBg => v.Text? && IsHexColour(v.s)
    case StrokeColor => v.Text? && IsHexColour(v.s)
    case StrokeWeight => v.Number? && 0 <= v.n <= 6
    case CurrentLayout => v.Text? && v.s in ["A", "B"]
  }

  /** Each leaf of a configuration within the control ranges holds an offered value. */
  lemma OfferedAtLeaf(c: Config, p: Path)
    requires InControlRanges(c)
    ensures Offered(p, Get(c, p))
  {
  }

  /** A configuration whose every leaf holds an offered value is within the control ranges. */
  lemma {:induction false} RangesFromLeaves(c: Config)
    requires forall p :: Offered(p, Get(c, p))
    ensures InControlRanges(c)
  {
    assert c.typography.family in Families by { assert Offered(TypographyFamily, Get(c, TypographyFamily)); }
    assert c.typography.weight in Weights by { assert Offered(TypographyWeight, Get(c, TypographyWeight)); }
    assert 10 <= c.typography.size <= 60 by { assert Offered(TypographySize, Get(c, TypographySize)); }
    assert 0 <= c.button.radius <= 40 by { assert Offered(ButtonRadius, Get(c, ButtonRadius)); }
    assert c.button.shadow in ShadowMap by { assert Offered(ButtonShadow, Get(c, ButtonShadow)); }
    assert c.button.align in Alignments by { assert Offered(ButtonAlign, Get(c, ButtonAlign)); }
    assert IsHexColour(c.button.bg) by { assert Offered(ButtonBg, Get(c, ButtonBg)); }
    assert IsHexColour(c.button.text) by { assert Offered(ButtonText, Get(c, ButtonText)); }
    assert c.gallery.align in Alignments by { assert Offered(GalleryAlign, Get(c, GalleryAlign)); }
    assert 0 <= c.gallery.gap <= 32 by { assert Offered(GalleryGap, Get(c, GalleryGap)); }
    assert 0 <= c.gallery.radius <= 36 by { assert Offered(GalleryRadius, Get(c, GalleryRadius)); }
    assert 0 <= c.layout.cardRadius <= 36 by { assert Offered(LayoutCardRadius, Get(c, LayoutCardRadius)); }
    assert 0 <= c.layout.padding <= 48 by { assert Offered(LayoutPadding, Get(c, LayoutPadding)); }
    assert IsHexColour(c.layout.bg) by { assert Offered(LayoutBg, Get(c, LayoutBg)); }
    assert IsHexColour(c.stroke.color) by { assert Offered(StrokeColor, Get(c, StrokeColor)); }
    assert 0 <= c.stroke.weight <= 6 by { assert Offered(StrokeWeight, Get(c, StrokeWeight)); }
    assert c.currentLayout in ["A", "B"] by { assert Offered(CurrentLayout, Get(c, CurrentLayout)); }
  }

  /** A configuration is within the control ranges exactly when every leaf holds an offered value. */
  lemma {:induction false} ControlRangesByLeaf(c: Config)
    ensures InControlRanges(c) <==> forall p :: Offered(p, Get(c, p))
  {
    if InControlRanges(c) {
      forall p ensures Offered(p, Get(c, p)) {
        OfferedAtLeaf(c, p);
      }
    }
    if forall p :: Offered(p, Get(c, p)) {
      RangesFromLeaves(c);
    }
  }

  /** Setting a leaf to a value its control offers keeps the configuration within the control ranges. */
  lemma {:induction false} UpdateKeepsControlRanges(c: Config, p: Path, v: Leaf)
    requires InControlRanges(c) && Offered(p, v)
    ensures Fits(p, v) && InControlRanges(Set(c, p, v))
  {
    ControlRangesByLeaf(c);
    forall q ensures Offered(q, Get(Set(c, p, v), q)) {
      SetOnlyThatLeaf(c, p, v, q);
    }
    ControlRangesByLeaf(Set(c, p, v));
  }

  /** The application component: the current configuration and theme, changed by user actions. */
  class Editor {
    var cfg: Config
    var theme: string

    /** The editor's view of its state. */
    function State(): EditorState
      reads this
    {
      EditorState(cfg, theme)
    }

    /** The theme always names a registered palette. */
    predicate Valid()
      reads this
    {
      theme in Themes
    }

    /** The editor starts on the baseline configuration with the Aurora theme. */
    constructor ()
      ensures Valid() && State() == Initial
    {
      cfg := DefaultConfig;
      theme := InitialTheme;
    }

    /** `update(path, value)`: replace the configuration by a copy with the one leaf changed. */
    method Update(p: Path, v: Leaf)
      requires Valid() && Fits(p, v)
      modifies this
      ensures Valid() && State() == Step(old(State()), Action.Update(p, v))
    {
      cfg := Set(cfg, p, v);
    }

    /** A preset button: install a copy of the preset. */
    method SelectPreset(k: string)
      requires Valid() && k in Presets
      modifies this
      ensures Valid() && State() == Step(old(State()), ChoosePreset(k))
    {
      cfg := Presets[k];
    }

    /** The reset button: install a copy of the baseline configuration. */
    method ResetConfig()
      requires Valid()
      modifies this
      ensures Valid() && State() == Step(old(State()), Reset)
    {
      cfg := DefaultConfig;
    }

    /** A theme selector or theme button: switch to a listed theme. */
    method SelectTheme(t: string)
      requires Valid() && t in Themes
      modifies this
      ensures Valid() && State() == Step(old(State()), ChooseTheme(t))
    {
      theme := t;
    }

    /** Import a parsed file; `alerted` reports the "Invalid JSON" alert. */
    method ImportJSON(parsed: Parsed) returns (alerted: bool)
      requires Valid()
      modifies this
      ensures Valid() && State() == Step(old(State()), ImportFile(parsed))
      ensures alerted <==> !parsed.Parsed?
    {
      match parsed {
        case SyntaxError => alerted := true;
        case ParsedNull => alerted := true;
        case Parsed(doc) =>
          alerted := false;
          if doc.cfg.Some? {
            cfg := doc.cfg.value;
          }
          if ThemeAccepted(doc.theme) {
            theme := doc.theme.value;
          }
      }
    }

    /** The document the export button writes. */
    method ExportJSON() returns (d: Document)
      requires Valid()
      ensures d.cfg.Some? && d.cfg.value == cfg && d.theme.Some? && d.theme.value == theme
      ensures Import(State(), Parsed(d)) == Applied(State())
    {
      d := Document(Some(cfg), Some(theme));
      ExportImportRoundTrip(State(), State());
    }

    /** The live preview: the active layout with the current theme's palette. */
    method Preview() returns (r: RenderSpec)
      requires Valid()
      ensures r == Render(cfg, Themes[theme])
      ensures r.buttonBg != "" && r.buttonColor != ""
    {
      ButtonColoursNonEmpty(cfg, theme);
      if cfg.currentLayout == "A" {
        r := LayoutA(cfg, Themes[theme]);
      } else {
        r := LayoutB(cfg, Themes[theme]);
      }
    }
  }
}
