/**
 * Leaf-level mutation of a configuration. The editor addresses a leaf by a
 * dot-delimited path string and walks the keys of a fresh clone; here the
 * seventeen valid leaf paths are a closed datatype, so a path that does not
 * resolve cannot be written, and the clone is implicit in value semantics.
 */
module PathMutator {
  import opened Options
  import opened ConfigTree

  /** The seventeen leaves of a configuration. */
  datatype Path =
    | TypographyFamily | TypographyWeight | TypographySize
    | ButtonRadius | ButtonShadow | ButtonAlign | ButtonBg | ButtonText
    | GalleryAlign | GalleryGap | GalleryRadius
    | LayoutCardRadius | LayoutPadding | LayoutBg
    | StrokeColor | StrokeWeight
    | CurrentLayout

  /** The value at a leaf: a string or a number. */
  datatype Leaf = Text(s: string) | Number(n: int)

  /** Whether the leaf at `p` holds a string (otherwise it holds a number). */
  predicate IsTextPath(p: Path)
  {
    p in {TypographyFamily, ButtonShadow, ButtonAlign, ButtonBg, ButtonText,
          GalleryAlign, LayoutBg, StrokeColor, CurrentLayout}
  }

  /** `v` is of the kind the leaf at `p` holds. */
  predicate Fits(p: Path, v: Leaf)
  {
    v.Text? == IsTextPath(p)
  }

  /** The dot-delimited path string by which the controls address the leaf. */
  function PathName(p: Path): string
  {
    match p
    case TypographyFamily => "typography.family"
    case TypographyWeight => "typography.weight"
    case TypographySize => "typography.size"
    case ButtonRadius => "button.radius"
    case ButtonShadow => "button.shadow"
    case ButtonAlign => "button.align"
    case ButtonBg => "button.bg"
    case ButtonText => "button.text"
    case GalleryAlign => "gallery.align"
    case GalleryGap => "gallery.gap"
    case GalleryRadius => "gallery.radius"
    case LayoutCardRadius => "layout.cardRadius"
    case LayoutPadding => "layout.padding"
    case LayoutBg => "layout.bg"
    case StrokeColor => "stroke.color"
    case StrokeWeight => "stroke.weight"
    case CurrentLayout => "currentLayout"
  }

  /** The leaf a path string resolves to, or None when it resolves to no leaf. */
  function ParsePath(s: string): (r: Option<Path>)
    ensures r.Some? ==> PathName(r.value) == s
    ensures r.None? ==> forall q :: PathName(q) != s
  {
    if s == "typography.family" then Some(TypographyFamily)
    else if s == "typography.weight" then Some(TypographyWeight)
    else if s == "typography.size" then Some(TypographySize)
    else if s == "button.radius" then Some(ButtonRadius)
    else if s == "button.shadow" then Some(ButtonShadow)
    else if s == "button.align" then Some(ButtonAlign)
    else if s == "button.bg" then Some(ButtonBg)
    else if s == "button.text" then Some(ButtonText)
    else if s == "gallery.align" then Some(GalleryAlign)
    else if s == "gallery.gap" then Some(GalleryGap)
    else if s == "gallery.radius" then Some(GalleryRadius)
    else if s == "layout.cardRadius" then Some(LayoutCardRadius)
    else if s == "layout.padding" then Some(LayoutPadding)
    else if s == "layout.bg" then Some(LayoutBg)
    else if s == "stroke.color" then Some(StrokeColor)
    else if s == "stroke.weight" then Some(StrokeWeight)
    else if s == "currentLayout" then Some(CurrentLayout)
    else None
  }

  /** Every leaf's path string resolves back to that leaf, and only those strings resolve. */
  lemma ParsePathName(p: Path, s: string)
    ensures ParsePath(PathName(p)) == Some(p)
    ensures ParsePath(s) == Some(p) <==> PathName(p) == s
  {
  }

  /** The value at leaf `p` of `c`. */
  function Get(c: Config, p: Path): (v: Leaf)
    ensures Fits(p, v)
  {
    match p
    case TypographyFamily => Text(c.typography.family)
    case TypographyWeight => Number(c.typography.weight)
    case TypographySize => Number(c.typography.size)
    case ButtonRadius => Number(c.button.radius)
    case ButtonShadow => Text(c.button.shadow)
    case ButtonAlign => Text(c.button.align)
    case ButtonBg => Text(c.button.bg)
    case ButtonText => Text(c.button.text)
    case GalleryAlign => Text(c.gallery.align)
    case GalleryGap => Number(c.gallery.gap)
    case GalleryRadius => Number(c.gallery.radius)
    case LayoutCardRadius => Number(c.layout.cardRadius)
    case LayoutPadding => Number(c.layout.padding)
    case LayoutBg => Text(c.layout.bg)
    case StrokeColor => Text(c.stroke.color)
    case StrokeWeight => Number(c.stroke.weight)
    case CurrentLayout => Text(c.currentLayout)
  }

  /**
   * The configuration `c` with the leaf at `p` replaced by `v`: the copy
   * that `update(path, value)` builds. The argument `c` is a value and is
   * never altered.
   */
  function Set(c: Config, p: Path, v: Leaf): Config
    requires Fits(p, v)
  {
    match p
    case TypographyFamily => c.(typography := c.typography.(family := v.s))
    case TypographyWeight => c.(typography := c.typography.(weight := v.n))
    case TypographySize => c.(typography := c.typography.(size := v.n))
    case ButtonRadius => c.(button := c.button.(radius := v.n))
    case ButtonShadow => c.(button := c.button.(shadow := v.s))
    case ButtonAlign => c.(button := c.button.(align := v.s))
    case ButtonBg => c.(button := c.button.(bg := v.s))
    case ButtonText => c.(button := c.button.(text := v.s))
    case GalleryAlign => c.(gallery := c.gallery.(align := v.s))
    case GalleryGap => c.(gallery := c.gallery.(gap := v.n))
    case GalleryRadius => c.(gallery := c.gallery.(radius := v.n))
    case LayoutCardRadius => c.(layout := c.layout.(cardRadius := v.n))
    case LayoutPadding => c.(layout := c.layout.(padding := v.n))
    case LayoutBg => c.(layout := c.layout.(bg := v.s))
    case StrokeColor => c.(stroke := c.stroke.(color := v.s))
    case StrokeWeight => c.(stroke := c.stroke.(weight := v.n))
    case CurrentLayout => c.(currentLayout := v.s)
  }

  /** A configuration is determined by the values at its seventeen leaves. */
  lemma {:induction false} Extensionality(c: Config, d: Config)
    requires forall p :: Get(c, p) == Get(d, p)
    ensures c == d
  {
    assert Get(c, TypographyFamily) == Get(d, TypographyFamily);
    assert Get(c, TypographyWeight) == Get(d, TypographyWeight);
    assert Get(c, TypographySize) == Get(d, TypographySize);
    assert Get(c, ButtonRadius) == Get(d, ButtonRadius);
    assert Get(c, ButtonShadow) == Get(d, ButtonShadow);
    assert Get(c, ButtonAlign) == Get(d, ButtonAlign);
    assert Get(c, ButtonBg) == Get(d, ButtonBg);
    assert Get(c, ButtonText) == Get(d, ButtonText);
    assert Get(c, GalleryAlign) == Get(d, GalleryAlign);
    assert Get(c, GalleryGap) == Get(d, GalleryGap);
    assert Get(c, GalleryRadius) == Get(d, GalleryRadius);
    assert Get(c, LayoutCardRadius) == Get(d, LayoutCardRadius);
    assert Get(c, LayoutPadding) == Get(d, LayoutPadding);
    assert Get(c, LayoutBg) == Get(d, LayoutBg);
    assert Get(c, StrokeColor) == Get(d, StrokeColor);
    assert Get(c, StrokeWeight) == Get(d, StrokeWeight);
    assert Get(c, CurrentLayout) == Get(d, CurrentLayout);
  }

  /** After setting leaf `p` to `v`, the leaf at `p` reads `v` and every other leaf is unchanged. */
  lemma SetOnlyThatLeaf(c: Config, p: Path, v: Leaf, q: Path)
    requires Fits(p, v)
    ensures Get(Set(c, p, v), p) == v
    ensures q != p ==> Get(Set(c, p, v), q) == Get(c, q)
  {
  }

  /** Setting a leaf to the value it already holds leaves the configuration as it was. */
  lemma SetToSameValue(c: Config, p: Path)
    ensures Set(c, p, Get(c, p)) == c
  {
  }

  /**
   * `Set` is the only configuration with the targeted-mutation property:
   * any `d` that reads `v` at `p` and agrees with `c` elsewhere is `Set(c, p, v)`.
   */
  lemma {:induction false} SetUnique(c: Config, p: Path, v: Leaf, d: Config)
    requires Fits(p, v)
    requires Get(d, p) == v
    requires forall q :: q != p ==> Get(d, q) == Get(c, q)
    ensures d == Set(c, p, v)
  {
    forall q ensures Get(d, q) == Get(Set(c, p, v), q) {
      SetOnlyThatLeaf(c, p, v, q);
    }
    Extensionality(d, Set(c, p, v));
  }

  /** A later write to the same leaf overrides an earlier one. */
  lemma SetLastWriteWins(c: Config, p: Path, v: Leaf, w: Leaf)
    requires Fits(p, v) && Fits(p, w)
    ensures Set(Set(c, p, v), p, w) == Set(c, p, w)
  {
  }

  /** Writes to two different leaves commute. */
  lemma SetCommutes(c: Config, p: Path, v: Leaf, q: Path, w: Leaf)
    requires Fits(p, v) && Fits(q, w) && p != q
    ensures Set(Set(c, p, v), q, w) == Set(Set(c, q, w), p, v)
  {
  }
}
