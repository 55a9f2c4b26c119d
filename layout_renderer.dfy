/**
 * The derivation of concrete rendering parameters from a configuration and
 * a palette, for the two layout variants. Variant A is a single card with a
 * text/call-to-action region beside a six-image grid; variant B is a sidebar
 * card holding the text and button beside a main card holding the grid.
 * Both consume the same parameters through the same rules.
 */
module LayoutRenderer {
  import opened ConfigTree
  import opened Registry

  datatype Variant = VariantA | VariantB

  /** What a bordered card holds: the text and button, the gallery, or both. */
  datatype Slot = TextAndButton | GalleryGrid | TextButtonAndGallery

  /**
   * Contents, border and spacing of one bordered card: A has one card
   * holding everything, B a sidebar card with the text and button and a
   * main card with the gallery.
   */
  datatype Card = Card(slot: Slot, borderColor: string, borderWidth: int, radius: int, padding: int)

  /** The config-derived values a layout variant draws with. */
  datatype RenderSpec = RenderSpec(
    variant: Variant,
    background: string,
    fontFamily: string,
    padding: int,
    cards: seq<Card>,
    headingWeight: int,
    headingSize: int,
    bodySize: int,
    buttonJustify: string,
    buttonShadow: string,
    buttonBg: string,
    buttonColor: string,
    buttonRadius: int,
    galleryJustify: string,
    galleryGap: int,
    imageCount: nat,
    imageRadius: int,
    imageBorderWidth: int,
    imageBorderColor: string)

  /** The three justification classes an alignment can produce. */
  const JustifyClasses: set<string> := {"justify-start", "justify-center", "justify-end"}

  /** Flex justification for an alignment; any value other than "left" or "center" justifies to the end. */
  function Justify(align: string): (r: string)
    ensures r in JustifyClasses
    ensures r == "justify-start" <==> align == "left"
    ensures r == "justify-center" <==> align == "center"
    ensures r == "justify-end" <==> align != "left" && align != "center"
  {
    if align == "left" then "justify-start"
    else if align == "center" then "justify-center"
    else "justify-end"
  }

  /**
   * The class token for a shadow style, as the class template prints the
   * shadow table's entry. A name inherited by every object looks up the
   * inherited member, which prints as its text; any other name outside the
   * table looks up `undefined`, which prints as "undefined".
   */
  function ShadowClass(shadow: string): (r: string)
    ensures shadow in ShadowMap ==> r == ShadowMap[shadow]
    ensures shadow in InheritedNames ==> r == InheritedMemberText(shadow)
    ensures shadow !in ShadowMap && shadow !in InheritedNames ==> r == "undefined"
  {
    if shadow in ShadowMap then ShadowMap[shadow]
    else if shadow in InheritedNames then InheritedMemberText(shadow)
    else "undefined"
  }

  /**
   * The four shadow styles give four distinct classes, "none" the empty one,
   * and no name outside the table gives one of them.
   */
  lemma ShadowClassesDistinct(other: string)
    ensures ShadowClass("none") == "" && ShadowClass("small") == "shadow"
    ensures ShadowClass("medium") == "shadow-md" && ShadowClass("large") == "shadow-xl"
    ensures forall a, b :: a in ShadowMap && b in ShadowMap && a != b ==> ShadowClass(a) != ShadowClass(b)
    ensures other !in ShadowMap ==> forall k :: k in ShadowMap ==> ShadowClass(other) != ShadowMap[k]
  {
  }

  /** JavaScript `a || b` on strings: `a` unless it is the empty (falsy) string. */
  function OrElse(a: string, b: string): (r: string)
    ensures a != "" ==> r == a
    ensures a == "" ==> r == b
  {
    if a != "" then a else b
  }

  /** Number of images in either variant's gallery grid. */
  const GalleryImages: nat := 6

  /** The card style both variants give every bordered card. */
  function CardOf(c: Config, slot: Slot): Card
  {
    Card(slot, c.stroke.color, c.stroke.weight, c.layout.cardRadius, c.layout.padding)
  }

  /** The rules both variants share; only the variant tag, heading offset and card count differ. */
  function Derive(c: Config, p: Palette, variant: Variant, headingOffset: int, slots: seq<Slot>): RenderSpec
  {
    RenderSpec(
      variant,
      c.layout.bg,
      c.typography.family,
      c.layout.padding,
      seq(|slots|, i requires 0 <= i < |slots| => CardOf(c, slots[i])),
      c.typography.weight,
      c.typography.size + headingOffset,
      c.typography.size,
      Justify(c.button.align),
      ShadowClass(c.button.shadow),
      OrElse(c.button.bg, p.primary),
      OrElse(c.button.text, p.textOnPrimary),
      c.button.radius,
      Justify(c.gallery.align),
      c.gallery.gap,
      GalleryImages,
      c.gallery.radius,
      c.stroke.weight,
      c.stroke.color)
  }

  /** Variant A: one card, heading eight pixels above the body size. */
  function LayoutA(c: Config, p: Palette): (r: RenderSpec)
    ensures r.variant == VariantA && |r.cards| == 1 && r.cards[0].slot == TextButtonAndGallery
    ensures r.headingSize == c.typography.size + 8
  {
    Derive(c, p, VariantA, 8, [TextButtonAndGallery])
  }

  /** Variant B: a sidebar card and a main card, heading six pixels above the body size. */
  function LayoutB(c: Config, p: Palette): (r: RenderSpec)
    ensures r.variant == VariantB && |r.cards| == 2
    ensures r.cards[0].slot == TextAndButton && r.cards[1].slot == GalleryGrid
    ensures r.headingSize == c.typography.size + 6
  {
    Derive(c, p, VariantB, 6, [TextAndButton, GalleryGrid])
  }

  /** The active layout: variant A exactly when `currentLayout` is "A", otherwise B. */
  function Render(c: Config, p: Palette): (r: RenderSpec)
    ensures r.variant == VariantA <==> c.currentLayout == "A"
  {
    if c.currentLayout == "A" then LayoutA(c, p) else LayoutB(c, p)
  }

  /**
   * Numbers pass through unchanged: padding, card radius, stroke weight,
   * gallery gap and image radius, button radius, font weight and body size;
   * the heading is eight (A) or six (B) pixels larger than the body. The
   * font family passes through too, the grid holds six images, and A has
   * one card where B has two.
   */
  lemma RenderPassesNumbersThrough(c: Config, p: Palette)
    ensures var r := Render(c, p);
      && r.padding == c.layout.padding
      && r.galleryGap == c.gallery.gap
      && r.imageRadius == c.gallery.radius
      && r.imageBorderWidth == c.stroke.weight
      && r.buttonRadius == c.button.radius
      && r.headingWeight == c.typography.weight
      && r.bodySize == c.typography.size
      && r.headingSize == c.typography.size + (if c.currentLayout == "A" then 8 else 6)
      && r.fontFamily == c.typography.family
      && r.imageCount == 6
      && |r.cards| == (if c.currentLayout == "A" then 1 else 2)
      && (forall k :: 0 <= k < |r.cards| ==>
            r.cards[k].borderWidth == c.stroke.weight && r.cards[k].radius == c.layout.cardRadius
            && r.cards[k].padding == c.layout.padding)
  {
  }

  /**
   * Colours: the button background is `button.bg` unless empty, else the
   * palette's primary; the button text colour is `button.text` unless
   * empty, else the palette's text-on-primary; stroke and section colours
   * come from the configuration alone.
   */
  lemma RenderColourFallback(c: Config, p: Palette)
    ensures var r := Render(c, p);
      && r.buttonBg == (if c.button.bg != "" then c.button.bg else p.primary)
      && r.buttonColor == (if c.button.text != "" then c.button.text else p.textOnPrimary)
      && r.background == c.layout.bg
      && r.imageBorderColor == c.stroke.color
      && (forall k :: 0 <= k < |r.cards| ==> r.cards[k].borderColor == c.stroke.color)
  {
  }

  /** Button and gallery alignment follow one mapping; the shadow class comes from the shadow table. */
  lemma RenderAlignmentAndShadow(c: Config, p: Palette)
    ensures var r := Render(c, p);
      && r.buttonJustify == Justify(c.button.align)
      && r.galleryJustify == Justify(c.gallery.align)
      && r.buttonJustify in JustifyClasses && r.galleryJustify in JustifyClasses
      && (c.button.align == c.gallery.align ==> r.buttonJustify == r.galleryJustify)
      && r.buttonShadow == ShadowClass(c.button.shadow)
  {
  }

  /** The two variants consume the same parameters: they agree on everything but the slotting, and every card is styled alike. */
  lemma VariantsShareRules(c: Config, p: Palette)
    ensures var a, b := LayoutA(c, p), LayoutB(c, p);
      && a.(variant := VariantB, headingSize := b.headingSize, cards := b.cards) == b
      && a.headingSize == b.headingSize + 2
      && a.cards[0].(slot := TextAndButton) == b.cards[0]
      && a.cards[0].(slot := GalleryGrid) == b.cards[1]
  {
  }

  /** The palette matters only where a button colour is left empty. */
  lemma PaletteOnlyFillsEmptyColours(c: Config, p: Palette, q: Palette)
    requires c.button.bg != "" && c.button.text != ""
    ensures Render(c, p) == Render(c, q)
  {
  }

  /** With a registered theme, both button colours are always non-empty. */
  lemma {:induction false} ButtonColoursNonEmpty(c: Config, name: string)
    requires name in Themes
    ensures Render(c, Themes[name]).buttonBg != "" && Render(c, Themes[name]).buttonColor != ""
  {
    PalettesHaveColours(name);
  }
}
