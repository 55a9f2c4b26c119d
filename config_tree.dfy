/**
 * The fixed-shape style configuration tree held by the editor, the colour
 * palette a theme supplies, and the pair of values the editor keeps as state.
 *
 * Enumerated fields (font family, shadow, alignments, layout variant) are
 * strings: the editor compares them against string literals and falls back
 * on "any other value", and an imported document may carry any string.
 * Numeric fields are unbounded integers; colours are strings.
 */
module ConfigTree {

  datatype Typography = Typography(family: string, weight: int, size: int)

  datatype Button = Button(radius: int, shadow: string, align: string, bg: string, text: string)

  datatype Gallery = Gallery(align: string, gap: int, radius: int)

  datatype Layout = Layout(cardRadius: int, padding: int, bg: string)

  datatype Stroke = Stroke(color: string, weight: int)

  /** The whole configuration: five sub-objects plus the selected layout variant. */
  datatype Config = Config(
    typography: Typography,
    button: Button,
    gallery: Gallery,
    layout: Layout,
    stroke: Stroke,
    currentLayout: string)

  /** A named theme's colours and page-chrome tokens. */
  datatype Palette = Palette(
    grad: string,
    surface: string,
    primary: string,
    accent: string,
    textOnPrimary: string)

  /** The two pieces of state of the editor component: the configuration and the theme name. */
  datatype EditorState = EditorState(cfg: Config, theme: string)
}
