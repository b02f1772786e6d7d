/**
 * The design tokens of the site: one record chosen by the palette mode,
 * holding the colour palette, the typography, the corner radius and the
 * style overrides of the UI library's components.
 *
 * CSS values are held as structured values rather than as CSS text: a
 * colour `#3a86ff` is `Hex(0x3a86ff)`, `rgba(0, 0, 0, 0.08)` is
 * `Rgba(0, 0, 0, 80)` (alpha in thousandths), a `box-shadow` is its list of
 * layers, a `linear-gradient(...)` its angle and colour stops.
 */
module DesignTokens {
  import opened Wrappers

  datatype Mode = Light | Dark

  /** A CSS colour; `alphaMilli` is the alpha channel in thousandths. */
  datatype Color = Hex(rgb: nat) | Rgba(red: nat, green: nat, blue: nat, alphaMilli: nat)

  /** One `x y blur spread color` layer of a box shadow, lengths in px. */
  datatype Shadow = Shadow(x: int, y: int, blur: nat, spread: int, color: Color)

  /** A gradient colour stop, with its position in percent when one is written. */
  datatype Stop = Stop(color: Color, at: Option<nat>)

  /** `linear-gradient([<angle>deg,] <stops>)`. */
  datatype LinearGradient = LinearGradient(angleDeg: Option<nat>, stops: seq<Stop>)

  datatype ColorSet = ColorSet(main: Color, light: Color, dark: Color, contrastText: Color)

  datatype Palette = Palette(
    mode: Mode,
    primary: ColorSet,
    secondary: ColorSet,
    backgroundDefault: Color,
    backgroundPaper: Color,
    textPrimary: Color,
    textSecondary: Color,
    divider: Color,
    success: Color,
    info: Color,
    warning: Color,
    error: Color)

  /** A heading or button style; letter spacing in thousandths of an em. */
  datatype TextStyle = TextStyle(fontWeight: nat, letterSpacingMilliEm: Option<int>)

  datatype Typography = Typography(
    fontFamily: seq<string>,
    h1: TextStyle, h2: TextStyle, h3: TextStyle, h4: TextStyle, h5: TextStyle, h6: TextStyle,
    button: TextStyle,
    buttonTextTransform: string)

  /** A gradient background with the gradient shown on hover. */
  datatype Gradient = Gradient(background: LinearGradient, hoverBackground: LinearGradient)

  /** `transition: all <duration>s <easing>`; the easing is kept as written. */
  datatype Transition = Transition(durationMs: nat, easing: string)

  datatype ButtonRoot = ButtonRoot(
    borderRadius: nat, paddingY: nat, paddingX: nat, boxShadow: seq<Shadow>, transition: Transition,
    hoverTranslateY: int, hoverBoxShadow: seq<Shadow>)

  datatype CardRoot = CardRoot(
    borderRadius: nat, boxShadow: seq<Shadow>, overflow: string, transition: Transition,
    hoverBoxShadow: seq<Shadow>)

  /**
   * The root style of Paper: `backgroundImage` is `None` for CSS `none`,
   * and `backgroundColor` is only present in dark mode.
   */
  datatype PaperRoot = PaperRoot(backgroundImage: Option<LinearGradient>, backgroundColor: Option<Color>)

  datatype ChipRoot = ChipRoot(borderRadius: nat, fontWeight: nat)

  datatype Components = Components(
    buttonRoot: ButtonRoot,
    containedPrimary: Gradient,
    containedSecondary: Gradient,
    cardRoot: CardRoot,
    paperRoot: PaperRoot,
    paperElevation1: seq<Shadow>,
    paperElevation4: seq<Shadow>,
    appBarBackground: Color,
    appBarBackdropBlurPx: nat,
    appBarBoxShadow: seq<Shadow>,
    chipRoot: ChipRoot)

  datatype Tokens = Tokens(palette: Palette, typography: Typography, borderRadius: nat, components: Components)

  const White := Hex(0xffffff)

  function LightPalette(): Palette {
    Palette(
      Light,
      ColorSet(Hex(0x3a86ff), Hex(0x5e9fff), Hex(0x2563eb), White),
      ColorSet(Hex(0x8b5cf6), Hex(0xa78bfa), Hex(0x7c3aed), White),
      Hex(0xf8fafc), Hex(0xffffff),
      Hex(0x0f172a), Hex(0x475569),
      Rgba(0, 0, 0, 80),
      Hex(0x10b981), Hex(0x06b6d4), Hex(0xf59e0b), Hex(0xef4444))
  }

  function DarkPalette(): Palette {
    Palette(
      Dark,
      ColorSet(Hex(0x38bdf8), Hex(0x7dd3fc), Hex(0x0284c7), White),
      ColorSet(Hex(0xa855f7), Hex(0xc084fc), Hex(0x9333ea), White),
      Hex(0x0f172a), Hex(0x1e293b),
      Hex(0xf1f5f9), Hex(0x94a3b8),
      Rgba(255, 255, 255, 80),
      Hex(0x34d399), Hex(0x22d3ee), Hex(0xfbbf24), Hex(0xf87171))
  }

  function SiteTypography(): Typography {
    Typography(
      ["Inter", "Roboto", "Helvetica", "Arial", "sans-serif"],
      TextStyle(800, Some(-25)),
      TextStyle(700, Some(-25)),
      TextStyle(700, Some(-20)),
      TextStyle(600, Some(-15)),
      TextStyle(600, Some(-10)),
      TextStyle(600, None),
      TextStyle(600, None),
      "none")
  }

  /** A black shadow colour with the given alpha in thousandths. */
  function Black(alphaMilli: nat): Color {
    Rgba(0, 0, 0, alphaMilli)
  }

  function SiteButtonRoot(): ButtonRoot {
    ButtonRoot(
      8, 10, 20, [], Transition(200, "ease-in-out"), -2,
      [Shadow(0, 10, 25, -5, Black(100)), Shadow(0, 10, 10, -5, Black(40))])
  }

  function SiteChipRoot(): ChipRoot {
    ChipRoot(8, 500)
  }

  /** `linear-gradient(90deg, <from> 0%, <to> 100%)`. */
  function Horizontal(from: nat, to: nat): LinearGradient {
    LinearGradient(Some(90), [Stop(Hex(from), Some(0)), Stop(Hex(to), Some(100))])
  }

  function ContainedPrimary(mode: Mode): Gradient {
    match mode
    case Dark => Gradient(Horizontal(0x38bdf8, 0x818cf8), Horizontal(0x0ea5e9, 0x6366f1))
    case Light => Gradient(Horizontal(0x3a86ff, 0x8b5cf6), Horizontal(0x2563eb, 0x7c3aed))
  }

  function ContainedSecondary(mode: Mode): Gradient {
    match mode
    case Dark => Gradient(Horizontal(0xa855f7, 0xec4899), Horizontal(0x9333ea, 0xdb2777))
    case Light => Gradient(Horizontal(0x8b5cf6, 0xd946ef), Horizontal(0x7c3aed, 0xc026d3))
  }

  /** The Card shadow, at rest and on hover. */
  function CardShadows(mode: Mode): (seq<Shadow>, seq<Shadow>) {
    match mode
    case Dark =>
      ([Shadow(0, 10, 15, -3, Black(300)), Shadow(0, 4, 6, -2, Black(150))],
       [Shadow(0, 20, 25, -5, Black(400)), Shadow(0, 10, 10, -5, Black(200))])
    case Light =>
      ([Shadow(0, 10, 15, -3, Black(100)), Shadow(0, 4, 6, -2, Black(50))],
       [Shadow(0, 20, 25, -5, Black(150)), Shadow(0, 10, 10, -5, Black(100))])
  }

  function CardRootFor(mode: Mode): CardRoot {
    CardRoot(16, CardShadows(mode).0, "hidden", Transition(300, "cubic-bezier(0.25, 0.8, 0.25, 1)"),
      CardShadows(mode).1)
  }

  /** `backgroundImage: 'none'`, overridden in dark mode by a colour and a faint white gradient. */
  function PaperRootFor(mode: Mode): (r: PaperRoot)
    ensures r.backgroundColor.Some? <==> mode == Dark
    ensures r.backgroundImage.Some? <==> mode == Dark
  {
    match mode
    case Dark =>
      var veil := Rgba(255, 255, 255, 25);
      PaperRoot(Some(LinearGradient(None, [Stop(veil, None), Stop(veil, None)])), Some(Hex(0x1e293b)))
    case Light =>
      PaperRoot(None, None)
  }

  /** The Paper `elevation1` and `elevation4` shadows; the first is also the app bar's. */
  function ElevationShadows(mode: Mode): (seq<Shadow>, seq<Shadow>) {
    match mode
    case Dark =>
      ([Shadow(0, 1, 3, 0, Black(300)), Shadow(0, 1, 2, 0, Black(200))],
       [Shadow(0, 4, 6, -1, Black(300)), Shadow(0, 2, 4, -1, Black(200))])
    case Light =>
      ([Shadow(0, 1, 3, 0, Black(100)), Shadow(0, 1, 2, 0, Black(60))],
       [Shadow(0, 4, 6, -1, Black(100)), Shadow(0, 2, 4, -1, Black(60))])
  }

  function AppBarBackground(mode: Mode): Color {
    match mode
    case Dark => Rgba(15, 23, 42, 800)
    case Light => Rgba(255, 255, 255, 800)
  }

  function SelectComponents(mode: Mode): Components {
    Components(
      SiteButtonRoot(),
      ContainedPrimary(mode),
      ContainedSecondary(mode),
      CardRootFor(mode),
      PaperRootFor(mode),
      ElevationShadows(mode).0,
      ElevationShadows(mode).1,
      AppBarBackground(mode),
      10,
      ElevationShadows(mode).0,
      SiteChipRoot())
  }

  function PaletteFor(mode: Mode): (p: Palette)
    ensures p.mode == mode
  {
    match mode
    case Light => LightPalette()
    case Dark => DarkPalette()
  }

  /** The theme options for a palette mode. */
  function GetDesignTokens(mode: Mode): (t: Tokens)
    ensures t.palette.mode == mode
    ensures t.components.paperRoot.backgroundColor.Some? <==> mode == Dark
  {
    Tokens(
      PaletteFor(mode),
      SiteTypography(),
      12,
      SelectComponents(mode))
  }

  /** The light palette's main, background and divider colours. */
  lemma LightModeTokens()
    ensures var p := GetDesignTokens(Light).palette;
      && p.primary.main == Hex(0x3a86ff) && p.secondary.main == Hex(0x8b5cf6)
      && p.backgroundDefault == Hex(0xf8fafc) && p.backgroundPaper == White
      && p.divider == Rgba(0, 0, 0, 80)
  {
  }

  /** The dark palette's main, background and divider colours. */
  lemma DarkModeTokens()
    ensures var p := GetDesignTokens(Dark).palette;
      && p.primary.main == Hex(0x38bdf8) && p.secondary.main == Hex(0xa855f7)
      && p.backgroundDefault == Hex(0x0f172a) && p.backgroundPaper == Hex(0x1e293b)
      && p.divider == Rgba(255, 255, 255, 80)
  {
  }

  /** Both modes use white contrast text on primary and secondary. */
  lemma ContrastTextInBothModes(mode: Mode)
    ensures GetDesignTokens(mode).palette.primary.contrastText == White
    ensures GetDesignTokens(mode).palette.secondary.contrastText == White
  {
  }

  /**
   * The dark Paper background colour is the dark palette's paper colour,
   * and the Paper background image is `none` exactly in light mode.
   */
  lemma PaperRootByMode(mode: Mode)
    ensures GetDesignTokens(mode).components.paperRoot.backgroundImage.None? <==> mode == Light
    ensures mode == Dark ==>
      GetDesignTokens(mode).components.paperRoot.backgroundColor == Some(GetDesignTokens(mode).palette.backgroundPaper)
  {
  }

  /** The mode can be read back from the tokens, so different modes give different tokens. */
  lemma TokensDetermineMode(a: Mode, b: Mode)
    ensures GetDesignTokens(a) == GetDesignTokens(b) <==> a == b
  {
    if GetDesignTokens(a) == GetDesignTokens(b) {
      assert GetDesignTokens(a).palette.mode == GetDesignTokens(b).palette.mode;
    }
  }

  /** Typography, the corner radius and the Chip and Button root overrides do not depend on the mode. */
  lemma ModeIndependentTokens(a: Mode, b: Mode)
    ensures GetDesignTokens(a).typography == GetDesignTokens(b).typography
    ensures GetDesignTokens(a).borderRadius == GetDesignTokens(b).borderRadius == 12
    ensures GetDesignTokens(a).components.chipRoot == GetDesignTokens(b).components.chipRoot == ChipRoot(8, 500)
    ensures GetDesignTokens(a).components.buttonRoot == GetDesignTokens(b).components.buttonRoot
  {
  }

  /** The main, background, text and divider tokens differ between the two modes. */
  lemma ModeDependentTokens()
    ensures GetDesignTokens(Light).palette.primary.main != GetDesignTokens(Dark).palette.primary.main
    ensures GetDesignTokens(Light).palette.secondary.main != GetDesignTokens(Dark).palette.secondary.main
    ensures GetDesignTokens(Light).palette.backgroundDefault != GetDesignTokens(Dark).palette.backgroundDefault
    ensures GetDesignTokens(Light).palette.backgroundPaper != GetDesignTokens(Dark).palette.backgroundPaper
    ensures GetDesignTokens(Light).palette.textPrimary != GetDesignTokens(Dark).palette.textPrimary
    ensures GetDesignTokens(Light).palette.textSecondary != GetDesignTokens(Dark).palette.textSecondary
    ensures GetDesignTokens(Light).palette.divider != GetDesignTokens(Dark).palette.divider
  {
  }

  /** `dark` has the same layers as `light`, each with a strictly more opaque black. */
  predicate Stronger(dark: seq<Shadow>, light: seq<Shadow>) {
    && |dark| == |light|
    && forall i :: 0 <= i < |dark| ==>
         && dark[i].color.Rgba? && light[i].color.Rgba?
         && dark[i].(color := light[i].color) == light[i]
         && dark[i].color.(alphaMilli := light[i].color.alphaMilli) == light[i].color
         && dark[i].color.alphaMilli > light[i].color.alphaMilli
  }

  /** Every Card, Paper and app bar shadow is darker in dark mode than in light mode, with the same geometry. */
  lemma DarkModeShadowsStronger()
    ensures var d, l := GetDesignTokens(Dark).components, GetDesignTokens(Light).components;
      && Stronger(d.cardRoot.boxShadow, l.cardRoot.boxShadow)
      && Stronger(d.cardRoot.hoverBoxShadow, l.cardRoot.hoverBoxShadow)
      && Stronger(d.paperElevation1, l.paperElevation1)
      && Stronger(d.paperElevation4, l.paperElevation4)
      && Stronger(d.appBarBoxShadow, l.appBarBoxShadow)
  {
  }

  /** Each contained-button gradient runs left to right from its first colour at 0% to its second at 100%. */
  lemma ButtonGradientsHorizontal(mode: Mode)
    ensures var c := GetDesignTokens(mode).components;
      forall g :: g in [c.containedPrimary.background, c.containedPrimary.hoverBackground,
                        c.containedSecondary.background, c.containedSecondary.hoverBackground] ==>
        g.angleDeg == Some(90) && |g.stops| == 2 && g.stops[0].at == Some(0) && g.stops[1].at == Some(100)
  {
  }

  /** The hover gradient of each contained button differs from its resting gradient in both colours. */
  lemma ButtonHoverChangesColors(mode: Mode)
    ensures var c := GetDesignTokens(mode).components;
      && c.containedPrimary.background.stops[0] != c.containedPrimary.hoverBackground.stops[0]
      && c.containedPrimary.background.stops[1] != c.containedPrimary.hoverBackground.stops[1]
      && c.containedSecondary.background.stops[0] != c.containedSecondary.hoverBackground.stops[0]
      && c.containedSecondary.background.stops[1] != c.containedSecondary.hoverBackground.stops[1]
  {
  }
}
