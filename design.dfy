/** The scene as the descriptor reads it: an immutable snapshot of the selected
    nodes and their subtrees. A node owns its children, so the tree is finite and
    acyclic by construction. Numbers are the decimals of module Numbers. A property
    the host may leave out is an Option, and so is one that may be "mixed" where the
    descriptor checks for that; the stroke weight, interpolated without such a
    check, is absent, mixed or a number. */
module Design {
  import opened Wrappers
  import opened Numbers

  /** Colour channels, each in [0, 1] in the host. */
  datatype Rgb = Rgb(r: Num, g: Num, b: Num)

  datatype ColorStop = ColorStop(position: Num, color: Rgb, alpha: Num)

  /** A fill or stroke: the host's paint kinds. */
  datatype Paint =
    | Solid(color: Rgb, opacity: Option<Num>)
    | GradientLinear(stops: seq<ColorStop>)
    | GradientRadial(stops: seq<ColorStop>)
    | GradientAngular(stops: seq<ColorStop>)
    | GradientDiamond(stops: seq<ColorStop>)
    | ImagePaint
    | VideoPaint
    | PatternPaint

  /** The host's `paint.type` tag. */
  function PaintType(p: Paint): string {
    match p
    case Solid(_, _) => "SOLID"
    case GradientLinear(_) => "GRADIENT_LINEAR"
    case GradientRadial(_) => "GRADIENT_RADIAL"
    case GradientAngular(_) => "GRADIENT_ANGULAR"
    case GradientDiamond(_) => "GRADIENT_DIAMOND"
    case ImagePaint => "IMAGE"
    case VideoPaint => "VIDEO"
    case PatternPaint => "PATTERN"
  }

  datatype Offset = Offset(x: Num, y: Num)

  /** A shadow or blur: the host's effect kinds. */
  datatype Effect =
    | DropShadow(offset: Offset, radius: Num)
    | InnerShadow(offset: Offset, radius: Num)
    | LayerBlur(radius: Num)
    | BackgroundBlur(radius: Num)
    | NoiseEffect
    | TextureEffect
    | GlassEffect

  /** The host's `effect.type` tag. */
  function EffectType(e: Effect): string {
    match e
    case DropShadow(_, _) => "DROP_SHADOW"
    case InnerShadow(_, _) => "INNER_SHADOW"
    case LayerBlur(_) => "LAYER_BLUR"
    case BackgroundBlur(_) => "BACKGROUND_BLUR"
    case NoiseEffect => "NOISE"
    case TextureEffect => "TEXTURE"
    case GlassEffect => "GLASS"
  }

  datatype FontName = FontName(family: string, style: string)

  /** A line height in pixels, in percent of the font size, or automatic. */
  datatype LineHeight = Pixels(value: Num) | Percent(value: Num) | AutoHeight

  datatype TextAlign = AlignLeft | AlignCenter | AlignRight | AlignJustified

  function TextAlignName(a: TextAlign): string {
    match a
    case AlignLeft => "LEFT"
    case AlignCenter => "CENTER"
    case AlignRight => "RIGHT"
    case AlignJustified => "JUSTIFIED"
  }

  /** What a text node has beyond other nodes. `None` stands for "mixed" (several
      values across the text's ranges). */
  datatype TextProps = TextProps(
    characters: string,
    fontName: Option<FontName>,
    fontSize: Option<Num>,
    lineHeight: Option<LineHeight>,
    textAlignHorizontal: TextAlign)

  datatype LayoutMode = NoLayout | Horizontal | Vertical | GridLayout

  /** What a frame has beyond other nodes: its auto-layout settings and clipping. */
  datatype FrameProps = FrameProps(
    layoutMode: LayoutMode,
    itemSpacing: Num,
    paddingTop: Num,
    paddingRight: Num,
    paddingBottom: Num,
    paddingLeft: Num,
    primaryAxisAlignItems: string,
    counterAxisAlignItems: string,
    clipsContent: bool)

  datatype Constraints = Constraints(horizontal: string, vertical: string)

  /** The node types other than text and frame. */
  datatype OtherType =
    | GroupType | RectangleType | EllipseType | LineType | PolygonType | StarType
    | VectorType | BooleanOperationType | ComponentType | ComponentSetType
    | InstanceType | SectionType | SliceType | StickyType | ConnectorType
    | ShapeWithTextType | TableType | CodeBlockType | StampType | WidgetType
    | EmbedType | LinkUnfurlType | MediaType

  datatype NodeKind =
    | TextNode(text: TextProps)
    | FrameNode(frame: FrameProps)
    | OtherNode(other: OtherType)

  /** The host's `node.type` tag. */
  function KindName(k: NodeKind): string {
    match k
    case TextNode(_) => "TEXT"
    case FrameNode(_) => "FRAME"
    case OtherNode(t) =>
      match t
      case GroupType => "GROUP"
      case RectangleType => "RECTANGLE"
      case EllipseType => "ELLIPSE"
      case LineType => "LINE"
      case PolygonType => "POLYGON"
      case StarType => "STAR"
      case VectorType => "VECTOR"
      case BooleanOperationType => "BOOLEAN_OPERATION"
      case ComponentType => "COMPONENT"
      case ComponentSetType => "COMPONENT_SET"
      case InstanceType => "INSTANCE"
      case SectionType => "SECTION"
      case SliceType => "SLICE"
      case StickyType => "STICKY"
      case ConnectorType => "CONNECTOR"
      case ShapeWithTextType => "SHAPE_WITH_TEXT"
      case TableType => "TABLE"
      case CodeBlockType => "CODE_BLOCK"
      case StampType => "STAMP"
      case WidgetType => "WIDGET"
      case EmbedType => "EMBED"
      case LinkUnfurlType => "LINK_UNFURL"
      case MediaType => "MEDIA"
  }

  /** `strokeWeight`: absent on node types without strokes, the symbol `figma.mixed`
      on a frame or shape whose sides have different weights, otherwise a number. */
  datatype StrokeWeight = NoWeight | MixedWeight | Weight(px: Num)

  /** One scene node. `opacity` and `constraints` are `None` on node
      types without the property; `fills` and `strokes` also when they are mixed;
      `cornerRadius` also when it is mixed. `effects` and `children` are empty when
      the node has none or no such property. */
  datatype Node = Node(
    kind: NodeKind,
    name: string,
    width: Num,
    height: Num,
    x: Num,
    y: Num,
    visible: bool,
    opacity: Option<Num>,
    fills: Option<seq<Paint>>,
    strokes: Option<seq<Paint>>,
    strokeWeight: StrokeWeight,
    cornerRadius: Option<Num>,
    effects: seq<Effect>,
    constraints: Option<Constraints>,
    children: seq<Node>)

  /** `node.type`. */
  function TypeName(n: Node): string {
    KindName(n.kind)
  }
}
