/** How a paint and an effect are rendered as text (code.ts `extractColor` and
    `extractEffects`). The same paint rule is used for text colour, fills and
    strokes. */
module Paints {
  import opened Wrappers
  import opened Strings
  import opened Numbers
  import opened Design

  const ImageFillLabel := "image-fill"
  const LinearGradientLabel := "linear-gradient ("
  const RadialGradientLabel := "radial-gradient ("
  const StopsSuffix := " stops)"

  const DropShadowLabel := "드롭 섀도우 ("
  const InnerShadowLabel := "내부 섀도우 ("
  const LayerBlurLabel := "레이어 블러 ("
  const BackgroundBlurLabel := "배경 블러 ("
  const BlurLabel := ", blur: "

  /** `paint.opacity || 1`: a missing opacity and an opacity of 0 (falsy) both
      give 1; any other opacity is kept. */
  function Alpha(opacity: Option<Num>): (a: Num)
    ensures opacity.Some? && !IsInt(opacity.value, 0) ==> a == opacity.value
    ensures opacity.None? || IsInt(opacity.value, 0) ==> IsInt(a, 1)
  {
    match opacity
    case Some(o) => if o.mantissa != 0 then o else FromInt(1)
    case None => FromInt(1)
  }

  /** A channel in [0, 1] as `Math.round(c * 255)`. */
  function Channel(c: Num): int {
    Round(Times(c, 255))
  }

  /** `rgba(R, G, B, a)`. */
  function Rgba(c: Rgb, alpha: Num): string {
    "rgba(" + (ShowInt(Channel(c.r)) + ", " + ShowInt(Channel(c.g)) + ", "
      + ShowInt(Channel(c.b)) + ", " + ShowNum(alpha) + ")")
  }

  function GradientText(lead: string, stops: nat): string {
    lead + ShowNat(stops) + StopsSuffix
  }

  /** code.ts `extractColor`: solid paints as RGBA with rounded 0-255 channels,
      linear and radial gradients as their stop count, images as a fixed label,
      every other kind as its lower-cased type tag. Every paint yields some text. */
  function PaintText(p: Paint): (r: string)
    ensures r != ""
  {
    match p
    case Solid(color, opacity) => Rgba(color, Alpha(opacity))
    case GradientLinear(stops) => GradientText(LinearGradientLabel, |stops|)
    case GradientRadial(stops) => GradientText(RadialGradientLabel, |stops|)
    case ImagePaint => ImageFillLabel
    case _ => Lower(PaintType(p))
  }

  /** `paints.map(extractColor)`. */
  function PaintTexts(ps: seq<Paint>): (r: seq<string>)
    ensures |r| == |ps|
    ensures forall i :: 0 <= i < |ps| ==> r[i] == PaintText(ps[i])
  {
    seq(|ps|, i requires 0 <= i < |ps| => PaintText(ps[i]))
  }

  /** `paints.map(extractColor).join(', ')`. */
  function PaintsText(ps: seq<Paint>): string {
    Join(PaintTexts(ps), ", ")
  }

  /** Pure red at full opacity renders as `rgba(255, 0, 0, 1)`. */
  lemma SolidRed()
    ensures PaintText(Solid(Rgb(FromInt(1), FromInt(0), FromInt(0)), Some(FromInt(1))))
            == "rgba(255, 0, 0, 1)"
  {
    var one, zero := FromInt(1), FromInt(0);
    UnitRendering();
    assert Alpha(Some(one)) == one;
    assert PaintText(Solid(Rgb(one, zero, zero), Some(one))) == Rgba(Rgb(one, zero, zero), one);
  }

  /** The channel and alpha numbers of the colour extremes. */
  lemma UnitRendering()
    ensures ShowInt(Channel(FromInt(1))) == "255" && ShowInt(Channel(FromInt(0))) == "0"
    ensures ShowNum(FromInt(1)) == "1"
  {
    var one, zero := FromInt(1), FromInt(0);
    ShowWhole(one, 1);
    RoundWhole(Times(one, 255), 255);
    RoundWhole(Times(zero, 255), 0);
  }

  /** Because of the `||`, a solid paint of opacity 0 renders exactly like one with no
      opacity at all, with alpha 1, while any other opacity is printed as it is. */
  lemma ZeroOpacityRendersOpaque(c: Rgb, o: Num)
    ensures IsInt(o, 0) ==> PaintText(Solid(c, Some(o))) == PaintText(Solid(c, None))
    ensures IsInt(o, 0) ==> PaintText(Solid(c, Some(o))) == Rgba(c, FromInt(1))
    ensures !IsInt(o, 0) ==> PaintText(Solid(c, Some(o))) == Rgba(c, o)
  {
  }

  /** With channels in [0, 1] the three colour numbers are bytes. */
  lemma SolidChannelsAreBytes(c: Rgb, opacity: Option<Num>)
    requires 0.0 <= Value(c.r) <= 1.0 && 0.0 <= Value(c.g) <= 1.0 && 0.0 <= Value(c.b) <= 1.0
    ensures exists r: nat, g: nat, b: nat ::
              r <= 255 && g <= 255 && b <= 255 &&
              PaintText(Solid(c, opacity)) == "rgba(" + (ShowNat(r) + ", " + ShowNat(g) + ", "
                                            + ShowNat(b) + ", " + ShowNum(Alpha(opacity)) + ")")
  {
    ChannelInRange(c.r);
    ChannelInRange(c.g);
    ChannelInRange(c.b);
    var r: nat, g: nat, b: nat := Channel(c.r), Channel(c.g), Channel(c.b);
    assert PaintText(Solid(c, opacity)) == "rgba(" + (ShowNat(r) + ", " + ShowNat(g) + ", "
                                         + ShowNat(b) + ", " + ShowNum(Alpha(opacity)) + ")");
  }

  /** A gradient's rendering gives back its number of stops. */
  lemma GradientStopCountRecoverable(lead: string, m: nat, n: nat)
    requires GradientText(lead, m) == GradientText(lead, n)
    ensures m == n
  {
    var a, b := GradientText(lead, m), GradientText(lead, n);
    var k := |lead|;
    assert |ShowNat(m)| == |ShowNat(n)| by {
      assert |a| == k + |ShowNat(m)| + |StopsSuffix|;
      assert |b| == k + |ShowNat(n)| + |StopsSuffix|;
    }
    assert ShowNat(m) == a[k..k + |ShowNat(m)|];
    assert ShowNat(n) == b[k..k + |ShowNat(n)|];
    ShowNatInjective(m, n);
  }

  /** The paint kind a rendering stands for: solid, linear, radial, image, or one of
      the kinds rendered by their tag. */
  function RenderedKind(p: Paint): int {
    match p
    case Solid(_, _) => 0
    case GradientLinear(_) => 1
    case GradientRadial(_) => 2
    case ImagePaint => 3
    case GradientAngular(_) => 4
    case GradientDiamond(_) => 5
    case VideoPaint => 6
    case PatternPaint => 7
  }

  /** A character of the rendering at which the paint kinds differ. */
  function KindMark(p: Paint): (int, char) {
    match p
    case Solid(_, _) => (1, 'g')
    case GradientLinear(_) => (0, 'l')
    case GradientRadial(_) => (1, 'a')
    case ImagePaint => (0, 'i')
    case GradientAngular(_) => (9, 'a')
    case GradientDiamond(_) => (9, 'd')
    case VideoPaint => (0, 'v')
    case PatternPaint => (0, 'p')
  }

  lemma KindMarkHolds(p: Paint)
    ensures 0 <= KindMark(p).0 < |PaintText(p)| && PaintText(p)[KindMark(p).0] == KindMark(p).1
    ensures KindMark(p).0 == 1 ==> PaintText(p)[0] == 'r'
    ensures KindMark(p).0 == 9 ==> PaintText(p)[0] == 'g'
  {
    match p
    case Solid(c, o) => RgbaMark(c, Alpha(o));
    case GradientLinear(s) => LeadMark(LinearGradientLabel, ShowNat(|s|) + StopsSuffix);
    case GradientRadial(s) => LeadMark(RadialGradientLabel, ShowNat(|s|) + StopsSuffix);
    case ImagePaint =>
    case GradientAngular(_) => TagMark(PaintType(p));
    case GradientDiamond(_) => TagMark(PaintType(p));
    case VideoPaint => TagMark(PaintType(p));
    case PatternPaint => TagMark(PaintType(p));
  }

  lemma RgbaMark(c: Rgb, alpha: Num)
    ensures |Rgba(c, alpha)| > 1 && Rgba(c, alpha)[0] == 'r' && Rgba(c, alpha)[1] == 'g'
  {
    var rest := ShowInt(Channel(c.r)) + ", " + ShowInt(Channel(c.g)) + ", "
      + ShowInt(Channel(c.b)) + ", " + ShowNum(alpha) + ")";
    LeadMark("rgba(", rest);
  }

  lemma LeadMark(lead: string, rest: string)
    requires |lead| > 1
    ensures (lead + rest)[0] == lead[0] && (lead + rest)[1] == lead[1]
  {
  }

  lemma TagMark(tag: string)
    requires |tag| > 0
    ensures |Lower(tag)| == |tag| && Lower(tag)[0] == LowerChar(tag[0])
    ensures |tag| > 9 ==> Lower(tag)[9] == LowerChar(tag[9])
  {
  }

  /** The report is lossless on paint kinds: two paints that render alike are of the
      same kind, and two gradients of a counted kind have the same number of stops. */
  lemma PaintKindRecoverable(p: Paint, q: Paint)
    requires PaintText(p) == PaintText(q)
    ensures RenderedKind(p) == RenderedKind(q)
    ensures (p.GradientLinear? || p.GradientRadial?) ==> |p.stops| == |q.stops|
  {
    KindMarkHolds(p);
    KindMarkHolds(q);
    if p.GradientLinear? && q.GradientLinear? {
      GradientStopCountRecoverable(LinearGradientLabel, |p.stops|, |q.stops|);
    } else if p.GradientRadial? && q.GradientRadial? {
      GradientStopCountRecoverable(RadialGradientLabel, |p.stops|, |q.stops|);
    }
  }

  /** One entry of code.ts `extractEffects`: shadows as offset and blur radius, blurs
      as their radius, every other kind as its lower-cased type tag. */
  function EffectText(e: Effect): (r: string)
    ensures r != ""
  {
    match e
    case DropShadow(o, radius) =>
      DropShadowLabel + ShowNum(o.x) + ", " + ShowNum(o.y) + BlurLabel + ShowNum(radius) + ")"
    case InnerShadow(o, radius) =>
      InnerShadowLabel + ShowNum(o.x) + ", " + ShowNum(o.y) + BlurLabel + ShowNum(radius) + ")"
    case LayerBlur(radius) => LayerBlurLabel + ShowNum(radius) + ")"
    case BackgroundBlur(radius) => BackgroundBlurLabel + ShowNum(radius) + ")"
    case _ => Lower(EffectType(e))
  }

  function EffectTexts(es: seq<Effect>): (r: seq<string>)
    ensures |r| == |es|
    ensures forall i :: 0 <= i < |es| ==> r[i] == EffectText(es[i])
  {
    seq(|es|, i requires 0 <= i < |es| => EffectText(es[i]))
  }

  /** code.ts `extractEffects`: "" for a node without effects, otherwise each effect
      rendered and joined by ", ". The summary is empty exactly when there are no
      effects, and otherwise begins with the first effect's rendering. */
  function EffectsText(es: seq<Effect>): (r: string)
    ensures r == "" <==> es == []
    ensures es != [] ==> HasPrefix(r, EffectText(es[0]))
  {
    if |es| == 0 then ""
    else
      JoinNonEmpty(EffectTexts(es), ", ");
      Join(EffectTexts(es), ", ")
  }

  /** The first character of an effect's rendering: the four labelled kinds and
      the lower-cased tags all begin differently. */
  function EffectMark(e: Effect): char {
    match e
    case DropShadow(_, _) => DropShadowLabel[0]
    case InnerShadow(_, _) => InnerShadowLabel[0]
    case LayerBlur(_) => LayerBlurLabel[0]
    case BackgroundBlur(_) => BackgroundBlurLabel[0]
    case NoiseEffect => 'n'
    case TextureEffect => 't'
    case GlassEffect => 'g'
  }

  lemma EffectMarkHolds(e: Effect)
    ensures EffectText(e)[0] == EffectMark(e)
  {
    match e
    case DropShadow(o, radius) =>
      LeadMark(DropShadowLabel, ShowNum(o.x) + ", " + ShowNum(o.y) + BlurLabel + ShowNum(radius) + ")");
    case InnerShadow(o, radius) =>
      LeadMark(InnerShadowLabel, ShowNum(o.x) + ", " + ShowNum(o.y) + BlurLabel + ShowNum(radius) + ")");
    case LayerBlur(radius) => LeadMark(LayerBlurLabel, ShowNum(radius) + ")");
    case BackgroundBlur(radius) => LeadMark(BackgroundBlurLabel, ShowNum(radius) + ")");
    case NoiseEffect => TagMark(EffectType(e));
    case TextureEffect => TagMark(EffectType(e));
    case GlassEffect => TagMark(EffectType(e));
  }

  /** The report is lossless on effect kinds: two effects that render alike are of
      the same kind. */
  lemma EffectKindRecoverable(e: Effect, f: Effect)
    requires EffectText(e) == EffectText(f)
    ensures e.DropShadow? <==> f.DropShadow?
    ensures e.InnerShadow? <==> f.InnerShadow?
    ensures e.LayerBlur? <==> f.LayerBlur?
    ensures e.BackgroundBlur? <==> f.BackgroundBlur?
    ensures e.NoiseEffect? <==> f.NoiseEffect?
    ensures e.TextureEffect? <==> f.TextureEffect?
    ensures e.GlassEffect? <==> f.GlassEffect?
  {
    EffectMarkHolds(e);
    EffectMarkHolds(f);
  }
}
