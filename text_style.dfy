/** The typography summary of a text node (code.ts `extractTextStyle`): the
    sub-fields the node has, each as "label: value", joined by ", ". */
module TextStyle {
  import opened Wrappers
  import opened Strings
  import opened Numbers
  import opened Design
  import opened Paints
  import opened Report

  const FontLabel := "폰트: "
  const SizeLabel := "크기: "
  const LineHeightLabel := "줄간격: "
  const AlignLabel := "정렬: "
  const ColorLabel := "색상: "

  /** The sub-fields of the summary, in the order they are pushed. */
  const StyleLabels := [FontLabel, SizeLabel, LineHeightLabel, AlignLabel, ColorLabel]

  datatype StyleField = FontField | SizeField | LineHeightField | AlignField | ColorField

  /** Position of a sub-field in the fixed order. */
  function Index(f: StyleField): (k: nat)
    ensures k < |StyleLabels|
  {
    match f
    case FontField => 0
    case SizeField => 1
    case LineHeightField => 2
    case AlignField => 3
    case ColorField => 4
  }

  /** The strings pushed for each sub-field: the font when it is not mixed, the size
      when it is a number, the line height when it is in pixels or percent, the
      alignment always, and the colour of the first fill when the fills are a
      non-empty list. */
  function FontParts(t: TextProps): seq<string> {
    match t.fontName
    case Some(f) => [FontLabel + (f.family + " " + f.style)]
    case None => []
  }

  function SizeParts(t: TextProps): seq<string> {
    match t.fontSize
    case Some(v) => [SizeLabel + (ShowNum(v) + "px")]
    case None => []
  }

  function LineHeightParts(t: TextProps): seq<string> {
    match t.lineHeight
    case Some(Pixels(v)) => [LineHeightLabel + (ShowNum(v) + "px")]
    case Some(Percent(v)) => [LineHeightLabel + (ShowNum(v) + "%")]
    case _ => []
  }

  function AlignParts(t: TextProps): seq<string> {
    [AlignLabel + Lower(TextAlignName(t.textAlignHorizontal))]
  }

  function ColorParts(fills: Option<seq<Paint>>): seq<string> {
    if fills.Some? && |fills.value| > 0 then [ColorLabel + PaintText(fills.value[0])] else []
  }

  function StyleSections(node: Node): seq<seq<string>>
    requires node.kind.TextNode?
  {
    var t := node.kind.text;
    [FontParts(t), SizeParts(t), LineHeightParts(t), AlignParts(t), ColorParts(node.fills)]
  }

  /** The array `extractTextStyle` builds. */
  function StyleParts(node: Node): seq<string>
    requires node.kind.TextNode?
  {
    Flatten(StyleSections(node))
  }

  /** The text `extractTextStyle` returns. */
  function TextStyleText(node: Node): string
    requires node.kind.TextNode?
  {
    Join(StyleParts(node), ", ")
  }

  /** code.ts `extractTextStyle`: push the present sub-fields one by one, then join. */
  method ExtractTextStyle(node: Node) returns (r: string)
    requires node.kind.TextNode?
    ensures r == TextStyleText(node)
  {
    var t := node.kind.text;
    var styles: seq<string> := [];
    if t.fontName.Some? {
      var f := t.fontName.value;
      styles := styles + [FontLabel + (f.family + " " + f.style)];
    }
    assert styles == FontParts(t);
    if t.fontSize.Some? {
      styles := styles + [SizeLabel + (ShowNum(t.fontSize.value) + "px")];
    }
    assert styles == FontParts(t) + SizeParts(t);
    if t.lineHeight.Some? {
      match t.lineHeight.value {
        case Pixels(v) =>
          styles := styles + [LineHeightLabel + (ShowNum(v) + "px")];
        case Percent(v) =>
          styles := styles + [LineHeightLabel + (ShowNum(v) + "%")];
        case AutoHeight =>
      }
    }
    assert styles == FontParts(t) + SizeParts(t) + LineHeightParts(t);
    styles := styles + [AlignLabel + Lower(TextAlignName(t.textAlignHorizontal))];
    ghost var before := styles;
    if node.fills.Some? {
      var fills := node.fills.value;
      if |fills| > 0 {
        styles := styles + [ColorLabel + PaintText(fills[0])];
      }
    }
    assert styles == before + ColorParts(node.fills);
    StyleSectionsInOrder(node);
    r := Join(styles, ", ");
  }

  /** The sections one after the other. */
  lemma StyleSectionsInOrder(node: Node)
    requires node.kind.TextNode?
    ensures var t := node.kind.text;
      StyleParts(node) == FontParts(t) + SizeParts(t) + LineHeightParts(t) + AlignParts(t) + ColorParts(node.fills)
  {
    var t := node.kind.text;
    FiveSections(FontParts(t), SizeParts(t), LineHeightParts(t), AlignParts(t), ColorParts(node.fills));
  }

  /** Five sections pushed one by one give their lines one after the other. */
  lemma FiveSections(a: seq<string>, b: seq<string>, c: seq<string>, d: seq<string>, e: seq<string>)
    ensures Flatten([a, b, c, d, e]) == a + b + c + d + e
  {
    var secs := [a, b, c, d, e];
    FlattenStep(secs, 0);
    FlattenStep(secs, 1);
    FlattenStep(secs, 2);
    FlattenStep(secs, 3);
    FlattenStep(secs, 4);
    FlattenAll(secs);
  }

  /** The node has the property that sub-field `f` reports: a font that is not
      mixed, a numeric size, a line height in pixels or percent, an alignment
      (always), a non-empty list of fills. */
  predicate HasProperty(node: Node, f: StyleField)
    requires node.kind.TextNode?
  {
    var t := node.kind.text;
    match f
    case FontField => t.fontName.Some?
    case SizeField => t.fontSize.Some?
    case LineHeightField => t.lineHeight.Some? && !t.lineHeight.value.AutoHeight?
    case AlignField => true
    case ColorField => node.fills.Some? && |node.fills.value| > 0
  }

  /** Every pushed string begins with its sub-field's label, the labels are told
      apart by their first character, and each sub-field is pushed at most once. */
  lemma StyleSectionsLabelled(node: Node)
    requires node.kind.TextNode?
    ensures Labelled(StyleSections(node), StyleLabels)
    ensures PrefixFree(StyleLabels)
    ensures forall k :: 0 <= k < |StyleLabels| ==> |StyleSections(node)[k]| <= 1
  {
    FirstCharsDiffer(StyleLabels);
    SectionsBegin(node);
  }

  /** Each sub-field's string begins with its label. */
  lemma SectionsBegin(node: Node)
    requires node.kind.TextNode?
    ensures var t := node.kind.text;
      AllBegin(FontParts(t), FontLabel) && AllBegin(SizeParts(t), SizeLabel)
      && AllBegin(LineHeightParts(t), LineHeightLabel) && AllBegin(AlignParts(t), AlignLabel)
      && AllBegin(ColorParts(node.fills), ColorLabel)
  {
    var t := node.kind.text;
    assert AllBegin(FontParts(t), FontLabel) by {
      if t.fontName.Some? { OneLine(FontLabel, t.fontName.value.family + " " + t.fontName.value.style); }
    }
    assert AllBegin(SizeParts(t), SizeLabel) by {
      if t.fontSize.Some? { OneLine(SizeLabel, ShowNum(t.fontSize.value) + "px"); }
    }
    assert AllBegin(LineHeightParts(t), LineHeightLabel) by {
      match t.lineHeight
      case Some(Pixels(v)) => OneLine(LineHeightLabel, ShowNum(v) + "px");
      case Some(Percent(v)) => OneLine(LineHeightLabel, ShowNum(v) + "%");
      case _ =>
    }
    OneLine(AlignLabel, Lower(TextAlignName(t.textAlignHorizontal)));
    assert AllBegin(ColorParts(node.fills), ColorLabel) by {
      if node.fills.Some? && |node.fills.value| > 0 { OneLine(ColorLabel, PaintText(node.fills.value[0])); }
    }
  }

  /** Some sub-field of the summary begins with the label of `f` exactly when the
      node has that property. */
  lemma StyleFieldShownIff(node: Node, f: StyleField)
    requires node.kind.TextNode?
    ensures var parts := StyleParts(node);
      (exists i :: 0 <= i < |parts| && HasPrefix(parts[i], StyleLabels[Index(f)])) <==> HasProperty(node, f)
  {
    StyleSectionsLabelled(node);
    var parts := StyleParts(node);
    assert parts == Flatten(StyleSections(node));
    MentionsIff(StyleSections(node), StyleLabels, Index(f));
    assert StyleSections(node)[Index(f)] != [] <==> HasProperty(node, f) by {
      match f
      case FontField =>
      case SizeField =>
      case LineHeightField =>
      case AlignField =>
      case ColorField =>
    }
  }

  /** The sub-fields come in the fixed order font, size, line height, alignment,
      colour. */
  lemma StyleFieldsInOrder(node: Node, i: nat, j: nat, f: StyleField, g: StyleField)
    requires node.kind.TextNode?
    requires i <= j < |StyleParts(node)|
    requires HasPrefix(StyleParts(node)[i], StyleLabels[Index(f)])
    requires HasPrefix(StyleParts(node)[j], StyleLabels[Index(g)])
    ensures Index(f) <= Index(g)
  {
    StyleSectionsLabelled(node);
    LabelsInOrder(StyleSections(node), StyleLabels, i, j, Index(f), Index(g));
  }

  /** Each sub-field appears at most once. */
  lemma StyleFieldOnce(node: Node, i: nat, j: nat, f: StyleField)
    requires node.kind.TextNode?
    requires i < |StyleParts(node)| && j < |StyleParts(node)|
    requires HasPrefix(StyleParts(node)[i], StyleLabels[Index(f)])
    requires HasPrefix(StyleParts(node)[j], StyleLabels[Index(f)])
    ensures i == j
  {
    StyleSectionsLabelled(node);
    AtMostOnce(StyleSections(node), StyleLabels, Index(f), i, j);
  }

  /** A text node of a whole font size `k` has the sub-field "크기: kpx". */
  lemma FontSizeShownInPixels(node: Node, k: int)
    requires node.kind.TextNode? && node.kind.text.fontSize.Some?
    requires IsInt(node.kind.text.fontSize.value, k)
    ensures SizeLabel + (ShowInt(k) + "px") in StyleParts(node)
  {
    var secs := StyleSections(node);
    ShowWhole(node.kind.text.fontSize.value, k);
    FlattenAt(secs, 1, 0);
  }
}
