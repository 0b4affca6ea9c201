/** The detail block of one node (code.ts `extractDetailedNodeInfo`): a fixed
    sequence of lines, each present only under its condition, joined by newlines.
    Every line begins with the label of its kind, and the labels are prefix-free,
    so the kinds present and their order can be read off the lines. */
module Detail {
  import opened Wrappers
  import opened Strings
  import opened Numbers
  import opened Design
  import opened Paints
  import opened Report
  import opened TextStyle
  import opened AutoLayout

  const HeaderLabel := "=== "
  const DimensionsLabel := "크기: "
  const PositionLabel := "위치: "
  const VisibilityLabel := "가시성: "
  const OpacityLabel := "투명도: "
  const FillLabel := "배경: "
  const StrokeLabel := "테두리: "
  const CornerLabel := "모서리 둥글기: "
  const TextContentLabel := "텍스트 내용: "
  const TextStyleLabel := "텍스트 스타일: "
  const AutoLayoutLabel := "Auto Layout: "
  const ClippingLabel := "클리핑: "
  const EffectsLabel := "효과: "
  const ConstraintsLabel := "제약조건: "
  const ChildCountLabel := "자식 요소: "
  const ChildItemLabel := "  "

  const HiddenWord := "숨김"
  const EnabledWord := "활성화"

  /** The line kinds in the order they are pushed. */
  const DetailLabels := [
    HeaderLabel, DimensionsLabel, PositionLabel, VisibilityLabel, OpacityLabel, FillLabel,
    StrokeLabel, CornerLabel, TextContentLabel, TextStyleLabel, AutoLayoutLabel,
    ClippingLabel, EffectsLabel, ConstraintsLabel, ChildCountLabel, ChildItemLabel]

  datatype DetailLine =
    | HeaderLine | DimensionsLine | PositionLine | VisibilityLine | OpacityLine | FillLine
    | StrokeLine | CornerLine | TextContentLine | TextStyleLine | AutoLayoutLine
    | ClippingLine | EffectsLine | ConstraintsLine | ChildCountLine | ChildItemLine

  /** Position of a line kind in the fixed order. */
  function Index(l: DetailLine): (k: nat)
    ensures k < |DetailLabels|
  {
    match l
    case HeaderLine => 0
    case DimensionsLine => 1
    case PositionLine => 2
    case VisibilityLine => 3
    case OpacityLine => 4
    case FillLine => 5
    case StrokeLine => 6
    case CornerLine => 7
    case TextContentLine => 8
    case TextStyleLine => 9
    case AutoLayoutLine => 10
    case ClippingLine => 11
    case EffectsLine => 12
    case ConstraintsLine => 13
    case ChildCountLine => 14
    case ChildItemLine => 15
  }

  /** The condition under which the source pushes a line of kind `l`. */
  predicate Shown(node: Node, l: DetailLine) {
    match l
    case HeaderLine => true
    case DimensionsLine => true
    case PositionLine => true
    case VisibilityLine => !node.visible
    case OpacityLine => node.opacity.Some? && !IsInt(node.opacity.value, 1)
    case FillLine => node.fills.Some? && |node.fills.value| > 0
    case StrokeLine => node.strokes.Some? && |node.strokes.value| > 0 && node.strokeWeight.Weight?
    case CornerLine => node.cornerRadius.Some? && !IsInt(node.cornerRadius.value, 0)
    case TextContentLine => node.kind.TextNode?
    case TextStyleLine => node.kind.TextNode?
    case AutoLayoutLine => node.kind.FrameNode? && node.kind.frame.layoutMode != NoLayout
    case ClippingLine => node.kind.FrameNode? && node.kind.frame.clipsContent
    case EffectsLine => node.effects != []
    case ConstraintsLine => node.constraints.Some?
    case ChildCountLine => node.children != []
    case ChildItemLine => node.children != []
  }

  /** The message of the TypeError a template literal throws on a symbol. */
  const SymbolToStringError := "TypeError: Cannot convert a Symbol value to a string"

  /** The source checks only that the node has a stroke weight before
      interpolating it, so a node with strokes whose weight is mixed throws. */
  predicate StrokeThrows(node: Node) {
    node.strokes.Some? && |node.strokes.value| > 0 && node.strokeWeight.MixedWeight?
  }

  /** `Math.round(n)` printed. */
  function ShowRounded(n: Num): string {
    ShowInt(Round(n))
  }

  /** The lines of each kind. */
  function HeaderLines(node: Node): seq<string> {
    [HeaderLabel + (TypeName(node) + ": " + node.name + " ===")]
  }

  function DimensionsLines(node: Node): seq<string> {
    [DimensionsLabel + (ShowRounded(node.width) + "×" + ShowRounded(node.height) + "px")]
  }

  function PositionLines(node: Node): seq<string> {
    [PositionLabel + ("(" + ShowRounded(node.x) + ", " + ShowRounded(node.y) + ")")]
  }

  function VisibilityLines(node: Node): seq<string> {
    if !node.visible then [VisibilityLabel + HiddenWord] else []
  }

  function OpacityLines(node: Node): seq<string> {
    match node.opacity
    case Some(o) => if !IsInt(o, 1) then [OpacityLabel + (ShowRounded(Times(o, 100)) + "%")] else []
    case None => []
  }

  function FillLines(node: Node): seq<string> {
    match node.fills
    case Some(fs) => if |fs| > 0 then [FillLabel + PaintsText(fs)] else []
    case None => []
  }

  function StrokeLines(node: Node): seq<string> {
    match node.strokes
    case Some(ss) =>
      if |ss| > 0 && node.strokeWeight.Weight?
      then [StrokeLabel + (ShowNum(node.strokeWeight.px) + "px " + PaintsText(ss))]
      else []
    case None => []
  }

  function CornerLines(node: Node): seq<string> {
    match node.cornerRadius
    case Some(c) => if !IsInt(c, 0) then [CornerLabel + (ShowNum(c) + "px")] else []
    case None => []
  }

  function TextContentLines(node: Node): seq<string> {
    match node.kind
    case TextNode(t) => [TextContentLabel + ("\"" + t.characters + "\"")]
    case _ => []
  }

  function TextStyleLines(node: Node): seq<string> {
    if node.kind.TextNode? then [TextStyleLabel + TextStyleText(node)] else []
  }

  function AutoLayoutLines(node: Node): seq<string> {
    match node.kind
    case FrameNode(f) => if AutoLayoutText(f) != "" then [AutoLayoutLabel + AutoLayoutText(f)] else []
    case _ => []
  }

  function ClippingLines(node: Node): seq<string> {
    match node.kind
    case FrameNode(f) => if f.clipsContent then [ClippingLabel + EnabledWord] else []
    case _ => []
  }

  function EffectsLines(node: Node): seq<string> {
    if EffectsText(node.effects) != "" then [EffectsLabel + EffectsText(node.effects)] else []
  }

  function ConstraintsLines(node: Node): seq<string> {
    match node.constraints
    case Some(c) => [ConstraintsLabel + ("수평(" + c.horizontal + "), 수직(" + c.vertical + ")")]
    case None => []
  }

  function ChildCountLines(node: Node): seq<string> {
    if |node.children| > 0 then [ChildCountLabel + (ShowInt(|node.children|) + "개")] else []
  }

  /** The line for child number `number` (counted from 1). */
  function ChildItem(number: nat, c: Node): string {
    ChildItemLabel + (ShowInt(number) + ". " + TypeName(c) + ": " + c.name
      + " (" + ShowRounded(c.width) + "×" + ShowRounded(c.height) + "px)")
  }

  /** One line per child, numbered from 1 in order. */
  function ChildItems(cs: seq<Node>): (r: seq<string>)
    ensures |r| == |cs|
  {
    if cs == [] then [] else ChildItems(cs[..|cs| - 1]) + [ChildItem(|cs|, cs[|cs| - 1])]
  }

  /** The sections of one line at most, one after the other. */
  function HeadSections(node: Node): seq<seq<string>> {
    [HeaderLines(node)] + [DimensionsLines(node)] + [PositionLines(node)] + [VisibilityLines(node)]
    + [OpacityLines(node)] + [FillLines(node)] + [StrokeLines(node)] + [CornerLines(node)]
    + [TextContentLines(node)] + [TextStyleLines(node)] + [AutoLayoutLines(node)] + [ClippingLines(node)]
    + [EffectsLines(node)] + [ConstraintsLines(node)] + [ChildCountLines(node)]
  }

  /** The sections of the block, one after the other, the children last. */
  function DetailSections(node: Node): seq<seq<string>> {
    HeadSections(node) + [ChildItems(node.children)]
  }

  /** The array `extractDetailedNodeInfo` builds. */
  function DetailLines(node: Node): seq<string> {
    Flatten(DetailSections(node))
  }

  /** The text `extractDetailedNodeInfo` returns. */
  function DetailText(node: Node): string {
    Join(DetailLines(node), "\n")
  }

  /** The sections' lines one after the other. */
  lemma DetailSectionsInOrder(node: Node)
    ensures DetailLines(node) ==
      HeaderLines(node) + DimensionsLines(node) + PositionLines(node) + VisibilityLines(node)
      + OpacityLines(node) + FillLines(node) + StrokeLines(node) + CornerLines(node)
      + TextContentLines(node) + TextStyleLines(node) + AutoLayoutLines(node) + ClippingLines(node)
      + EffectsLines(node) + ConstraintsLines(node) + ChildCountLines(node) + ChildItems(node.children)
  {
    var p: seq<seq<string>> := [HeaderLines(node)];
    FlattenOne(HeaderLines(node));
    FlattenAppend(p, DimensionsLines(node));
    p := p + [DimensionsLines(node)];
    FlattenAppend(p, PositionLines(node));
    p := p + [PositionLines(node)];
    FlattenAppend(p, VisibilityLines(node));
    p := p + [VisibilityLines(node)];
    FlattenAppend(p, OpacityLines(node));
    p := p + [OpacityLines(node)];
    FlattenAppend(p, FillLines(node));
    p := p + [FillLines(node)];
    FlattenAppend(p, StrokeLines(node));
    p := p + [StrokeLines(node)];
    FlattenAppend(p, CornerLines(node));
    p := p + [CornerLines(node)];
    FlattenAppend(p, TextContentLines(node));
    p := p + [TextContentLines(node)];
    FlattenAppend(p, TextStyleLines(node));
    p := p + [TextStyleLines(node)];
    FlattenAppend(p, AutoLayoutLines(node));
    p := p + [AutoLayoutLines(node)];
    FlattenAppend(p, ClippingLines(node));
    p := p + [ClippingLines(node)];
    FlattenAppend(p, EffectsLines(node));
    p := p + [EffectsLines(node)];
    FlattenAppend(p, ConstraintsLines(node));
    p := p + [ConstraintsLines(node)];
    FlattenAppend(p, ChildCountLines(node));
    p := p + [ChildCountLines(node)];
    FlattenAppend(p, ChildItems(node.children));
    p := p + [ChildItems(node.children)];
  }

  /** code.ts `extractDetailedNodeInfo`: push the basic lines, then each group of
      conditional lines in the order of the source, then join with newlines. */
  method ExtractDetailedNodeInfo(node: Node) returns (r: Result<string>)
    ensures r.Failure? <==> StrokeThrows(node)
    ensures r.Success? ==> r.value == DetailText(node)
    ensures r.Failure? ==> r.error == SymbolToStringError
  {
    var info: seq<string> := [];
    info := info + [HeaderLabel + (TypeName(node) + ": " + node.name + " ===")];
    info := info + [DimensionsLabel + (ShowInt(Round(node.width)) + "×" + ShowInt(Round(node.height)) + "px")];
    info := info + [PositionLabel + ("(" + ShowInt(Round(node.x)) + ", " + ShowInt(Round(node.y)) + ")")];
    assert info == HeaderLines(node) + DimensionsLines(node) + PositionLines(node);
    info := PushVisibilityAndOpacity(node, info);
    info := PushFills(node, info);
    var stroked := PushStrokes(node, info);
    if stroked.Failure? {
      return Failure(stroked.error);
    }
    info := stroked.value;
    info := PushCorner(node, info);
    info := PushTypeDetails(node, info);
    info := PushEffectsAndConstraints(node, info);
    info := PushChildren(node, info);
    DetailSectionsInOrder(node);
    r := Success(Join(info, "\n"));
  }

  /** The visibility line when the node is hidden; the opacity line, in percent,
      when the node has an opacity other than 1. */
  method PushVisibilityAndOpacity(node: Node, info: seq<string>) returns (out: seq<string>)
    ensures out == info + VisibilityLines(node) + OpacityLines(node)
  {
    out := info;
    if !node.visible {
      out := out + [VisibilityLabel + HiddenWord];
    }
    ghost var before := out;
    if node.opacity.Some? && !IsInt(node.opacity.value, 1) {
      out := out + [OpacityLabel + (ShowInt(Round(Times(node.opacity.value, 100))) + "%")];
    }
    assert out == before + OpacityLines(node);
  }

  /** The fill line when the fills are a non-empty list: every fill rendered,
      joined by ", ". */
  method PushFills(node: Node, info: seq<string>) returns (out: seq<string>)
    ensures out == info + FillLines(node)
  {
    out := info;
    if node.fills.Some? {
      var fills := node.fills.value;
      if |fills| > 0 {
        var fillColors := PaintTexts(fills);
        out := out + [FillLabel + Join(fillColors, ", ")];
      }
    }
  }

  /** The stroke line when the strokes are a non-empty list and the node has a
      stroke weight: the weight, then every stroke rendered. A mixed weight is
      interpolated unchecked, and the template literal throws. */
  method PushStrokes(node: Node, info: seq<string>) returns (out: Result<seq<string>>)
    ensures out.Failure? <==> StrokeThrows(node)
    ensures out.Success? ==> out.value == info + StrokeLines(node)
    ensures out.Failure? ==> out.error == SymbolToStringError
  {
    var lines := info;
    if node.strokes.Some? {
      var strokes := node.strokes.value;
      if |strokes| > 0 && !node.strokeWeight.NoWeight? {
        var strokeColors := PaintTexts(strokes);
        match node.strokeWeight
        case MixedWeight =>
          return Failure(SymbolToStringError);
        case Weight(w) =>
          lines := lines + [StrokeLabel + (ShowNum(w) + "px " + Join(strokeColors, ", "))];
      }
    }
    return Success(lines);
  }

  /** The corner line when the radius is a number other than 0. */
  method PushCorner(node: Node, info: seq<string>) returns (out: seq<string>)
    ensures out == info + CornerLines(node)
  {
    out := info;
    if node.cornerRadius.Some? && !IsInt(node.cornerRadius.value, 0) {
      out := out + [CornerLabel + (ShowNum(node.cornerRadius.value) + "px")];
    }
  }

  /** The content and style lines of a text node; the auto-layout line (when the
      summary is not empty) and the clipping line (when clipping is on) of a frame. */
  method PushTypeDetails(node: Node, info: seq<string>) returns (out: seq<string>)
    ensures out == info + TextContentLines(node) + TextStyleLines(node) + AutoLayoutLines(node) + ClippingLines(node)
  {
    out := info;
    if node.kind.TextNode? {
      out := out + [TextContentLabel + ("\"" + node.kind.text.characters + "\"")];
      var style := ExtractTextStyle(node);
      out := out + [TextStyleLabel + style];
    }
    assert out == info + TextContentLines(node) + TextStyleLines(node);
    ghost var before := out;
    if node.kind.FrameNode? {
      var frame := node.kind.frame;
      var autoLayoutInfo := ExtractAutoLayoutInfo(frame);
      if autoLayoutInfo != "" {
        out := out + [AutoLayoutLabel + autoLayoutInfo];
      }
      if frame.clipsContent {
        out := out + [ClippingLabel + EnabledWord];
      }
    }
    assert out == before + AutoLayoutLines(node) + ClippingLines(node);
  }

  /** The effects line when the effects summary is not empty; the constraints line
      when the node has constraints. */
  method PushEffectsAndConstraints(node: Node, info: seq<string>) returns (out: seq<string>)
    ensures out == info + EffectsLines(node) + ConstraintsLines(node)
  {
    out := info;
    var effects := EffectsText(node.effects);
    if effects != "" {
      out := out + [EffectsLabel + effects];
    }
    ghost var before := out;
    if node.constraints.Some? {
      var c := node.constraints.value;
      out := out + [ConstraintsLabel + ("수평(" + c.horizontal + "), 수직(" + c.vertical + ")")];
    }
    assert out == before + ConstraintsLines(node);
  }

  /** The child count and one numbered line per child, in order, when the node has
      children. */
  method PushChildren(node: Node, info: seq<string>) returns (out: seq<string>)
    ensures out == info + ChildCountLines(node) + ChildItems(node.children)
  {
    out := info;
    var children := node.children;
    if |children| > 0 {
      out := out + [ChildCountLabel + (ShowInt(|children|) + "개")];
      ghost var before := out;
      var index := 0;
      while index < |children|
        invariant 0 <= index <= |children|
        invariant out == before + ChildItems(children[..index])
      {
        var child := children[index];
        var line := ChildItemLabel + (ShowInt(index + 1) + ". " + TypeName(child) + ": " + child.name
          + " (" + ShowInt(Round(child.width)) + "×" + ShowInt(Round(child.height)) + "px)");
        assert line == ChildItem(index + 1, child);
        ChildItemsStep(children, index);
        out := out + [line];
        index := index + 1;
      }
      assert children[..|children|] == children;
    }
  }

  /** Visiting one more child appends its line. */
  lemma ChildItemsStep(cs: seq<Node>, i: nat)
    requires i < |cs|
    ensures ChildItems(cs[..i + 1]) == ChildItems(cs[..i]) + [ChildItem(i + 1, cs[i])]
  {
    assert cs[..i + 1][..i] == cs[..i];
  }

  /** The labels are told apart: all but the two text labels by their first
      character, those two by their fifth. */
  lemma DetailLabelsPrefixFree()
    ensures PrefixFree(DetailLabels)
  {
    var labels := DetailLabels;
    forall j, k | 0 <= j < |labels| && 0 <= k < |labels| && j != k
      ensures !HasPrefix(labels[j], labels[k])
    {
      if (j == 8 || j == 9) && (k == 8 || k == 9) {
        DifferAt(labels[j], labels[k], 4);
      } else {
        DifferAt(labels[j], labels[k], 0);
      }
    }
  }

  /** The labels pushed one by one give the fixed list. */
  lemma DetailLabelsPushed()
    ensures [HeaderLabel] + [DimensionsLabel] + [PositionLabel] + [VisibilityLabel] + [OpacityLabel] + [FillLabel]
      + [StrokeLabel] + [CornerLabel] + [TextContentLabel] + [TextStyleLabel] + [AutoLayoutLabel]
      + [ClippingLabel] + [EffectsLabel] + [ConstraintsLabel] + [ChildCountLabel] + [ChildItemLabel] == DetailLabels
  {
  }

  /** Every child line begins with the child-line label. */
  lemma {:induction false} ChildItemsBegin(cs: seq<Node>)
    ensures AllBegin(ChildItems(cs), ChildItemLabel)
    decreases |cs|
  {
    if cs != [] {
      var c := cs[|cs| - 1];
      ChildItemsBegin(cs[..|cs| - 1]);
      PrefixOfConcat(ChildItemLabel, ShowInt(|cs|) + ". " + TypeName(c) + ": " + c.name
        + " (" + ShowRounded(c.width) + "×" + ShowRounded(c.height) + "px)");
    }
  }

  /** Every line of a section begins with that section's label, the labels are
      prefix-free, and every section but the children's has at most one line. */
  lemma DetailSectionsLabelled(node: Node)
    ensures Labelled(DetailSections(node), DetailLabels)
    ensures PrefixFree(DetailLabels)
    ensures forall k :: 0 <= k < |DetailLabels| - 1 ==> |DetailSections(node)[k]| <= 1
  {
    EarlySectionsBegin(node);
    LateSectionsBegin(node);
    DetailLabelsPrefixFree();
    var p: seq<seq<string>> := [HeaderLines(node)];
    var q: seq<string> := [HeaderLabel];
    LabelledAppend(p, q, DimensionsLines(node), DimensionsLabel);
    SingleAppend(p, DimensionsLines(node));
    p, q := p + [DimensionsLines(node)], q + [DimensionsLabel];
    LabelledAppend(p, q, PositionLines(node), PositionLabel);
    SingleAppend(p, PositionLines(node));
    p, q := p + [PositionLines(node)], q + [PositionLabel];
    LabelledAppend(p, q, VisibilityLines(node), VisibilityLabel);
    SingleAppend(p, VisibilityLines(node));
    p, q := p + [VisibilityLines(node)], q + [VisibilityLabel];
    LabelledAppend(p, q, OpacityLines(node), OpacityLabel);
    SingleAppend(p, OpacityLines(node));
    p, q := p + [OpacityLines(node)], q + [OpacityLabel];
    LabelledAppend(p, q, FillLines(node), FillLabel);
    SingleAppend(p, FillLines(node));
    p, q := p + [FillLines(node)], q + [FillLabel];
    LabelledAppend(p, q, StrokeLines(node), StrokeLabel);
    SingleAppend(p, StrokeLines(node));
    p, q := p + [StrokeLines(node)], q + [StrokeLabel];
    LabelledAppend(p, q, CornerLines(node), CornerLabel);
    SingleAppend(p, CornerLines(node));
    p, q := p + [CornerLines(node)], q + [CornerLabel];
    LabelledAppend(p, q, TextContentLines(node), TextContentLabel);
    SingleAppend(p, TextContentLines(node));
    p, q := p + [TextContentLines(node)], q + [TextContentLabel];
    LabelledAppend(p, q, TextStyleLines(node), TextStyleLabel);
    SingleAppend(p, TextStyleLines(node));
    p, q := p + [TextStyleLines(node)], q + [TextStyleLabel];
    LabelledAppend(p, q, AutoLayoutLines(node), AutoLayoutLabel);
    SingleAppend(p, AutoLayoutLines(node));
    p, q := p + [AutoLayoutLines(node)], q + [AutoLayoutLabel];
    LabelledAppend(p, q, ClippingLines(node), ClippingLabel);
    SingleAppend(p, ClippingLines(node));
    p, q := p + [ClippingLines(node)], q + [ClippingLabel];
    LabelledAppend(p, q, EffectsLines(node), EffectsLabel);
    SingleAppend(p, EffectsLines(node));
    p, q := p + [EffectsLines(node)], q + [EffectsLabel];
    LabelledAppend(p, q, ConstraintsLines(node), ConstraintsLabel);
    SingleAppend(p, ConstraintsLines(node));
    p, q := p + [ConstraintsLines(node)], q + [ConstraintsLabel];
    LabelledAppend(p, q, ChildCountLines(node), ChildCountLabel);
    SingleAppend(p, ChildCountLines(node));
    p, q := p + [ChildCountLines(node)], q + [ChildCountLabel];
    ChildItemsBegin(node.children);
    LabelledAppend(p, q, ChildItems(node.children), ChildItemLabel);
    SingleBefore(p, ChildItems(node.children));
    DetailLabelsPushed();
  }

  /** The lines of the header, geometry, visibility, opacity, fill, stroke and
      corner sections begin with their labels. */
  lemma EarlySectionsBegin(node: Node)
    ensures AllBegin(HeaderLines(node), HeaderLabel)
    ensures AllBegin(DimensionsLines(node), DimensionsLabel)
    ensures AllBegin(PositionLines(node), PositionLabel)
    ensures AllBegin(VisibilityLines(node), VisibilityLabel)
    ensures AllBegin(OpacityLines(node), OpacityLabel)
    ensures AllBegin(FillLines(node), FillLabel)
    ensures AllBegin(StrokeLines(node), StrokeLabel)
    ensures AllBegin(CornerLines(node), CornerLabel)
  {
    OneLine(HeaderLabel, TypeName(node) + ": " + node.name + " ===");
    OneLine(DimensionsLabel, ShowRounded(node.width) + "×" + ShowRounded(node.height) + "px");
    OneLine(PositionLabel, "(" + ShowRounded(node.x) + ", " + ShowRounded(node.y) + ")");
    OneLine(VisibilityLabel, HiddenWord);
    assert AllBegin(OpacityLines(node), OpacityLabel) by {
      if node.opacity.Some? {
        OneLine(OpacityLabel, ShowRounded(Times(node.opacity.value, 100)) + "%");
      }
    }
    assert AllBegin(FillLines(node), FillLabel) by {
      if node.fills.Some? {
        OneLine(FillLabel, PaintsText(node.fills.value));
      }
    }
    assert AllBegin(StrokeLines(node), StrokeLabel) by {
      if node.strokes.Some? && node.strokeWeight.Weight? {
        OneLine(StrokeLabel, ShowNum(node.strokeWeight.px) + "px " + PaintsText(node.strokes.value));
      }
    }
    assert AllBegin(CornerLines(node), CornerLabel) by {
      if node.cornerRadius.Some? {
        OneLine(CornerLabel, ShowNum(node.cornerRadius.value) + "px");
      }
    }
  }

  /** The lines of the text, layout, clipping, effects, constraints and child-count
      sections begin with their labels. */
  lemma LateSectionsBegin(node: Node)
    ensures AllBegin(TextContentLines(node), TextContentLabel)
    ensures AllBegin(TextStyleLines(node), TextStyleLabel)
    ensures AllBegin(AutoLayoutLines(node), AutoLayoutLabel)
    ensures AllBegin(ClippingLines(node), ClippingLabel)
    ensures AllBegin(EffectsLines(node), EffectsLabel)
    ensures AllBegin(ConstraintsLines(node), ConstraintsLabel)
    ensures AllBegin(ChildCountLines(node), ChildCountLabel)
  {
    assert AllBegin(TextContentLines(node), TextContentLabel) by {
      if node.kind.TextNode? {
        OneLine(TextContentLabel, "\"" + node.kind.text.characters + "\"");
      }
    }
    assert AllBegin(TextStyleLines(node), TextStyleLabel) by {
      if node.kind.TextNode? {
        OneLine(TextStyleLabel, TextStyleText(node));
      }
    }
    assert AllBegin(AutoLayoutLines(node), AutoLayoutLabel) by {
      if node.kind.FrameNode? {
        OneLine(AutoLayoutLabel, AutoLayoutText(node.kind.frame));
      }
    }
    OneLine(ClippingLabel, EnabledWord);
    OneLine(EffectsLabel, EffectsText(node.effects));
    assert AllBegin(ConstraintsLines(node), ConstraintsLabel) by {
      if node.constraints.Some? {
        OneLine(ConstraintsLabel, "수평(" + node.constraints.value.horizontal + "), 수직(" + node.constraints.value.vertical + ")");
      }
    }
    OneLine(ChildCountLabel, ShowInt(|node.children|) + "개");
  }

  /** Section `k` of sixteen sections pushed one by one is the `k`-th pushed. */
  lemma SectionsAt(
    s0: seq<string>, s1: seq<string>, s2: seq<string>, s3: seq<string>, s4: seq<string>, s5: seq<string>, s6: seq<string>, s7: seq<string>,
    s8: seq<string>, s9: seq<string>, s10: seq<string>, s11: seq<string>, s12: seq<string>, s13: seq<string>, s14: seq<string>, s15: seq<string>)
    ensures var secs := [s0] + [s1] + [s2] + [s3] + [s4] + [s5] + [s6] + [s7]
      + [s8] + [s9] + [s10] + [s11] + [s12] + [s13] + [s14] + [s15];
      |secs| == 16 && secs[0] == s0 && secs[1] == s1 && secs[2] == s2 && secs[3] == s3
      && secs[4] == s4 && secs[5] == s5 && secs[6] == s6 && secs[7] == s7
      && secs[8] == s8 && secs[9] == s9 && secs[10] == s10 && secs[11] == s11
      && secs[12] == s12 && secs[13] == s13 && secs[14] == s14 && secs[15] == s15
  {
  }

  /** Some line begins with the label of kind `l` exactly when the source's
      condition for pushing that line holds. */
  lemma DetailLineShownIff(node: Node, l: DetailLine)
    ensures (exists i :: 0 <= i < |DetailLines(node)| && HasPrefix(DetailLines(node)[i], DetailLabels[Index(l)]))
        <==> Shown(node, l)
  {
    var secs, lines, tag := DetailSections(node), DetailLines(node), DetailLabels[Index(l)];
    assert lines == Flatten(secs);
    DetailSectionsLabelled(node);
    MentionsIff(secs, DetailLabels, Index(l));
    SectionShownIff(node, l);
    if Shown(node, l) {
      var i :| 0 <= i < |Flatten(secs)| && HasPrefix(Flatten(secs)[i], tag);
      assert 0 <= i < |lines| && HasPrefix(lines[i], tag);
    } else {
      forall i | 0 <= i < |lines| ensures !HasPrefix(lines[i], tag) {
        assert lines[i] == Flatten(secs)[i];
      }
    }
  }

  /** The section of kind `l` is non-empty exactly when its condition holds. */
  lemma SectionShownIff(node: Node, l: DetailLine)
    ensures DetailSections(node)[Index(l)] != [] <==> Shown(node, l)
  {
    SectionsAt(HeaderLines(node), DimensionsLines(node), PositionLines(node), VisibilityLines(node), OpacityLines(node), FillLines(node), StrokeLines(node), CornerLines(node), TextContentLines(node), TextStyleLines(node), AutoLayoutLines(node), ClippingLines(node), EffectsLines(node), ConstraintsLines(node), ChildCountLines(node), ChildItems(node.children));
    match l
    case HeaderLine =>
    case DimensionsLine =>
    case PositionLine =>
    case VisibilityLine =>
    case OpacityLine =>
    case FillLine =>
    case StrokeLine =>
    case CornerLine =>
    case TextContentLine =>
    case TextStyleLine =>
    case AutoLayoutLine =>
      if node.kind.FrameNode? {
        AutoLayoutEmptyIff(node.kind.frame);
      }
    case ClippingLine =>
    case EffectsLine =>
    case ConstraintsLine =>
    case ChildCountLine =>
    case ChildItemLine =>
  }

  /** The lines come in the fixed order of their kinds. */
  lemma DetailLinesInOrder(node: Node, i: nat, j: nat, a: DetailLine, b: DetailLine)
    requires i <= j < |DetailLines(node)|
    requires HasPrefix(DetailLines(node)[i], DetailLabels[Index(a)])
    requires HasPrefix(DetailLines(node)[j], DetailLabels[Index(b)])
    ensures Index(a) <= Index(b)
  {
    DetailSectionsLabelled(node);
    LabelsInOrder(DetailSections(node), DetailLabels, i, j, Index(a), Index(b));
  }

  /** Every kind but the child lines occurs at most once. */
  lemma DetailLineOnce(node: Node, i: nat, j: nat, l: DetailLine)
    requires l != ChildItemLine
    requires i < |DetailLines(node)| && j < |DetailLines(node)|
    requires HasPrefix(DetailLines(node)[i], DetailLabels[Index(l)])
    requires HasPrefix(DetailLines(node)[j], DetailLabels[Index(l)])
    ensures i == j
  {
    DetailSectionsLabelled(node);
    AtMostOnce(DetailSections(node), DetailLabels, Index(l), i, j);
  }

  /** Child `m` (counted from 0) gets number `m + 1`. */
  lemma {:induction false} ChildItemsAt(cs: seq<Node>, m: nat)
    requires m < |cs|
    ensures ChildItems(cs)[m] == ChildItem(m + 1, cs[m])
    decreases |cs|
  {
    if m < |cs| - 1 {
      ChildItemsAt(cs[..|cs| - 1], m);
    }
  }

  /** The block ends with one line per child, in order, numbered from 1. */
  lemma ChildLinesLast(node: Node, m: nat)
    requires m < |node.children|
    ensures |DetailLines(node)| >= |node.children|
    ensures DetailLines(node)[|DetailLines(node)| - |node.children| + m] == ChildItem(m + 1, node.children[m])
  {
    FlattenAppend(HeadSections(node), ChildItems(node.children));
    ChildItemsAt(node.children, m);
  }

  /** The block begins with the header naming the node's type and name. */
  lemma HeaderFirst(node: Node)
    ensures HasPrefix(DetailText(node), HeaderLabel + (TypeName(node) + ": " + node.name + " ==="))
    ensures |DetailText(node)| > 0 && DetailText(node)[0] == HeaderLabel[0]
  {
    DetailSectionsInOrder(node);
    var h := HeaderLabel + (TypeName(node) + ": " + node.name + " ===");
    assert DetailText(node)[..|h|] == h;
    assert DetailText(node)[0] == DetailText(node)[..|h|][0];
  }

  /** An opacity of `p` percent other than 100 is shown as "p%"; an opacity of
      exactly 1 is not shown. */
  lemma OpacityPercent(node: Node, p: int)
    requires node.opacity.Some? && IsInt(Times(node.opacity.value, 100), p)
    ensures p != 100 ==> OpacityLines(node) == [OpacityLabel + (ShowInt(p) + "%")]
    ensures p == 100 ==> OpacityLines(node) == []
  {
    var o := node.opacity.value;
    IsIntMeansValue(Times(o, 100), p);
    IsIntMeansValue(o, 1);
    RoundWhole(Times(o, 100), p);
  }
}
