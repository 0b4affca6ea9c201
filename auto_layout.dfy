/** The auto-layout summary of a frame (code.ts `extractAutoLayoutInfo`): nothing
    for a frame without auto layout, otherwise its direction, spacing, padding and
    alignment, joined by ", ". */
module AutoLayout {
  import opened Strings
  import opened Numbers
  import opened Design

  const DirectionLabel := "레이아웃: "
  const SpacingLabel := "간격: "
  const PaddingLabel := "패딩: "
  const AlignmentLabel := "정렬: "

  /** The entries of an auto-layout summary, in the order they are pushed. */
  const LayoutLabels := [DirectionLabel, SpacingLabel, PaddingLabel, AlignmentLabel]

  const HorizontalWord := "수평"
  const VerticalWord := "수직"

  /** A length in pixels: the number followed by "px". */
  function Px(n: Num): string {
    ShowNum(n) + "px"
  }

  /** The direction word: horizontal for a horizontal layout, vertical for any
      other mode. */
  function DirectionWord(m: LayoutMode): string {
    if m == Horizontal then HorizontalWord else VerticalWord
  }

  /** The array `extractAutoLayoutInfo` builds. */
  function LayoutParts(f: FrameProps): seq<string> {
    if f.layoutMode == NoLayout then []
    else
      [ DirectionLabel + DirectionWord(f.layoutMode),
        SpacingLabel + Px(f.itemSpacing),
        PaddingLabel + (Px(f.paddingTop) + " " + Px(f.paddingRight) + " " + Px(f.paddingBottom) + " " + Px(f.paddingLeft)),
        AlignmentLabel + (f.primaryAxisAlignItems + ", " + f.counterAxisAlignItems) ]
  }

  /** The text `extractAutoLayoutInfo` returns. */
  function AutoLayoutText(f: FrameProps): string {
    Join(LayoutParts(f), ", ")
  }

  /** code.ts `extractAutoLayoutInfo`: four pushes when the frame has auto layout,
      then the join. */
  method ExtractAutoLayoutInfo(f: FrameProps) returns (r: string)
    ensures r == AutoLayoutText(f)
  {
    var layoutInfo: seq<string> := [];
    if f.layoutMode != NoLayout {
      var direction := DirectionLabel + (if f.layoutMode == Horizontal then HorizontalWord else VerticalWord);
      var spacing := SpacingLabel + Px(f.itemSpacing);
      var padding := PaddingLabel + (Px(f.paddingTop) + " " + Px(f.paddingRight) + " "
        + Px(f.paddingBottom) + " " + Px(f.paddingLeft));
      var alignment := AlignmentLabel + (f.primaryAxisAlignItems + ", " + f.counterAxisAlignItems);
      layoutInfo := layoutInfo + [direction];
      layoutInfo := layoutInfo + [spacing];
      layoutInfo := layoutInfo + [padding];
      layoutInfo := layoutInfo + [alignment];
      assert layoutInfo == [direction, spacing, padding, alignment];
    }
    r := Join(layoutInfo, ", ");
  }

  /** The summary is empty exactly when the frame has no auto layout. */
  lemma AutoLayoutEmptyIff(f: FrameProps)
    ensures AutoLayoutText(f) == "" <==> f.layoutMode == NoLayout
  {
    if f.layoutMode != NoLayout {
      JoinNonEmpty(LayoutParts(f), ", ");
    }
  }

  /** With auto layout there are exactly four entries: direction, spacing,
      padding, alignment, each beginning with its label. */
  lemma FourEntries(f: FrameProps)
    requires f.layoutMode != NoLayout
    ensures |LayoutParts(f)| == 4
    ensures forall i :: 0 <= i < 4 ==> HasPrefix(LayoutParts(f)[i], LayoutLabels[i])
  {
    var p := LayoutParts(f);
    PrefixOfConcat(DirectionLabel, DirectionWord(f.layoutMode));
    PrefixOfConcat(SpacingLabel, Px(f.itemSpacing));
    PrefixOfConcat(PaddingLabel, p[2][|PaddingLabel|..]);
    PrefixOfConcat(AlignmentLabel, p[3][|AlignmentLabel|..]);
  }

  /** The direction entry says horizontal exactly for a horizontal layout and
      vertical for every other mode. */
  lemma DirectionIff(f: FrameProps)
    requires f.layoutMode != NoLayout
    ensures LayoutParts(f)[0] == DirectionLabel + HorizontalWord <==> f.layoutMode == Horizontal
    ensures LayoutParts(f)[0] == DirectionLabel + VerticalWord <==> f.layoutMode in {Vertical, GridLayout}
  {
    var n := |DirectionLabel|;
    var h, v := DirectionLabel + HorizontalWord, DirectionLabel + VerticalWord;
    assert h[n + 1] == HorizontalWord[1] && v[n + 1] == VerticalWord[1];
    assert h != v;
  }

  /** Whole paddings print as integers, in the order top, right, bottom, left. */
  lemma PaddingInPixels(f: FrameProps, top: int, right: int, bottom: int, left: int)
    requires f.layoutMode != NoLayout
    requires IsInt(f.paddingTop, top) && IsInt(f.paddingRight, right)
    requires IsInt(f.paddingBottom, bottom) && IsInt(f.paddingLeft, left)
    ensures LayoutParts(f)[2] == PaddingLabel + ((ShowInt(top) + "px") + " " + (ShowInt(right) + "px") + " "
      + (ShowInt(bottom) + "px") + " " + (ShowInt(left) + "px"))
  {
    ShowWhole(f.paddingTop, top);
    ShowWhole(f.paddingRight, right);
    ShowWhole(f.paddingBottom, bottom);
    ShowWhole(f.paddingLeft, left);
  }
}
