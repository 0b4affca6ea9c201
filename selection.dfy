/** The description of the current selection that the plugin sends to its window
    (code.ts `getSelectionDescription`): a fixed sentence when nothing is selected;
    otherwise a preamble with the count and the page, one block per selected node,
    the outline of the node when exactly one is selected, and a closing list of
    review points, all joined by newlines. */
module Selection {
  import opened Wrappers
  import opened Strings
  import opened Design
  import opened Detail
  import opened Hierarchy

  const NoSelectionText := "선택된 요소가 없습니다."
  const CountLabel := "📋 선택된 요소: "
  const PageLabel := "📄 페이지: "
  const ElementLabel := "🔍 요소 "
  const HierarchyTitle := "🌳 계층 구조:"
  const PointsTitle := "💡 분석 포인트:"

  /** The entries before the per-node blocks. */
  function Preamble(n: nat, pageName: string): seq<string> {
    [CountLabel + (ShowInt(n) + "개"), PageLabel + pageName, ""]
  }

  /** The block of the node numbered `number` (counted from 1) with detail text `text`. */
  function ElementBlock(number: nat, text: string): seq<string> {
    [ElementLabel + (ShowInt(number) + ":"), text, ""]
  }

  /** One block per detail text, numbered from 1 in order. */
  function Blocks(texts: seq<string>): (r: seq<string>)
    ensures |r| == 3 * |texts|
  {
    if texts == [] then []
    else Blocks(texts[..|texts| - 1]) + ElementBlock(|texts|, texts[|texts| - 1])
  }

  /** The detail text of every selected node, in selection order. */
  function DetailTexts(selection: seq<Node>): (r: seq<string>)
    ensures |r| == |selection|
  {
    if selection == [] then []
    else DetailTexts(selection[..|selection| - 1]) + [DetailText(selection[|selection| - 1])]
  }

  /** Entry `i` is the detail text of node `i`. */
  lemma {:induction false} DetailTextAt(selection: seq<Node>, i: nat)
    requires i < |selection|
    ensures DetailTexts(selection)[i] == DetailText(selection[i])
    decreases |selection|
  {
    var n := |selection|;
    var front, last := DetailTexts(selection[..n - 1]), DetailText(selection[n - 1]);
    assert DetailTexts(selection) == front + [last];
    if i < n - 1 {
      DetailTextAt(selection[..n - 1], i);
      assert selection[..n - 1][i] == selection[i];
      assert (front + [last])[i] == front[i];
    } else {
      assert (front + [last])[i] == last;
    }
  }

  /** The outline block, for a selection of exactly one node. */
  function HierarchyEntries(selection: seq<Node>): seq<string> {
    if |selection| == 1 then [HierarchyTitle, HierarchyText(selection[0], 0), ""] else []
  }

  /** The closing review points. */
  function ClosingEntries(n: nat): seq<string> {
    [ PointsTitle,
      "- 총 " + (ShowInt(n) + "개 요소의 디자인 일관성"),
      "- 스타일 가이드 준수 여부 (색상, 폰트, 간격)",
      "- 레이아웃 구조의 적절성",
      "- 사용자 경험 관점에서의 접근성",
      "- 반응형 디자인 고려사항" ]
  }

  /** The description's entries for `n` nodes with detail texts `texts` and the
      outline block `outline`. */
  function Layout(n: nat, pageName: string, texts: seq<string>, outline: seq<string>): seq<string> {
    Preamble(n, pageName) + Blocks(texts) + outline + ClosingEntries(n)
  }

  /** The array `getSelectionDescription` builds for a non-empty selection. */
  function Entries(selection: seq<Node>, pageName: string): seq<string> {
    Layout(|selection|, pageName, DetailTexts(selection), HierarchyEntries(selection))
  }

  /** The text `getSelectionDescription` returns. */
  function SelectionText(selection: seq<Node>, pageName: string): string {
    if selection == [] then NoSelectionText else Join(Entries(selection, pageName), "\n")
  }

  /** code.ts `getSelectionDescription`, with the page's selection and name as
      parameters: the preamble, a block per node, the outline for a single node,
      the review points, then the join. */
  method GetSelectionDescription(selection: seq<Node>, pageName: string) returns (r: Result<string>)
    ensures r.Failure? <==> AnyStrokeThrows(selection)
    ensures r.Success? ==> r.value == SelectionText(selection, pageName)
    ensures r.Failure? ==> r.error == SymbolToStringError
  {
    if |selection| == 0 {
      return Success(NoSelectionText);
    }
    var n := |selection|;
    var descriptions: seq<string> := [];
    var count, page := CountLabel + (ShowInt(n) + "개"), PageLabel + pageName;
    descriptions := descriptions + [count];
    descriptions := descriptions + [page];
    descriptions := descriptions + [""];
    assert descriptions == [count, page, ""];
    var blocks := PushElements(selection, descriptions);
    if blocks.Failure? {
      return Failure(blocks.error);
    }
    descriptions := blocks.value;
    descriptions := PushHierarchy(selection, descriptions);
    descriptions := PushClosing(n, descriptions);
    r := Success(Join(descriptions, "\n"));
  }

  /** Some selected node makes its detail block throw. */
  predicate AnyStrokeThrows(selection: seq<Node>) {
    exists k :: 0 <= k < |selection| && StrokeThrows(selection[k])
  }

  /** The `selection.forEach` loop: the block of every node, in order, unless
      the detail block of a node throws, which ends the loop. */
  method PushElements(selection: seq<Node>, start: seq<string>) returns (out: Result<seq<string>>)
    ensures out.Failure? <==> AnyStrokeThrows(selection)
    ensures out.Success? ==> out.value == start + Blocks(DetailTexts(selection))
    ensures out.Failure? ==> out.error == SymbolToStringError
  {
    var descriptions := start;
    assert selection[..0] == [];
    var index := 0;
    while index < |selection|
      invariant 0 <= index <= |selection|
      invariant descriptions == start + Blocks(DetailTexts(selection[..index]))
      invariant !AnyStrokeThrows(selection[..index])
    {
      ghost var done := Blocks(DetailTexts(selection[..index]));
      var next := PushElement(descriptions, index + 1, selection[index]);
      if next.Failure? {
        assert StrokeThrows(selection[index]);
        return Failure(next.error);
      }
      ThrowsStep(selection, index);
      descriptions := next.value;
      ElementsStep(selection, index);
      ConcatAssoc(start, done, ElementBlock(index + 1, DetailText(selection[index])));
      index := index + 1;
    }
    assert selection[..|selection|] == selection;
    return Success(descriptions);
  }

  /** One turn of the loop: the node's number, its detail text and an empty
      entry, or the error the detail block throws. */
  method PushElement(start: seq<string>, number: nat, node: Node) returns (out: Result<seq<string>>)
    ensures out.Failure? <==> StrokeThrows(node)
    ensures out.Success? ==> out.value == start + ElementBlock(number, DetailText(node))
    ensures out.Failure? ==> out.error == SymbolToStringError
  {
    var info := ExtractDetailedNodeInfo(node);
    if info.Failure? {
      return Failure(info.error);
    }
    var title := ElementLabel + (ShowInt(number) + ":");
    var descriptions := start;
    descriptions := descriptions + [title];
    descriptions := descriptions + [info.value];
    descriptions := descriptions + [""];
    PushThree(start, title, info.value, "");
    return Success(descriptions);
  }

  /** The outline block when exactly one node is selected. */
  method PushHierarchy(selection: seq<Node>, start: seq<string>) returns (out: seq<string>)
    ensures out == start + HierarchyEntries(selection)
  {
    out := start;
    if |selection| == 1 {
      var hierarchy := ExtractHierarchy(selection[0], 0);
      out := out + [HierarchyTitle];
      out := out + [hierarchy];
      out := out + [""];
      PushThree(start, HierarchyTitle, hierarchy, "");
    }
  }

  /** The review points, the first naming the number of selected nodes. */
  method PushClosing(n: nat, start: seq<string>) returns (out: seq<string>)
    ensures out == start + ClosingEntries(n)
  {
    var total := "- 총 " + (ShowInt(n) + "개 요소의 디자인 일관성");
    var style := "- 스타일 가이드 준수 여부 (색상, 폰트, 간격)";
    var layout := "- 레이아웃 구조의 적절성";
    var access := "- 사용자 경험 관점에서의 접근성";
    var responsive := "- 반응형 디자인 고려사항";
    out := start;
    out := out + [PointsTitle];
    out := out + [total];
    out := out + [style];
    out := out + [layout];
    out := out + [access];
    out := out + [responsive];
    assert out == start + [PointsTitle, total, style, layout, access, responsive];
  }

  /** Three pushes append the three entries. */
  lemma PushThree(prev: seq<string>, a: string, b: string, c: string)
    ensures prev + [a] + [b] + [c] == prev + [a, b, c]
  {
  }

  /** Visiting one more node appends its block. */
  lemma ElementsStep(selection: seq<Node>, i: nat)
    requires i < |selection|
    ensures Blocks(DetailTexts(selection[..i + 1]))
         == Blocks(DetailTexts(selection[..i])) + ElementBlock(i + 1, DetailText(selection[i]))
  {
    var p := selection[..i + 1];
    assert p[..i] == selection[..i];
    var ts := DetailTexts(selection[..i]);
    var t := DetailText(selection[i]);
    assert DetailTexts(p) == ts + [t];
    assert (ts + [t])[..|ts|] == ts;
  }

  /** A node that does not throw extends a prefix that does not throw. */
  lemma ThrowsStep(selection: seq<Node>, i: nat)
    requires i < |selection| && !AnyStrokeThrows(selection[..i]) && !StrokeThrows(selection[i])
    ensures !AnyStrokeThrows(selection[..i + 1])
  {
    var p := selection[..i + 1];
    forall k | 0 <= k < |p| ensures !StrokeThrows(p[k]) {
      if k < i {
        assert p[k] == selection[..i][k];
      }
    }
  }

  /** Entry `3k + j` of the blocks is entry `j` of block `k`. */
  lemma {:induction false} BlocksAt(texts: seq<string>, k: nat, j: nat)
    requires k < |texts| && j < 3
    ensures Blocks(texts)[3 * k + j] == ElementBlock(k + 1, texts[k])[j]
    decreases |texts|
  {
    var n := |texts|;
    if k < n - 1 {
      BlocksAt(texts[..n - 1], k, j);
      assert texts[..n - 1][k] == texts[k];
    }
  }

  /** No block entry is the outline's title when no detail text is. */
  lemma {:induction false} NoTitleInBlocks(texts: seq<string>)
    requires forall i :: 0 <= i < |texts| ==> texts[i] != HierarchyTitle
    ensures HierarchyTitle !in Blocks(texts)
    decreases |texts|
  {
    if texts != [] {
      var n := |texts|;
      NoTitleInBlocks(texts[..n - 1]);
      assert (ElementLabel + (ShowInt(n) + ":"))[0] == ElementLabel[0];
    }
  }

  /** A detail text begins with the header mark, so it is never the outline's title. */
  lemma DetailTextsNoTitle(selection: seq<Node>)
    ensures forall i :: 0 <= i < |selection| ==> DetailTexts(selection)[i] != HierarchyTitle
  {
    forall i | 0 <= i < |selection| ensures DetailTexts(selection)[i] != HierarchyTitle {
      DetailTextAt(selection, i);
      HeaderFirst(selection[i]);
    }
  }

  /** The first entry gives the count. */
  lemma LayoutFirst(n: nat, pageName: string, texts: seq<string>, outline: seq<string>)
    ensures var e := Layout(n, pageName, texts, outline);
      e != [] && e[0] == CountLabel + (ShowInt(n) + "개")
  {
    var p := Preamble(n, pageName);
    assert Layout(n, pageName, texts, outline) == p + (Blocks(texts) + outline + ClosingEntries(n));
  }

  /** Entries `3k + 3` to `3k + 5` are block `k`. */
  lemma LayoutBlockAt(n: nat, pageName: string, texts: seq<string>, outline: seq<string>, k: nat)
    requires k < |texts|
    ensures var e := Layout(n, pageName, texts, outline);
      3 * k + 5 < |e| &&
      e[3 * k + 3] == ElementLabel + (ShowInt(k + 1) + ":") && e[3 * k + 4] == texts[k] && e[3 * k + 5] == ""
  {
    var p, b, rest := Preamble(n, pageName), Blocks(texts), outline + ClosingEntries(n);
    assert Layout(n, pageName, texts, outline) == p + b + rest;
    BlocksAt(texts, k, 0);
    BlocksAt(texts, k, 1);
    BlocksAt(texts, k, 2);
    InMiddle(p, b, rest, 3 * k);
    InMiddle(p, b, rest, 3 * k + 1);
    InMiddle(p, b, rest, 3 * k + 2);
  }

  /** Indexing past the first part of a concatenation of three. */
  lemma InMiddle(p: seq<string>, b: seq<string>, rest: seq<string>, m: nat)
    requires m < |b|
    ensures |p| + m < |p + b + rest| && (p + b + rest)[|p| + m] == b[m]
  {
  }

  /** With no detail text being the outline's title, the title occurs exactly
      where the outline block has it. */
  lemma LayoutTitle(n: nat, pageName: string, texts: seq<string>, outline: seq<string>)
    requires forall i :: 0 <= i < |texts| ==> texts[i] != HierarchyTitle
    ensures HierarchyTitle in Layout(n, pageName, texts, outline) <==> HierarchyTitle in outline
    ensures forall m :: 0 <= m < |outline| ==> Layout(n, pageName, texts, outline)[3 + 3 * |texts| + m] == outline[m]
  {
    var p, b, c := Preamble(n, pageName), Blocks(texts), ClosingEntries(n);
    var e := Layout(n, pageName, texts, outline);
    assert e == p + b + outline + c;
    NoTitleInBlocks(texts);
    assert HierarchyTitle !in p by {
      assert p[0][0] == CountLabel[0] && p[1][0] == PageLabel[0];
    }
    assert HierarchyTitle !in c by {
      assert c[0][0] == PointsTitle[0];
      forall i | 1 <= i < 6 ensures c[i][0] == '-' { }
    }
  }

  /** The closing points come last; the entry count. */
  lemma LayoutLast(n: nat, pageName: string, texts: seq<string>, outline: seq<string>)
    ensures var e := Layout(n, pageName, texts, outline);
      |e| == 3 + 3 * |texts| + |outline| + 6 && e[|e| - 6..] == ClosingEntries(n)
  {
    var front := Preamble(n, pageName) + Blocks(texts) + outline;
    var e := Layout(n, pageName, texts, outline);
    assert e == front + ClosingEntries(n);
    assert e[|e| - 6..] == ClosingEntries(n);
  }

  /** The description is the fixed sentence exactly when nothing is selected;
      otherwise it begins with the number of selected nodes. */
  lemma NoSelectionIff(selection: seq<Node>, pageName: string)
    ensures SelectionText(selection, pageName) == NoSelectionText <==> selection == []
    ensures selection != [] ==> HasPrefix(SelectionText(selection, pageName), CountLabel + (ShowInt(|selection|) + "개"))
  {
    if selection != [] {
      var e := Entries(selection, pageName);
      LayoutFirst(|selection|, pageName, DetailTexts(selection), HierarchyEntries(selection));
      var t := Join(e, "\n");
      assert t[..|e[0]|] == e[0];
      assert t[0] == t[..|e[0]|][0];
    }
  }

  /** Node `k` of the selection (counted from 0) has its block right after the
      preamble and the blocks before it: its number `k + 1`, its detail text and
      an empty entry. */
  lemma ElementBlockAt(selection: seq<Node>, pageName: string, k: nat)
    requires k < |selection|
    ensures var e := Entries(selection, pageName);
      3 * k + 5 < |e| &&
      e[3 * k + 3] == ElementLabel + (ShowInt(k + 1) + ":") &&
      e[3 * k + 4] == DetailText(selection[k]) &&
      e[3 * k + 5] == ""
  {
    LayoutBlockAt(|selection|, pageName, DetailTexts(selection), HierarchyEntries(selection), k);
    DetailTextAt(selection, k);
  }

  /** The outline block is present exactly when one node is selected, and then
      holds the outline of that node from depth 0. */
  lemma HierarchyShownIff(selection: seq<Node>, pageName: string)
    ensures HierarchyTitle in Entries(selection, pageName) <==> |selection| == 1
    ensures |selection| == 1 ==> Entries(selection, pageName)[7] == HierarchyText(selection[0], 0)
  {
    var texts, outline := DetailTexts(selection), HierarchyEntries(selection);
    DetailTextsNoTitle(selection);
    LayoutTitle(|selection|, pageName, texts, outline);
    if |selection| == 1 {
      assert outline[0] == HierarchyTitle;
      assert Entries(selection, pageName)[3 + 3 * |texts| + 1] == outline[1];
    }
  }

  /** The description ends with the six review points, and holds three entries
      before the blocks, three per node, three more for a single node's outline. */
  lemma ClosingLast(selection: seq<Node>, pageName: string)
    ensures var e := Entries(selection, pageName);
      |e| == 3 + 3 * |selection| + (if |selection| == 1 then 3 else 0) + 6 &&
      e[|e| - 6..] == ClosingEntries(|selection|)
  {
    LayoutLast(|selection|, pageName, DetailTexts(selection), HierarchyEntries(selection));
  }
}
