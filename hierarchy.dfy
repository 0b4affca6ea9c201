/** The indented outline of a node and its descendants (code.ts `extractHierarchy`):
    a header line "type: name" at the current depth, then, for a node with
    children, a count line and the outline of every child two depths further in. */
module Hierarchy {
  import opened Wrappers
  import opened Strings
  import opened Design

  /** `'  '.repeat(depth)`. */
  function Indentation(depth: nat): string {
    Repeat("  ", depth)
  }

  /** The header of a node: its type and its name. */
  function Title(node: Node): string {
    TypeName(node) + ": " + node.name
  }

  /** The count line of a node with `n` children, before indentation. */
  function CountText(n: nat): string {
    "  자식 요소 (" + ShowInt(n) + "개):"
  }

  /** The lines of the outline of `node` at `depth`. */
  function HierarchyLines(node: Node, depth: nat): (r: seq<string>)
    ensures r != [] && r[0] == Indentation(depth) + Title(node)
    decreases node, 1
  {
    var head := Indentation(depth) + Title(node);
    if node.children == [] then [head]
    else [head, Indentation(depth) + CountText(|node.children|)] + ForestLines(node.children, depth + 2)
  }

  /** The outlines of `cs`, one after the other, each at `depth`. */
  function ForestLines(cs: seq<Node>, depth: nat): seq<string>
    decreases cs, 0
  {
    if cs == [] then [] else ForestLines(cs[..|cs| - 1], depth) + HierarchyLines(cs[|cs| - 1], depth)
  }

  /** The text `extractHierarchy` returns: the header, then for a node with
      children a newline, the count line and the children's outlines. */
  function HierarchyText(node: Node, depth: nat): string
    decreases node, 1
  {
    var head := Indentation(depth) + Title(node);
    if node.children == [] then head
    else head + "\n" + (Indentation(depth) + CountText(|node.children|)) + ForestText(node.children, depth + 2)
  }

  /** The outlines of `cs` at `depth`, each preceded by a newline. */
  function ForestText(cs: seq<Node>, depth: nat): string
    decreases cs, 0
  {
    if cs == [] then "" else ForestText(cs[..|cs| - 1], depth) + "\n" + HierarchyText(cs[|cs| - 1], depth)
  }

  /** code.ts `extractHierarchy`: the header, then for a node with children the
      count line and, child by child, a newline and the child's own outline. */
  method ExtractHierarchy(node: Node, depth: nat) returns (r: string)
    ensures r == HierarchyText(node, depth)
    decreases node
  {
    var indent := Indentation(depth);
    r := indent + Title(node);
    var children := node.children;
    if |children| > 0 {
      r := r + "\n" + (indent + CountText(|children|));
      ghost var start := r;
      assert children[..0] == [];
      var i := 0;
      while i < |children|
        invariant 0 <= i <= |children|
        invariant r == start + ForestText(children[..i], depth + 2)
      {
        var child := ExtractHierarchy(children[i], depth + 2);
        ForestTextStep(start, children, i, depth + 2);
        r := r + "\n" + child;
        i := i + 1;
      }
      assert children[..|children|] == children;
    }
  }

  /** Visiting one more child appends a newline and that child's outline. */
  lemma ForestTextStep(start: string, cs: seq<Node>, i: nat, depth: nat)
    requires i < |cs|
    ensures start + ForestText(cs[..i + 1], depth) == start + ForestText(cs[..i], depth) + "\n" + HierarchyText(cs[i], depth)
  {
    assert cs[..i + 1][..i] == cs[..i];
    var f := ForestText(cs[..i], depth);
    var h := HierarchyText(cs[i], depth);
    assert start + (f + "\n" + h) == start + f + "\n" + h;
  }

  /** Two lines followed by more, joined. */
  lemma JoinTwoThen(h: string, c: string, f: seq<string>, sep: string)
    requires f != []
    ensures Join([h, c] + f, sep) == h + sep + c + (sep + Join(f, sep))
  {
    assert [h, c][..1] == [h];
    JoinConcat([h, c], f, sep);
    ConcatAssoc(h + sep + c, sep, Join(f, sep));
  }

  /** Two non-empty lists joined, behind a leading separator. */
  lemma JoinAfterSep(a: seq<string>, b: seq<string>, sep: string)
    requires a != [] && b != []
    ensures sep + Join(a + b, sep) == sep + Join(a, sep) + sep + Join(b, sep)
  {
    JoinConcat(a, b, sep);
    ConcatAssoc(sep, Join(a, sep) + sep, Join(b, sep));
    ConcatAssoc(sep, Join(a, sep), sep);
  }

  /** The text is the outline's lines joined by newlines. */
  lemma {:induction false} HierarchyJoin(node: Node, depth: nat)
    ensures HierarchyText(node, depth) == Join(HierarchyLines(node, depth), "\n")
    decreases node, 1
  {
    if node.children != [] {
      ForestJoin(node.children, depth + 2);
      JoinTwoThen(Indentation(depth) + Title(node), Indentation(depth) + CountText(|node.children|),
        ForestLines(node.children, depth + 2), "\n");
    }
  }

  /** The children's text is a newline followed by their lines joined by newlines,
      or nothing when there are no children. */
  lemma {:induction false} ForestJoin(cs: seq<Node>, depth: nat)
    ensures cs == [] ==> ForestText(cs, depth) == "" && ForestLines(cs, depth) == []
    ensures cs != [] ==> ForestLines(cs, depth) != [] && ForestText(cs, depth) == "\n" + Join(ForestLines(cs, depth), "\n")
    decreases cs, 0
  {
    if cs != [] {
      var init, last := cs[..|cs| - 1], cs[|cs| - 1];
      var hl := HierarchyLines(last, depth);
      HierarchyJoin(last, depth);
      ForestJoin(init, depth);
      if init == [] {
        assert ForestLines(cs, depth) == hl;
      } else {
        JoinAfterSep(ForestLines(init, depth), hl, "\n");
      }
    }
  }

  /** Every line prefixed by `pad`. */
  function Indent(pad: string, lines: seq<string>): (r: seq<string>)
    ensures |r| == |lines|
    ensures forall i :: 0 <= i < |lines| ==> r[i] == pad + lines[i]
  {
    seq(|lines|, i requires 0 <= i < |lines| => pad + lines[i])
  }

  lemma IndentConcat(pad: string, a: seq<string>, b: seq<string>)
    ensures Indent(pad, a + b) == Indent(pad, a) + Indent(pad, b)
  {
  }

  /** Indenting two lines followed by more. */
  lemma IndentTwoThen(pad: string, a: string, b: string, f: seq<string>)
    ensures Indent(pad, [a, b] + f) == [pad + a, pad + b] + Indent(pad, f)
  {
  }

  /** The outline `e` depths further in is the same outline with every line
      indented by `e` more steps of two blanks; in particular every line of an
      outline at `depth` begins with that depth's indentation. */
  lemma {:induction false} HierarchyShift(node: Node, depth: nat, e: nat)
    ensures HierarchyLines(node, depth + e) == Indent(Indentation(e), HierarchyLines(node, depth))
    decreases node, 1
  {
    var pad, i := Indentation(e), Indentation(depth);
    RepeatAdd("  ", e, depth);
    assert Indentation(depth + e) == pad + i;
    ConcatAssoc(pad, i, Title(node));
    if node.children != [] {
      var n := |node.children|;
      ConcatAssoc(pad, i, CountText(n));
      ForestShift(node.children, depth + 2, e);
      assert depth + e + 2 == depth + 2 + e;
      IndentTwoThen(pad, i + Title(node), i + CountText(n), ForestLines(node.children, depth + 2));
    }
  }

  lemma {:induction false} ForestShift(cs: seq<Node>, depth: nat, e: nat)
    ensures ForestLines(cs, depth + e) == Indent(Indentation(e), ForestLines(cs, depth))
    decreases cs, 0
  {
    if cs != [] {
      var init, last := cs[..|cs| - 1], cs[|cs| - 1];
      ForestShift(init, depth, e);
      HierarchyShift(last, depth, e);
      IndentConcat(Indentation(e), ForestLines(init, depth), HierarchyLines(last, depth));
    }
  }

  /** The node reached from `node` by following child positions `path`. */
  function Descendant(node: Node, path: seq<nat>): Option<Node>
    decreases |path|
  {
    if path == [] then Some(node)
    else if path[0] < |node.children| then Descendant(node.children[path[0]], path[1..])
    else None
  }

  /** Each line of a child's outline is a line of the children's outlines. */
  lemma {:induction false} ForestContains(cs: seq<Node>, k: nat, depth: nat, x: string)
    requires k < |cs| && x in HierarchyLines(cs[k], depth)
    ensures x in ForestLines(cs, depth)
    decreases |cs|
  {
    var init := cs[..|cs| - 1];
    if k < |cs| - 1 {
      ForestContains(init, k, depth, x);
    }
  }

  /** Every descendant is listed, its header indented two depths further per level
      below the node: four blanks more than its parent's header, while the count
      line sits only two blanks in. */
  lemma {:induction false} DescendantListed(node: Node, path: seq<nat>, depth: nat)
    requires Descendant(node, path).Some?
    ensures Indentation(depth + 2 * |path|) + Title(Descendant(node, path).value) in HierarchyLines(node, depth)
    decreases |path|
  {
    if path != [] {
      var k := path[0];
      var c := node.children[k];
      DescendantListed(c, path[1..], depth + 2);
      assert depth + 2 + 2 * |path[1..]| == depth + 2 * |path|;
      ForestContains(node.children, k, depth + 2, Indentation(depth + 2 * |path|) + Title(Descendant(node, path).value));
    }
  }

  /** Every descendant that has children is followed in the outline by its count
      line, at the descendant's own depth, naming how many direct children it has. */
  lemma {:induction false} CountListed(node: Node, path: seq<nat>, depth: nat)
    requires Descendant(node, path).Some? && Descendant(node, path).value.children != []
    ensures Indentation(depth + 2 * |path|) + CountText(|Descendant(node, path).value.children|)
            in HierarchyLines(node, depth)
    decreases |path|
  {
    if path != [] {
      var k := path[0];
      var c := node.children[k];
      CountListed(c, path[1..], depth + 2);
      assert depth + 2 + 2 * |path[1..]| == depth + 2 * |path|;
      ForestContains(node.children, k, depth + 2,
        Indentation(depth + 2 * |path|) + CountText(|Descendant(node, path).value.children|));
    }
  }

  /** A node `k` levels below a node outlined at `depth` is headed by exactly
      `2 * depth + 4k` blanks: four per level, so `4k` from depth 0. */
  lemma DescendantIndentedFourPerLevel(node: Node, path: seq<nat>, depth: nat)
    requires Descendant(node, path).Some?
    ensures |Indentation(depth + 2 * |path|)| == 2 * depth + 4 * |path|
    ensures AllBlank(Indentation(depth + 2 * |path|))
    ensures Indentation(depth + 2 * |path|) + Title(Descendant(node, path).value) in HierarchyLines(node, depth)
  {
    DescendantListed(node, path, depth);
    RepeatTwoBlanks(depth + 2 * |path|);
  }

  /** The number of nodes in the subtree of `node`. */
  function Size(node: Node): nat
    decreases node, 1
  {
    1 + ForestSize(node.children)
  }

  function ForestSize(cs: seq<Node>): nat
    decreases cs, 0
  {
    if cs == [] then 0 else ForestSize(cs[..|cs| - 1]) + Size(cs[|cs| - 1])
  }

  /** The number of nodes in the subtree of `node` that have children. */
  function Parents(node: Node): nat
    decreases node, 1
  {
    (if node.children == [] then 0 else 1) + ForestParents(node.children)
  }

  function ForestParents(cs: seq<Node>): nat
    decreases cs, 0
  {
    if cs == [] then 0 else ForestParents(cs[..|cs| - 1]) + Parents(cs[|cs| - 1])
  }

  /** The outline has one header line per node of the subtree and one count line
      per node that has children, and no other line. */
  lemma {:induction false} HierarchyLineCount(node: Node, depth: nat)
    ensures |HierarchyLines(node, depth)| == Size(node) + Parents(node)
    decreases node, 1
  {
    ForestLineCount(node.children, depth + 2);
  }

  lemma {:induction false} ForestLineCount(cs: seq<Node>, depth: nat)
    ensures |ForestLines(cs, depth)| == ForestSize(cs) + ForestParents(cs)
    decreases cs, 0
  {
    if cs != [] {
      ForestLineCount(cs[..|cs| - 1], depth);
      HierarchyLineCount(cs[|cs| - 1], depth);
    }
  }
}
