# Selection descriptor of the self-check design assistant, in Dafny

The design-review plugin reads the nodes the designer has selected in the host
design tool and writes them up as a plain-text report. The report is then sent to a
remote model together with a rubric of design principles. This project models the
report writer of `code.ts`:

- the paint and effect formatters (`extractColor`, `extractEffects`);
- the typography and auto-layout summaries (`extractTextStyle`,
  `extractAutoLayoutInfo`);
- the per-node detail block (`extractDetailedNodeInfo`);
- the indented outline of a subtree (`extractHierarchy`);
- the whole-selection report (`getSelectionDescription`), with the page's selection
  and the page name passed in as parameters instead of being read from the
  `figma` global;
- the helper that pulls JSON out of a fenced block in the model's reply
  (`extractJsonFromMarkdown`).

Layout of the project:

- `design.dfy` is the scene snapshot. A `Node` is a datatype that owns its
  children, so the tree is finite and acyclic by construction. Paint, effect and
  node kinds are closed sum types with the host's type tags. A property that the
  host may omit is an `Option`; so is one that may be "mixed" when the source
  checks for that. The stroke weight, which the source interpolates without such
  a check, is absent, mixed or a number.
- `numbers.dfy` models JavaScript numbers as finite decimals. It also defines
  `Math.round` and the `${x}` rendering of a number.
- `strings.dfy` has `join`, `repeat`, ASCII `toLowerCase` and integer rendering.
- `report.dfy` holds a general argument: a report built section by section, where
  each line starts with its section's label and no label is a prefix of another,
  shows which sections are present and in what order.
- `paints.dfy`, `text_style.dfy`, `auto_layout.dfy`, `detail.dfy`,
  `hierarchy.dfy`, `selection.dfy` and `markdown.dfy` each model one part of the
  source.

The source's array builders (`push` in a fixed order, then `join`) are methods.
The `forEach` loops over children and over the selection are `while` loops with
invariants. Each method is proved equal to a specification function. The
properties are then lemmas about those functions:

- which lines appear, and under exactly which condition;
- the order of the lines;
- that each line appears at most once;
- the numbering of elements and children;
- the indentation of the outline;
- the precedence of the fence search.

The model follows the code where it behaves differently from what its names and
comments suggest:

- A solid paint of opacity 0 is rendered with alpha 1, because of `opacity || 1`.
- The outline recurses with `depth + 2` and indents by `'  '.repeat(depth)`, so
  each level is 4 blanks deeper. The child-count line is 2 blanks in from its
  node's header.
- `extractTextStyle` always reports the alignment.
- A node with strokes whose stroke weight is mixed (`figma.mixed`, a symbol) makes
  the template literal at code.ts:180 throw a `TypeError`. The detail block and the
  whole report then fail; the model returns a `Failure` for them.
- Only nodes of type `FRAME` get the auto-layout and clipping lines. Components
  and instances do not.
- The json fence pattern needs no line break after the `json` tag. A later opener
  is tried only if the first one has no closing fence, and then none can have one.
  So the block is always the one between the first opener and the first fence
  after it.

## Model

| member | source | states |
|---|---|---|
| `Paints.PaintText` | code.ts:37-50 | every paint renders as a non-empty entry; `PaintKindRecoverable` shows that the entry tells its kind |
| `Paints.Alpha` | code.ts:40 | the alpha is the paint's opacity when it is present and non-zero, and 1 when it is missing or 0 |
| `Paints.ZeroOpacityRendersOpaque` | code.ts:38-41 | a solid paint of opacity 0 renders exactly like one without opacity, as `rgba(…, 1)`; any other opacity is printed as given |
| `Paints.SolidRed` | code.ts:38-41 | pure red at opacity 1 renders as `rgba(255, 0, 0, 1)` |
| `Paints.SolidChannelsAreBytes` | code.ts:39-41 | with channels in [0, 1], the three rendered colour numbers are integers 0–255 |
| `Paints.GradientStopCountRecoverable` | code.ts:42-45 | two gradients of the same kind render alike only if they have the same number of stops |
| `Paints.PaintKindRecoverable` | code.ts:37-50 | two paints that render alike are of the same kind (solid, linear, radial, image, or one of the tag-rendered kinds) |
| `Paints.EffectText` | code.ts:112-123 | every effect renders as a non-empty entry |
| `Paints.EffectsText` | code.ts:108-127 | the effects summary is empty exactly when the node has no effects; otherwise it starts with the first effect's entry |
| `Paints.EffectKindRecoverable` | code.ts:111-124 | two effects that render alike are of the same kind |
| `TextStyle.ExtractTextStyle` | code.ts:53-91 | pushing the present sub-fields one by one and joining gives the specified summary |
| `TextStyle.StyleFieldShownIff` | code.ts:56-88 | a sub-field appears exactly when the node has it: a font that is not mixed, a numeric size, a line height in pixels or percent, always the alignment, a non-empty fill list |
| `TextStyle.StyleFieldsInOrder` | code.ts:56-88 | the sub-fields come in the order font, size, line height, alignment, colour |
| `TextStyle.StyleFieldOnce` | code.ts:56-88 | each sub-field appears at most once |
| `TextStyle.FontSizeShownInPixels` | code.ts:63-65 | a whole font size k is reported as `크기: kpx` |
| `AutoLayout.ExtractAutoLayoutInfo` | code.ts:94-105 | the four pushes and the join give the specified summary |
| `AutoLayout.AutoLayoutEmptyIff` | code.ts:97-104 | the summary is `""` exactly when the layout mode is NONE |
| `AutoLayout.FourEntries` | code.ts:97-102 | with auto layout there are exactly four entries, in the order direction, spacing, padding, alignment |
| `AutoLayout.DirectionIff` | code.ts:98 | the direction is `수평` exactly for HORIZONTAL and `수직` for every other mode |
| `AutoLayout.PaddingInPixels` | code.ts:100 | whole paddings are printed in the order top, right, bottom, left, each followed by `px` |
| `Hierarchy.ExtractHierarchy` | code.ts:130-145 | the recursive string-appending walk returns the specified outline text |
| `Hierarchy.HierarchyJoin` | code.ts:132-141 | the outline text is its lines joined by newlines |
| `Hierarchy.HierarchyShift` | code.ts:131-139 | rendering e depths further in indents every line by 2e more blanks and changes nothing else |
| `Hierarchy.DescendantListed` | code.ts:130-145 | every descendant k levels down has a header line at depth d + 2k |
| `Hierarchy.DescendantIndentedFourPerLevel` | code.ts:131-139 | a node k levels below a node outlined at depth d is headed by exactly 2d + 4k blanks, so 4k from depth 0 |
| `Hierarchy.HierarchyLineCount` | code.ts:132-141 | the outline has exactly as many lines as the subtree has nodes plus nodes with children; `DescendantListed` and `CountListed` place those header and count lines |
| `Hierarchy.CountListed` | code.ts:135-137 | every node of the subtree that has k > 0 children has the line `자식 요소 (k개):`, two blanks further in than its header, in the outline |
| `Detail.ExtractDetailedNodeInfo` | code.ts:148-233 | fails with the `TypeError` exactly when the node has strokes and a mixed stroke weight; otherwise the pushes and the join give the specified detail block |
| `Detail.PushVisibilityAndOpacity` | code.ts:157-164 | appends the visibility line only when the node is hidden, and the opacity line only when the opacity is not 1 |
| `Detail.PushFills` | code.ts:167-173 | appends the fill line only for a non-empty fill list, with every fill rendered |
| `Detail.PushStrokes` | code.ts:176-182 | appends the stroke line only for a non-empty stroke list when the node has a numeric stroke weight; throws exactly when the list is non-empty and the weight is mixed |
| `Detail.PushCorner` | code.ts:185-187 | appends the corner line only for a numeric radius other than 0 |
| `Detail.PushTypeDetails` | code.ts:190-207 | appends the content and style lines of a text node, and the auto-layout and clipping lines of a frame |
| `Detail.PushEffectsAndConstraints` | code.ts:210-219 | appends the effects line when there are effects, and the constraints line when the node has constraints |
| `Detail.PushChildren` | code.ts:222-230 | appends the child count and one numbered line per direct child, in order |
| `Detail.DetailSectionsInOrder` | code.ts:151-230 | the block is the line groups in the source's fixed order |
| `Detail.DetailLineShownIff` | code.ts:151-230 | a line of each kind appears exactly when the source's condition for it holds |
| `Detail.DetailLinesInOrder` | code.ts:151-230 | lines of different kinds appear in the fixed order |
| `Detail.DetailLineOnce` | code.ts:151-225 | every kind except the child lines appears at most once |
| `Detail.ChildLinesLast` | code.ts:222-230 | the block ends with one line per child, child m numbered m + 1 |
| `Detail.HeaderFirst` | code.ts:152 | the block begins with `=== TYPE: name ===` |
| `Detail.OpacityPercent` | code.ts:162-164 | an opacity of p% other than 100 is shown as `p%` (0.5 as `50%`), and an opacity of 1 is not shown |
| `Selection.GetSelectionDescription` | code.ts:236-273 | fails with the `TypeError` exactly when some selected node has strokes and a mixed stroke weight; otherwise the pushes and the join give the specified report |
| `Selection.PushElements` | code.ts:251-255 | the loop appends each selected node's block in selection order, and fails exactly when some node's detail block throws |
| `Selection.PushElement` | code.ts:252-254 | one turn of the loop appends the node's number, its detail block and an empty entry, or fails exactly when the detail block throws |
| `Selection.PushHierarchy` | code.ts:258-262 | appends the outline block only for a selection of one node |
| `Selection.PushClosing` | code.ts:265-270 | appends the six review points |
| `Selection.NoSelectionIff` | code.ts:239-241 | the report is the sentinel `선택된 요소가 없습니다.` exactly when nothing is selected; otherwise it starts with the count |
| `Selection.ElementBlockAt` | code.ts:251-255 | node k gets header `🔍 요소 k+1:`, then its detail block, then an empty line |
| `Selection.HierarchyShownIff` | code.ts:258-262 | the `🌳 계층 구조:` block is present exactly when one node is selected, and holds that node's outline from depth 0 |
| `Selection.ClosingLast` | code.ts:264-272 | the report ends with the review points; its length is 3 + 3n entries, plus 3 for a single node, plus 6 |
| `Markdown.TrimSpec` | code.ts:21 | `trim` removes only white space at both ends, and its result neither begins nor ends with white space |
| `Markdown.TrimFixedIff` | code.ts:21 | a string is its own trim exactly when it neither begins nor ends with white space |
| `Markdown.TrimIdempotent` | code.ts:29 | trimming twice is trimming once |
| `Markdown.TrimSurrounded` | code.ts:17-21 | white space around a trimmed text is all that `trim` removes, so trimming the lazy capture equals trimming the whole block |
| `Markdown.Find` | code.ts:18 | the search returns the first occurrence at or after the start, or reports that there is none |
| `Markdown.FenceBody` | code.ts:17-26 | the lazy capture between an opener and the closing fence never contains a fence |
| `Markdown.FenceBodyAt` | code.ts:17-21 | the block is the text between the first opener and the first fence after it |
| `Markdown.FenceBodyNone` | code.ts:18-20 | there is no block exactly when there is no opener, or no fence after the first opener |
| `Markdown.ExtractJsonFromMarkdown` | code.ts:15-34 | the result never begins or ends with white space |
| `Markdown.ExtractJsonBlock` | code.ts:17-22 | when the reply has a json opener with a fence after it, the text between the first such opener and the first fence after it is returned trimmed, whatever else the reply holds |
| `Markdown.ExtractPlainBlock` | code.ts:24-30 | without a json block, the text between the first fence and the next fence is returned trimmed |
| `Markdown.ExtractWholeReply` | code.ts:32-33 | with neither kind of block, the whole reply is returned trimmed |
| `Markdown.NoFenceKeepsText` | code.ts:32-33 | a reply without any fence is returned trimmed |
| `Markdown.BlockHasNoFence` | code.ts:17-21 | the returned block, once trimmed, still contains no fence |
| `Markdown.JsonBlockFound` | code.ts:17-21 | a json block after plain text is found, whatever follows it |
| `Markdown.PlainBlockFound` | code.ts:25-29 | an untagged block is found when the reply has no other backticks |
| `Markdown.JsonLineBlock` | code.ts:17-21 | a json block holding a trimmed object on its own line yields exactly that object |
| `Numbers.Round` | code.ts:153-154 | `Math.round` gives the whole number within one half of the value, with halves rounded up |
| `Numbers.ShowNum` | code.ts:180 | the `${x}` rendering of a number is never empty, and begins with a minus sign exactly when the number is negative |
| `Numbers.ShowWhole` | code.ts:64 | a whole number is printed as that integer, with no decimal point |
| `Numbers.ShowFraction` | code.ts:186 | a number that is not whole is printed with a decimal point |
| `Strings.Join` | code.ts:232 | `join` of no parts is empty, of one part is that part, and otherwise begins with the first part |
| `Strings.RepeatTwoBlanks` | code.ts:131 | `'  '.repeat(d)` is exactly 2d blanks |
| `Strings.Lower` | code.ts:49 | lower-casing maps each capital letter to its small letter and leaves every other character alone |
| `Strings.ParseShowNat` | code.ts:43 | a rendered count reads back as the same number |

## Left out

- The host plumbing is not modelled, because it has no logic of its own: `figma.showUI`, `figma.ui.postMessage`, the `figma.ui.onmessage` handler and `figma.closePlugin` (code.ts:12, 276-522).
- The two `fetch` calls to the inference endpoint, their status checks and the `console.log` tracing are network I/O, and are not modelled.
- The two-stage `JSON.parse` and the degraded result objects are left out, because they wrap a foreign JSON parser. Only the `extractJsonFromMarkdown` helper they use is modelled.
- The `analysisPrompt` literal is constant text and is left out.
- The selection and the page name are parameters. Reading `figma.currentPage` is not modelled.
- Node, paint and effect kinds are closed enumerations of the host's current type tags. A tag the host might add later is not represented.
- Numbers.Times: computes `x * 255` and `opacity * 100` exactly on decimals. The floating-point error of the product is not modelled, so a value that lands just below a half could round differently in JavaScript.
- Numbers.ShowNum: prints a finite decimal without trailing zeros. JavaScript's exponent notation (at or above 1e21 and below 1e-6) is not modelled, nor are NaN and the infinities.
- Strings.Lower: lower-cases only ASCII letters. Every tag it is applied to is ASCII; full Unicode case mapping is not modelled.
- Markdown.ExtractJsonFromMarkdown: the two regular expressions are modelled as searches for the opener and the closing fence, not as a regular-expression engine. `\s` and `trim` use the ECMAScript white-space and line-terminator set.
- The Korean labels are string constants copied verbatim. Nothing is proved about their wording beyond the first characters that tell them apart.
