# Editor canvas margins

A Dafny model of `useEditorCanvasMargins`, the React Native hook of the block
editor that decides the margins and maximum width of the editing canvas.
Given the window size, the `align` and `reversed` props, the compiled scss
module and the constants imported from the components package
(`ALIGNMENT_BREAKPOINTS` and the wide alignment token), the hook returns a
one-element array holding the pair `[canvasStyles, alignmentStyles]`:

- `canvasStyles` is the normal base record, or the `--reversed` one when
  `reversed` is true; `reversed` defaults to false.
- `alignmentStyles` is the stylesheet entry named
  `block-editor-hooks__use-editor-canvas-margins-alignment--<align>`, except
  for the wide token, where `getWideStyles` applies three rules in order, the
  first that holds winning: a landscape window wider than `large` gets the
  wide-landscape record; a window no wider than `small` gets
  `{ maxWidth: width }`; a width in `[medium, wide)` gets the wide-medium
  record; anything else gets `undefined`.

The files:

- `editor_canvas_margins.dfy` (module `EditorCanvasMargins`): the data model
  and the hook as pure functions. `undefined` is `Option.None`, a style record
  is a map from property name to value, and the stylesheet a map from class
  name to record. `FirstMatch` is a reference definition of a decision table
  with first-match semantics; `WideStyles` (`getWideStyles`), written as the
  same chain of early returns as the source, is proved to be that table. The
  local `canvasStyles` and `alignmentStyles` of the source are the two local
  definitions in `UseEditorCanvasMargins`.
- `editor_canvas_margins_properties.dfy` (module
  `EditorCanvasMarginsProperties`): the properties the hook promises: the two
  halves are independent, the window size only matters for the wide token,
  the rule priorities and boundaries, and which stylesheet entries each half
  reads.
- `editor_canvas_margins_examples.dfy` (module `EditorCanvasMarginsExamples`):
  the hook's test cases over the mocked stylesheet, each assuming only what
  its window needs of the breakpoints.

Being a function, the model returns equal results for equal inputs; the
memoisation in the source only caches that result.

The model follows the code where a tidier reading of the hook would differ:

- The breakpoints are not assumed ordered. The code neither relies on nor
  checks `small < medium < wide < large`; only
  `UncoveredWidthsUnderOrderedBreakpoints` assumes that order, to describe the
  widths no wide rule covers.
- `align` is any string, not a closed enumeration. A string without an entry
  reads `undefined`, and an absent `align` builds the class name ending in
  `--undefined`, the same as the string `"undefined"`.
- The canvas record is a stylesheet lookup too, so a stylesheet without it
  yields `undefined` in the first slot.
- The test cases for `left`, `center`, `right` and `reversed` expect a
  one-element array. The test library's equality ignores `undefined` array
  items, so this matches a pair whose second element is `undefined`, which is
  what the example lemmas state.

## Model

| member | source | states |
|---|---|---|
| EditorCanvasMargins.UseEditorCanvasMargins | packages/block-editor/src/hooks/use-editor-canvas-margins.native.js:29-71 | The result is a one-element array holding the pair. The canvas record is the normal entry unless `reversed` is true, then the reversed entry. A non-wide `align` gets the entry named after it. The wide token gets the value of the wide decision table. |
| EditorCanvasMargins.FirstMatch | packages/block-editor/src/hooks/use-editor-canvas-margins.native.js:33-52 | A decision table yields the record of the first row whose condition holds, whatever later rows say, and `undefined` when no row holds. |
| EditorCanvasMargins.WideStyles | packages/block-editor/src/hooks/use-editor-canvas-margins.native.js:33-52 | `getWideStyles`, written as the source's chain of early returns, equals on every input the three-row first-match table: landscape and above `large`, then at most `small`, then `[medium, wide)`. |
| EditorCanvasMarginsProperties.CanvasDependsOnlyOnReversed | packages/block-editor/src/hooks/use-editor-canvas-margins.native.js:29-59 | Props with the same `reversed` get the same canvas record, whatever `align`, window size or breakpoints. A left-out `reversed` gets the normal record. |
| EditorCanvasMarginsProperties.AlignmentIgnoresReversed | packages/block-editor/src/hooks/use-editor-canvas-margins.native.js:61-66 | The alignment record does not depend on `reversed`. |
| EditorCanvasMarginsProperties.NonWideIgnoresWindow | packages/block-editor/src/hooks/use-editor-canvas-margins.native.js:61-66 | For a non-wide `align`, the alignment record is its own table entry for every window size and breakpoint set. |
| EditorCanvasMarginsProperties.WideLandscapeRuleWins | packages/block-editor/src/hooks/use-editor-canvas-margins.native.js:31-38 | Wide token, `width >= height` (square included) and `width > large` give the wide-landscape entry, even where the later rules also hold. |
| EditorCanvasMarginsProperties.WideNarrowRuleTracksWidth | packages/block-editor/src/hooks/use-editor-canvas-margins.native.js:40-42 | Wide token, rule 1 failing and `width <= small` (inclusive) give `{ maxWidth: width }`, whose `maxWidth` is exactly the width. |
| EditorCanvasMarginsProperties.WideMediumRule | packages/block-editor/src/hooks/use-editor-canvas-margins.native.js:44-51 | Wide token, rules 1 and 2 failing and `medium <= width < wide` give the wide-medium entry. |
| EditorCanvasMarginsProperties.WideNoRuleIsUndefined | packages/block-editor/src/hooks/use-editor-canvas-margins.native.js:33-52 | Wide token with none of the three rules holding gives `undefined`. |
| EditorCanvasMarginsProperties.WideAtWideBreakpointIsUndefined | packages/block-editor/src/hooks/use-editor-canvas-margins.native.js:44-47 | A width exactly at `wide`, outside rules 1 and 2, gives `undefined`: the upper bound of rule 3 is strict. |
| EditorCanvasMarginsProperties.UncoveredWidthsUnderOrderedBreakpoints | packages/block-editor/src/hooks/use-editor-canvas-margins.native.js:33-52 | With `small < medium < wide < large`, no wide rule holds exactly when `small < width < medium`, or `width >= wide` and rule 1 fails. |
| EditorCanvasMarginsProperties.AlignmentKeyInjective | packages/block-editor/src/hooks/use-editor-canvas-margins.native.js:64-66 | Two `align` strings build the same class name exactly when they are equal. |
| EditorCanvasMarginsProperties.AbsentAlignReadsUndefinedEntry | packages/block-editor/src/hooks/use-editor-canvas-margins.native.js:29-66 | A left-out `align` and the string `"undefined"` give the same pair. |
| EditorCanvasMarginsProperties.CanvasNeverReadsAlignmentEntries | packages/block-editor/src/hooks/use-editor-canvas-margins.native.js:55-66 | Stylesheets that differ only at an alignment entry give the same canvas record. |
| EditorCanvasMarginsProperties.AlignReadsOnlyItsOwnEntry | packages/block-editor/src/hooks/use-editor-canvas-margins.native.js:61-66 | For a non-wide or absent `align`, changing the entry of another `align` string (other than `"undefined"` when `align` is absent, which names the same entry) leaves the whole pair unchanged. |
| EditorCanvasMarginsProperties.NoArgumentCall | packages/block-editor/src/hooks/use-editor-canvas-margins.native.js:29-71 | The hook called with no argument gives one pair: the normal canvas record and the `--undefined` entry, for every window and breakpoint set. |
| EditorCanvasMarginsProperties.WideNeverReadsPlainWideEntry | packages/block-editor/src/hooks/use-editor-canvas-margins.native.js:61-66 | For the wide token, the entry the template literal would name for it never affects the pair, although the scss module defines one. |
| EditorCanvasMarginsExamples.MockedEntries | packages/block-editor/src/hooks/test/use-editor-canvas-margins.native.js:11-34 | The mocked stylesheet holds each of its six records, the plain wide one included, under its own class name, and nothing under any other `align`. |
| EditorCanvasMarginsExamples.PlainWideRecordUnused | packages/block-editor/src/hooks/test/use-editor-canvas-margins.native.js:25-83 | The mock defines the plain wide record `{ maxWidth: 1054 }`, yet neither wide test window (800x600, 1194x834) gets it. |
| EditorCanvasMarginsExamples.WideMediumExample | packages/block-editor/src/hooks/test/use-editor-canvas-margins.native.js:43-62 | An 800x600 window with `align: 'wide'` gets the default canvas and `{ maxWidth: 770 }`. |
| EditorCanvasMarginsExamples.WideLandscapeExample | packages/block-editor/src/hooks/test/use-editor-canvas-margins.native.js:64-83 | A 1194x834 window with `align: 'wide'` gets the default canvas and `{ maxWidth: 662 }`. |
| EditorCanvasMarginsExamples.FullExample | packages/block-editor/src/hooks/test/use-editor-canvas-margins.native.js:85-104 | `align: 'full'` gets the default canvas and `{ maxWidth: '100%' }`. |
| EditorCanvasMarginsExamples.UnstyledAlignmentExamples | packages/block-editor/src/hooks/test/use-editor-canvas-margins.native.js:106-155 | `left`, `center` and `right` get the default canvas and `undefined`. |
| EditorCanvasMarginsExamples.ReversedExample | packages/block-editor/src/hooks/test/use-editor-canvas-margins.native.js:157-176 | `reversed: true` without `align` gives the single pair of the reversed canvas and `undefined`. |

## Left out

- The edit-focus switcher component (`packages/edit-site/src/components/header-edit-mode/edit-focus-switcher/index.js`): it is glue over external data stores, a one-shot notice side effect and JSX rendering, with no logic of its own to state.
- `useMemo` and `useCallback`: render caching with no effect on the values returned; the hook is a plain function here.
- `useWindowDimensions`: a platform input; the window size is a parameter.
- The contents of the scss module and the values of `ALIGNMENT_BREAKPOINTS` and `WIDE_ALIGNMENTS`: they live in files that are not part of this model, so the stylesheet, the breakpoints and the wide token are parameters.
- JavaScript truthiness: `reversed` is a boolean or absent, and `align` a string or absent; other JavaScript values for these props are not modelled.
- `NaN`: window sizes and breakpoints are real numbers, so a JavaScript `NaN` width is not modelled. In the source every comparison with `NaN` is false, so `align: 'wide'` would then give `undefined`.
