/**
 * The hook's test cases, restated as lemmas over the stylesheet the tests mock.
 * The tests do not fix the breakpoints; each lemma assumes only what the
 * tests' windows need of them.
 */
module EditorCanvasMarginsExamples {
  import opened EditorCanvasMargins
  import EditorCanvasMarginsProperties

  const DEFAULT_CANVAS: Style :=
    map["width" := Text("100%"), "maxWidth" := Number(580.0), "alignSelf" := Text("center")]
  const REVERSED_CANVAS: Style :=
    map["flexDirection" := Text("column-reverse"), "width" := Text("100%"), "maxWidth" := Number(580.0)]
  const FULL: Style := map["maxWidth" := Text("100%")]
  const WIDE: Style := map["maxWidth" := Number(1054.0)]
  const WIDE_MEDIUM: Style := map["maxWidth" := Number(770.0)]
  const WIDE_LANDSCAPE: Style := map["maxWidth" := Number(662.0)]

  /** The mocked scss module. */
  function MockStyles(): StyleSheet
  {
    map[CANVAS_KEY := DEFAULT_CANVAS,
        REVERSED_KEY := REVERSED_CANVAS,
        AlignmentKey(Some("full")) := FULL,
        AlignmentKey(Some("wide")) := WIDE,
        WIDE_MEDIUM_KEY := WIDE_MEDIUM,
        WIDE_LANDSCAPE_KEY := WIDE_LANDSCAPE]
  }

  /** The mocked module holds each record under its own class name and nothing else. */
  lemma MockedEntries(a: string)
    requires a != "full" && a != "wide" && a != "wide-medium" && a != "wide-landscape"
    ensures Lookup(MockStyles(), CANVAS_KEY) == Some(DEFAULT_CANVAS)
    ensures Lookup(MockStyles(), REVERSED_KEY) == Some(REVERSED_CANVAS)
    ensures Lookup(MockStyles(), AlignmentKey(Some("full"))) == Some(FULL)
    ensures Lookup(MockStyles(), AlignmentKey(Some("wide"))) == Some(WIDE)
    ensures Lookup(MockStyles(), WIDE_MEDIUM_KEY) == Some(WIDE_MEDIUM)
    ensures Lookup(MockStyles(), WIDE_LANDSCAPE_KEY) == Some(WIDE_LANDSCAPE)
    ensures Lookup(MockStyles(), AlignmentKey(Some(a))) == None
  {
    assert |CANVAS_KEY| < |REVERSED_KEY| < |ALIGNMENT_KEY_PREFIX| <= |AlignmentKey(Some(a))|;
    assert WIDE_MEDIUM_KEY == AlignmentKey(Some("wide-medium"));
    assert WIDE_LANDSCAPE_KEY == AlignmentKey(Some("wide-landscape"));
    var names := ["full", "wide", "wide-medium", "wide-landscape"];
    forall x, y | x in names && y in names && x != y
      ensures AlignmentKey(Some(x)) != AlignmentKey(Some(y))
    {
      EditorCanvasMarginsProperties.AlignmentKeyInjective(x, y);
    }
    forall x | x in names
      ensures AlignmentKey(Some(a)) != AlignmentKey(Some(x))
    {
      EditorCanvasMarginsProperties.AlignmentKeyInjective(a, x);
    }
  }

  /** The hook called with an `align` prop only, as the tests do. */
  function Aligned(c: Components, width: real, height: real, align: string): CanvasMargins
  {
    UseEditorCanvasMargins(MockStyles(), c, WindowSize(width, height), Props(Some(align), None))[0]
  }

  /** An 800x600 window with `align: 'wide'` gets the wide-medium record, not the plain wide one. */
  lemma WideMediumExample(c: Components)
    requires c.wideAlignment == "wide"
    requires c.breakpoints.small < 800.0 && c.breakpoints.medium <= 800.0 < c.breakpoints.wide
    requires 800.0 <= c.breakpoints.large
    ensures Aligned(c, 800.0, 600.0, "wide") == CanvasMargins(Some(DEFAULT_CANVAS), Some(WIDE_MEDIUM))
  {
  }

  /** A 1194x834 landscape window with `align: 'wide'` gets the wide-landscape record. */
  lemma WideLandscapeExample(c: Components)
    requires c.wideAlignment == "wide"
    requires c.breakpoints.large < 1194.0
    ensures Aligned(c, 1194.0, 834.0, "wide") == CanvasMargins(Some(DEFAULT_CANVAS), Some(WIDE_LANDSCAPE))
  {
  }

  /**
   * The mocked module defines a plain wide record, but neither wide test
   * window gets it.
   */
  lemma PlainWideRecordUnused(c: Components)
    requires c.wideAlignment == "wide"
    requires c.breakpoints.small < 800.0 && c.breakpoints.medium <= 800.0 < c.breakpoints.wide
    requires 800.0 <= c.breakpoints.large < 1194.0
    ensures Lookup(MockStyles(), AlignmentKey(Some("wide"))) == Some(WIDE)
    ensures Aligned(c, 800.0, 600.0, "wide").alignment != Some(WIDE)
    ensures Aligned(c, 1194.0, 834.0, "wide").alignment != Some(WIDE)
  {
    MockedEntries("left");
    WideMediumExample(c);
    WideLandscapeExample(c);
    assert WIDE_MEDIUM["maxWidth"] != WIDE["maxWidth"];
    assert WIDE_LANDSCAPE["maxWidth"] != WIDE["maxWidth"];
  }

  /** `align: 'full'` gets the full record. */
  lemma FullExample(c: Components)
    requires c.wideAlignment == "wide"
    ensures Aligned(c, 800.0, 600.0, "full") == CanvasMargins(Some(DEFAULT_CANVAS), Some(FULL))
  {
    MockedEntries("left");
  }

  /** `left`, `center` and `right` have no entry, so the alignment record is `undefined`. */
  lemma UnstyledAlignmentExamples(c: Components)
    requires c.wideAlignment == "wide"
    ensures Aligned(c, 800.0, 600.0, "left") == CanvasMargins(Some(DEFAULT_CANVAS), None)
    ensures Aligned(c, 640.0, 960.0, "center") == CanvasMargins(Some(DEFAULT_CANVAS), None)
    ensures Aligned(c, 960.0, 640.0, "right") == CanvasMargins(Some(DEFAULT_CANVAS), None)
  {
    MockedEntries("left");
    MockedEntries("center");
    MockedEntries("right");
  }

  /** `reversed: true` without `align` gets the reversed record and no alignment record. */
  lemma ReversedExample(c: Components)
    requires c.wideAlignment == "wide"
    ensures UseEditorCanvasMargins(MockStyles(), c, WindowSize(800.0, 600.0), Props(None, Some(true)))
         == [CanvasMargins(Some(REVERSED_CANVAS), None)]
  {
    MockedEntries("undefined");
  }
}
