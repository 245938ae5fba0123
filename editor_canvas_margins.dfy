/**
 * The `useEditorCanvasMargins` hook of the block editor's native (React Native)
 * build, modelled as a pure function of the window size, the hook's props, the
 * compiled stylesheet and the constants the hook imports from the components
 * package.
 *
 * The hook returns a one-element array holding the pair
 * `[canvasStyles, alignmentStyles]`: the first element is chosen by the
 * `reversed` prop alone, the second is a stylesheet entry keyed by `align`,
 * except for the wide alignment, where a three-rule decision table on the
 * window size decides.
 */
module EditorCanvasMargins {

  /** JavaScript's `undefined` (a missing prop, a missing stylesheet entry) is `None`. */
  datatype Option<+T> = None | Some(value: T)

  /** The value of one style property; React Native styles hold numbers or strings. */
  datatype StyleValue = Number(n: real) | Text(s: string)

  /** A style record: property name to value, such as `{ maxWidth: 580 }`. */
  type Style = map<string, StyleValue>

  /** The compiled scss module: class name to style record. */
  type StyleSheet = map<string, Style>

  /**
   * `ALIGNMENT_BREAKPOINTS`. Their values live outside this model and the hook
   * neither relies on nor checks any order between them, so none is assumed.
   */
  datatype Breakpoints = Breakpoints(small: real, medium: real, wide: real, large: real)

  /**
   * What the hook imports from the components package: the breakpoints and
   * `WIDE_ALIGNMENTS.alignments.wide`, the token that selects the wide rules.
   */
  datatype Components = Components(breakpoints: Breakpoints, wideAlignment: string)

  /** What `useWindowDimensions` reports. */
  datatype WindowSize = WindowSize(width: real, height: real)

  /** The hook's props; `None` is a prop left out by the caller. */
  datatype Props = Props(align: Option<string>, reversed: Option<bool>)

  /** The pair `[canvasStyles, alignmentStyles]`. */
  datatype CanvasMargins = CanvasMargins(canvas: Option<Style>, alignment: Option<Style>)

  const CANVAS_KEY: string := "block-editor-hooks__use-editor-canvas-margins"
  const REVERSED_KEY: string := CANVAS_KEY + "--reversed"
  const ALIGNMENT_KEY_PREFIX: string := CANVAS_KEY + "-alignment--"
  const WIDE_LANDSCAPE_KEY: string := ALIGNMENT_KEY_PREFIX + "wide-landscape"
  const WIDE_MEDIUM_KEY: string := ALIGNMENT_KEY_PREFIX + "wide-medium"

  /** The props object a caller gets by calling the hook with no argument. */
  const NO_PROPS: Props := Props(None, None)

  /** `styles[ key ]`: a missing class name reads as `undefined`. */
  function Lookup(styles: StyleSheet, key: string): Option<Style>
  {
    if key in styles then Some(styles[key]) else None
  }

  /** `reversed = false`: an absent prop takes the default. */
  predicate IsReversed(props: Props)
  {
    match props.reversed
    case None => false
    case Some(b) => b
  }

  /**
   * The class name the template literal builds from `align`; an absent `align`
   * is interpolated as the text "undefined".
   */
  function AlignmentKey(align: Option<string>): string
  {
    ALIGNMENT_KEY_PREFIX + match align
      case None => "undefined"
      case Some(a) => a
  }

  /** A square window counts as landscape. */
  predicate IsLandscape(win: WindowSize)
  {
    win.width >= win.height
  }

  /** The record `{ maxWidth: width }` the hook builds for narrow windows. */
  function MaxWidthStyle(width: real): Style
  {
    map["maxWidth" := Number(width)]
  }

  // ---------------------------------------------------------------------------
  // Decision tables with first-match semantics
  // ---------------------------------------------------------------------------

  /** One row of a decision table: whether its condition holds, and what it yields. */
  datatype Rule = Rule(applies: bool, style: Option<Style>)

  /** No row before row `k` applies. */
  predicate NoneAppliesBefore(rules: seq<Rule>, k: int)
    requires 0 <= k <= |rules|
  {
    forall j | 0 <= j < k :: !rules[j].applies
  }

  /**
   * The value of a decision table: the first row whose condition holds wins,
   * later rows are never consulted, and a table where no row holds yields
   * `undefined`.
   */
  function FirstMatch(rules: seq<Rule>): (r: Option<Style>)
    ensures forall i | 0 <= i < |rules| && rules[i].applies && NoneAppliesBefore(rules, i) ::
      r == rules[i].style
    ensures NoneAppliesBefore(rules, |rules|) ==> r == None
  {
    if |rules| == 0 then None
    else if rules[0].applies then rules[0].style
    else
      NoneAppliesBeforeTail(rules);
      FirstMatch(rules[1..])
  }

  /** Skipping a first row that does not apply shifts every index by one. */
  lemma NoneAppliesBeforeTail(rules: seq<Rule>)
    requires |rules| > 0 && !rules[0].applies
    ensures forall i | 1 <= i <= |rules| ::
      NoneAppliesBefore(rules, i) == NoneAppliesBefore(rules[1..], i - 1)
  {
    forall i | 1 <= i <= |rules|
      ensures NoneAppliesBefore(rules, i) == NoneAppliesBefore(rules[1..], i - 1)
    {
      if NoneAppliesBefore(rules[1..], i - 1) {
        forall j | 0 <= j < i ensures !rules[j].applies {
          if j > 0 { assert rules[j] == rules[1..][j - 1]; }
        }
      }
    }
  }

  // ---------------------------------------------------------------------------
  // The hook
  // ---------------------------------------------------------------------------

  /** The rows of `getWideStyles`, in the order the hook tests them. */
  function WideRules(styles: StyleSheet, bp: Breakpoints, win: WindowSize): seq<Rule>
  {
    [ Rule(IsLandscape(win) && win.width > bp.large, Lookup(styles, WIDE_LANDSCAPE_KEY)),
      Rule(win.width <= bp.small, Some(MaxWidthStyle(win.width))),
      Rule(bp.medium <= win.width < bp.wide, Lookup(styles, WIDE_MEDIUM_KEY)) ]
  }

  /**
   * `getWideStyles`: a chain of early returns that falls off its end when no
   * condition holds. It is the decision table `WideRules`.
   */
  function WideStyles(styles: StyleSheet, bp: Breakpoints, win: WindowSize): (r: Option<Style>)
    ensures r == FirstMatch(WideRules(styles, bp, win))
  {
    if IsLandscape(win) && win.width > bp.large then
      Lookup(styles, WIDE_LANDSCAPE_KEY)
    else if win.width <= bp.small then
      Some(MaxWidthStyle(win.width))
    else if bp.medium <= win.width && win.width < bp.wide then
      assert NoneAppliesBefore(WideRules(styles, bp, win), 2);
      Lookup(styles, WIDE_MEDIUM_KEY)
    else
      None
  }

  /**
   * `useEditorCanvasMargins`: the one-element array holding the pair
   * `[canvasStyles, alignmentStyles]`.
   */
  function UseEditorCanvasMargins(styles: StyleSheet, components: Components, win: WindowSize, props: Props)
    : (r: seq<CanvasMargins>)
    ensures |r| == 1
    ensures !IsReversed(props) ==> r[0].canvas == Lookup(styles, CANVAS_KEY)
    ensures IsReversed(props) ==> r[0].canvas == Lookup(styles, REVERSED_KEY)
    ensures props.align != Some(components.wideAlignment) ==>
      r[0].alignment == Lookup(styles, AlignmentKey(props.align))
    ensures props.align == Some(components.wideAlignment) ==>
      r[0].alignment == FirstMatch(WideRules(styles, components.breakpoints, win))
  {
    var canvasStyles :=
      if !IsReversed(props) then Lookup(styles, CANVAS_KEY) else Lookup(styles, REVERSED_KEY);
    var alignmentStyles :=
      if props.align == Some(components.wideAlignment) then WideStyles(styles, components.breakpoints, win)
      else Lookup(styles, AlignmentKey(props.align));
    [CanvasMargins(canvasStyles, alignmentStyles)]
  }
}
