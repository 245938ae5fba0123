/**
 * What the hook promises its callers: the two halves of the pair are chosen
 * independently, the window size only matters for the wide alignment, the
 * wide rules are tried in order with the first one that holds winning, and
 * each half reads only the stylesheet entries it is meant to read.
 */
module EditorCanvasMarginsProperties {
  import opened EditorCanvasMargins

  /** Two stylesheets that agree on every class name except possibly `key`. */
  ghost predicate AgreeExcept(s1: StyleSheet, s2: StyleSheet, key: string)
  {
    forall k | k != key :: Lookup(s1, k) == Lookup(s2, k)
  }

  // ---------------------------------------------------------------------------
  // The two halves are independent
  // ---------------------------------------------------------------------------

  /**
   * The canvas record is chosen by `reversed` alone: neither `align`, the
   * window size nor the imported constants change it, and a left-out
   * `reversed` selects the normal record.
   */
  lemma CanvasDependsOnlyOnReversed(styles: StyleSheet, c1: Components, c2: Components,
                                    w1: WindowSize, w2: WindowSize, p1: Props, p2: Props)
    requires IsReversed(p1) == IsReversed(p2)
    ensures UseEditorCanvasMargins(styles, c1, w1, p1)[0].canvas
         == UseEditorCanvasMargins(styles, c2, w2, p2)[0].canvas
    ensures p1.reversed == None ==>
      UseEditorCanvasMargins(styles, c1, w1, p1)[0].canvas == Lookup(styles, CANVAS_KEY)
  {
  }

  /** The alignment record does not depend on `reversed`. */
  lemma AlignmentIgnoresReversed(styles: StyleSheet, c: Components, win: WindowSize,
                                 align: Option<string>, r1: Option<bool>, r2: Option<bool>)
    ensures UseEditorCanvasMargins(styles, c, win, Props(align, r1))[0].alignment
         == UseEditorCanvasMargins(styles, c, win, Props(align, r2))[0].alignment
  {
  }

  /**
   * For any `align` other than the wide token the alignment record is the
   * stylesheet entry named after `align`, whatever the window size and the
   * breakpoints are.
   */
  lemma NonWideIgnoresWindow(styles: StyleSheet, c1: Components, c2: Components,
                             w1: WindowSize, w2: WindowSize, p: Props)
    requires p.align != Some(c1.wideAlignment) && p.align != Some(c2.wideAlignment)
    ensures UseEditorCanvasMargins(styles, c1, w1, p)[0].alignment
         == UseEditorCanvasMargins(styles, c2, w2, p)[0].alignment
         == Lookup(styles, AlignmentKey(p.align))
  {
  }

  // ---------------------------------------------------------------------------
  // The wide rules, in priority order
  // ---------------------------------------------------------------------------

  /**
   * Rule 1: a landscape window (a square one included) wider than `large`
   * gets the wide-landscape record, even where rule 2 or rule 3 would also
   * hold.
   */
  lemma WideLandscapeRuleWins(styles: StyleSheet, c: Components, win: WindowSize, p: Props)
    requires p.align == Some(c.wideAlignment)
    requires win.width >= win.height && win.width > c.breakpoints.large
    ensures UseEditorCanvasMargins(styles, c, win, p)[0].alignment == Lookup(styles, WIDE_LANDSCAPE_KEY)
  {
    FirstMatchPicks(WideRules(styles, c.breakpoints, win), 0);
  }

  /**
   * Rule 2: when rule 1 does not hold, a window no wider than `small` (the
   * bound included) gets `{ maxWidth: width }`, which tracks the width exactly.
   */
  lemma WideNarrowRuleTracksWidth(styles: StyleSheet, c: Components, win: WindowSize, p: Props)
    requires p.align == Some(c.wideAlignment)
    requires !(win.width >= win.height && win.width > c.breakpoints.large)
    requires win.width <= c.breakpoints.small
    ensures UseEditorCanvasMargins(styles, c, win, p)[0].alignment == Some(MaxWidthStyle(win.width))
    ensures UseEditorCanvasMargins(styles, c, win, p)[0].alignment.value["maxWidth"] == Number(win.width)
  {
    FirstMatchPicks(WideRules(styles, c.breakpoints, win), 1);
  }

  /**
   * Rule 3: when rules 1 and 2 do not hold, a width from `medium` (included)
   * up to `wide` (excluded) gets the wide-medium record.
   */
  lemma WideMediumRule(styles: StyleSheet, c: Components, win: WindowSize, p: Props)
    requires p.align == Some(c.wideAlignment)
    requires !(win.width >= win.height && win.width > c.breakpoints.large)
    requires win.width > c.breakpoints.small
    requires c.breakpoints.medium <= win.width < c.breakpoints.wide
    ensures UseEditorCanvasMargins(styles, c, win, p)[0].alignment == Lookup(styles, WIDE_MEDIUM_KEY)
  {
    FirstMatchPicks(WideRules(styles, c.breakpoints, win), 2);
  }

  /** When none of the three rules holds, the alignment record is `undefined`. */
  lemma WideNoRuleIsUndefined(styles: StyleSheet, c: Components, win: WindowSize, p: Props)
    requires p.align == Some(c.wideAlignment)
    requires !(win.width >= win.height && win.width > c.breakpoints.large)
    requires win.width > c.breakpoints.small
    requires !(c.breakpoints.medium <= win.width < c.breakpoints.wide)
    ensures UseEditorCanvasMargins(styles, c, win, p)[0].alignment == None
  {
    assert NoneAppliesBefore(WideRules(styles, c.breakpoints, win), 3);
  }

  /**
   * The upper bound of rule 3 is strict: a width exactly at `wide` that is
   * neither covered by rule 1 nor by rule 2 gets no alignment record.
   */
  lemma WideAtWideBreakpointIsUndefined(styles: StyleSheet, c: Components, win: WindowSize, p: Props)
    requires p.align == Some(c.wideAlignment)
    requires win.width == c.breakpoints.wide
    requires !(win.width >= win.height && win.width > c.breakpoints.large)
    requires win.width > c.breakpoints.small
    ensures UseEditorCanvasMargins(styles, c, win, p)[0].alignment == None
  {
    WideNoRuleIsUndefined(styles, c, win, p);
  }

  /**
   * With breakpoints ordered `small < medium < wide < large`, the widths that
   * no wide rule covers are exactly the gap between `small` and `medium` and
   * the widths from `wide` up that rule 1 does not take.
   */
  lemma UncoveredWidthsUnderOrderedBreakpoints(styles: StyleSheet, c: Components, win: WindowSize)
    requires c.breakpoints.small < c.breakpoints.medium < c.breakpoints.wide < c.breakpoints.large
    ensures NoneAppliesBefore(WideRules(styles, c.breakpoints, win), 3) <==>
      (c.breakpoints.small < win.width < c.breakpoints.medium) ||
      (c.breakpoints.wide <= win.width && !(win.width >= win.height && win.width > c.breakpoints.large))
  {
    var rules := WideRules(styles, c.breakpoints, win);
    if NoneAppliesBefore(rules, 3) {
      assert !rules[0].applies && !rules[1].applies && !rules[2].applies;
    }
  }

  /** A row that applies, with none before it applying, is the table's value. */
  lemma FirstMatchPicks(rules: seq<Rule>, i: nat)
    requires i < |rules| && rules[i].applies
    requires forall j | 0 <= j < i :: !rules[j].applies
    ensures FirstMatch(rules) == rules[i].style
  {
    assert NoneAppliesBefore(rules, i);
  }

  // ---------------------------------------------------------------------------
  // Which stylesheet entries each half reads
  // ---------------------------------------------------------------------------

  /** Distinct `align` strings name distinct stylesheet entries. */
  lemma {:induction false} AlignmentKeyInjective(a: string, b: string)
    ensures AlignmentKey(Some(a)) == AlignmentKey(Some(b)) <==> a == b
  {
    var n := |ALIGNMENT_KEY_PREFIX|;
    assert a == AlignmentKey(Some(a))[n..];
    assert b == AlignmentKey(Some(b))[n..];
  }

  /**
   * The hook called with no argument: the normal canvas record and the entry
   * the template literal names for an absent `align`, whatever the window.
   */
  lemma NoArgumentCall(styles: StyleSheet, c: Components, win: WindowSize)
    ensures UseEditorCanvasMargins(styles, c, win, NO_PROPS)
         == [CanvasMargins(Lookup(styles, CANVAS_KEY),
                           Lookup(styles, ALIGNMENT_KEY_PREFIX + "undefined"))]
  {
  }

  /**
   * An absent `align` builds the same class name as the string "undefined", so
   * the two read the same entry (unless "undefined" were the wide token).
   */
  lemma AbsentAlignReadsUndefinedEntry(styles: StyleSheet, c: Components, win: WindowSize, r: Option<bool>)
    requires c.wideAlignment != "undefined"
    ensures UseEditorCanvasMargins(styles, c, win, Props(None, r))
         == UseEditorCanvasMargins(styles, c, win, Props(Some("undefined"), r))
  {
  }

  /** The canvas record never comes from an entry that some `align` names. */
  lemma CanvasNeverReadsAlignmentEntries(s1: StyleSheet, s2: StyleSheet, c: Components,
                                         win: WindowSize, p: Props, a: Option<string>)
    requires AgreeExcept(s1, s2, AlignmentKey(a))
    ensures UseEditorCanvasMargins(s1, c, win, p)[0].canvas
         == UseEditorCanvasMargins(s2, c, win, p)[0].canvas
  {
    assert |CANVAS_KEY| < |REVERSED_KEY| < |ALIGNMENT_KEY_PREFIX| <= |AlignmentKey(a)|;
  }

  /**
   * A non-wide `align`, or none, reads its own entry only: changing the entry
   * another `align` string names leaves the pair unchanged. (An absent `align`
   * names the same entry as the string "undefined".)
   */
  lemma AlignReadsOnlyItsOwnEntry(s1: StyleSheet, s2: StyleSheet, c: Components,
                                  win: WindowSize, p: Props, other: string)
    requires p.align != Some(c.wideAlignment) && p.align != Some(other)
    requires p.align == None ==> other != "undefined"
    requires AgreeExcept(s1, s2, AlignmentKey(Some(other)))
    ensures UseEditorCanvasMargins(s1, c, win, p) == UseEditorCanvasMargins(s2, c, win, p)
  {
    AlignmentKeyInjective(if p.align.Some? then p.align.value else "undefined", other);
    CanvasNeverReadsAlignmentEntries(s1, s2, c, win, p, Some(other));
  }

  /**
   * The wide token never yields its own plain table entry: the stylesheet
   * entry the template literal would name for it can be anything, or missing,
   * without changing the pair, although the scss module defines one.
   */
  lemma WideNeverReadsPlainWideEntry(s1: StyleSheet, s2: StyleSheet, c: Components, win: WindowSize, p: Props)
    requires p.align == Some(c.wideAlignment)
    requires c.wideAlignment != "wide-landscape" && c.wideAlignment != "wide-medium"
    requires AgreeExcept(s1, s2, AlignmentKey(p.align))
    ensures UseEditorCanvasMargins(s1, c, win, p) == UseEditorCanvasMargins(s2, c, win, p)
  {
    AlignmentKeyInjective(c.wideAlignment, "wide-landscape");
    AlignmentKeyInjective(c.wideAlignment, "wide-medium");
    CanvasNeverReadsAlignmentEntries(s1, s2, c, win, p, p.align);
  }
}
