/** What `formatSummary` of summary.js adds to a text: tag characters only. It escapes
    nothing and drops nothing but the markers it rewrites, and no newline survives it. */
module SummaryMarkup {
  import opened Wrappers
  import opened JsText
  import opened SummaryFormat

  /** The characters the tags written by the rules are made of: `<`, `>`, `/`, lower-case
      letters and digits. */
  predicate TagChar(z: char)
  {
    z == '<' || z == '>' || z == '/' || ('a' <= z <= 'z') || ('0' <= z <= '9')
  }

  // ---------------------------------------------------------------------------
  // Stage by stage
  // ---------------------------------------------------------------------------

  lemma HeaderTagsAvoid(z: char)
    requires !TagChar(z)
    ensures forall i | 0 <= i < |HeaderRules| :: z !in HeaderRules[i].open && z !in HeaderRules[i].close
  {
  }

  lemma ListTagsAvoid(z: char)
    requires !TagChar(z)
    ensures forall i | 0 <= i < |ListRules| :: z !in ListRules[i].open && z !in ListRules[i].close
  {
  }

  lemma HeadersAvoid(s: string, z: char)
    requires z !in s && !TagChar(z)
    ensures z !in Headers(s)
  {
    HeaderTagsAvoid(z);
    ApplyRulesAvoids(s, HeaderRules, z);
  }

  lemma ListsAvoid(s: string, z: char)
    requires z !in s && !TagChar(z)
    ensures z !in Lists(s)
  {
    ListTagsAvoid(z);
    ApplyRulesAvoids(s, ListRules, z);
  }

  lemma {:induction false} SpansAvoid(s: string, d: string, open: string, close: string, z: char)
    requires d != [] && NoTerminator(d) && z !in s && z !in open && z !in close
    ensures z !in RewriteSpans(s, d, open, close)
    decreases |s|
  {
    if |s| > 0 {
      if HasPrefix(s, d) && FindClose(s[|d|..], d).Some? {
        var k := FindClose(s[|d|..], d).value;
        SliceAvoids(s, |d|, |d| + k, z);
        DropAvoids(s, |d| + k + |d|, z);
        SpansAvoid(s[|d| + k + |d|..], d, open, close, z);
      } else {
        DropAvoids(s, 1, z);
        SpansAvoid(s[1..], d, open, close, z);
      }
    }
  }

  lemma EmphasisAvoids(s: string, z: char)
    requires z !in s && !TagChar(z)
    ensures z !in Emphasis(s)
  {
    var b1 := RewriteSpans(s, "**", "<strong>", "</strong>");
    var b2 := RewriteSpans(b1, "__", "<strong>", "</strong>");
    var i1 := RewriteSpans(b2, "*", "<em>", "</em>");
    SpansAvoid(s, "**", "<strong>", "</strong>", z);
    SpansAvoid(b1, "__", "<strong>", "</strong>", z);
    SpansAvoid(b2, "*", "<em>", "</em>", z);
    SpansAvoid(i1, "_", "<em>", "</em>", z);
  }

  lemma {:induction false} BreakParagraphsAvoids(s: string, z: char)
    requires z !in s && !TagChar(z)
    ensures z !in BreakParagraphs(s)
    decreases |s|
  {
    if |s| > 0 {
      if HasPrefix(s, "\n\n") {
        DropAvoids(s, 2, z);
        BreakParagraphsAvoids(s[2..], z);
      } else {
        DropAvoids(s, 1, z);
        BreakParagraphsAvoids(s[1..], z);
      }
    }
  }

  lemma BreaksAvoid(s: string, z: char)
    requires z !in s && !TagChar(z)
    ensures z !in Breaks(s)
  {
    BreakParagraphsAvoids(s, z);
    ReplaceNewlinesAvoids(BreakParagraphs(s), z);
  }

  lemma WrapParagraphAvoids(s: string, z: char)
    requires z !in s && !TagChar(z)
    ensures z !in WrapParagraph(s)
  {
  }

  lemma {:induction false} WrapListRunsAvoids(s: string, z: char)
    requires z !in s && !TagChar(z)
    ensures z !in WrapListRuns(s)
    decreases |s|
  {
    if |s| > 0 {
      match RunLength(s)
      case Some(m) =>
        SliceAvoids(s, 0, m, z);
        assert s[0..m] == s[..m];
        DropAvoids(s, m, z);
        WrapListRunsAvoids(s[m..], z);
      case None =>
        DropAvoids(s, 1, z);
        WrapListRunsAvoids(s[1..], z);
    }
  }

  // ---------------------------------------------------------------------------
  // The whole pipeline
  // ---------------------------------------------------------------------------

  /** The formatter adds tag characters and nothing else: any other character that is
      not in the summary is not in the result. No escaping takes place, so nothing is
      added in the other direction either (the rules copy `<`, `>` and `&` as they are). */
  lemma FormatSummaryAddsOnlyTags(summary: string, z: char)
    requires z !in summary && !TagChar(z)
    ensures z !in FormatSummaryListsFirst(summary)
    ensures z !in FormatSummary(summary)
  {
    var e := Emphasis(Headers(summary));
    HeadersAvoid(summary, z);
    EmphasisAvoids(Headers(summary), z);
    ListsAvoid(e, z);
    BreaksAvoid(Lists(e), z);
    WrapsAvoid(Breaks(Lists(e)), z);
    BreaksAvoid(e, z);
    ListsAvoid(Breaks(e), z);
    WrapsAvoid(Lists(Breaks(e)), z);
  }

  lemma WrapsAvoid(s: string, z: char)
    requires z !in s && !TagChar(z)
    ensures z !in WrapListRuns(WrapParagraph(s))
  {
    WrapParagraphAvoids(s, z);
    WrapListRunsAvoids(WrapParagraph(s), z);
  }

  /** Every `\n` of the summary becomes `</p><p>` or `<br>`: none is left in the result,
      under either order of the rules (summary.js:100-101). */
  lemma FormatSummaryHasNoNewline(summary: string)
    ensures '\n' !in FormatSummaryListsFirst(summary)
    ensures '\n' !in FormatSummary(summary)
  {
    var e := Emphasis(Headers(summary));
    WrapsAvoid(Breaks(Lists(e)), '\n');
    ListsAvoid(Breaks(e), '\n');
    WrapsAvoid(Lists(Breaks(e)), '\n');
  }

  // ---------------------------------------------------------------------------
  // As written, the list rules see one line
  // ---------------------------------------------------------------------------

  /** After the line-break rules a text without `\r`, U+2028 and U+2029 is one line, so
      the `^` of the list rules (summary.js:104-106) anchors only at its start: the list
      rules act as on a single line, and an item runs to the end of the text. */
  lemma ListsAfterBreaksSeeOneLine(s: string)
    requires '\r' !in s && '\U{2028}' !in s && '\U{2029}' !in s
    ensures Lists(Breaks(s)) == ListItemOf(Breaks(s))
  {
    BreaksAvoid(s, '\r');
    BreaksAvoid(s, '\U{2028}');
    BreaksAvoid(s, '\U{2029}');
    NoTerminatorByChars(Breaks(s));
    ListsOneLine(Breaks(s));
  }

  /** The same for the whole pipeline as written. */
  lemma FormatSummaryOneItem(summary: string)
    requires '\r' !in summary && '\U{2028}' !in summary && '\U{2029}' !in summary
    ensures FormatSummary(summary)
            == WrapListRuns(WrapParagraph(ListItemOf(Breaks(Emphasis(Headers(summary))))))
  {
    var e := Emphasis(Headers(summary));
    MarksKeepLines(summary);
    ListsAfterBreaksSeeOneLine(e);
  }

  lemma MarksKeepLines(summary: string)
    requires '\r' !in summary && '\U{2028}' !in summary && '\U{2029}' !in summary
    ensures var e := Emphasis(Headers(summary));
      '\r' !in e && '\U{2028}' !in e && '\U{2029}' !in e
  {
    HeadersAvoid(summary, '\r');
    HeadersAvoid(summary, '\U{2028}');
    HeadersAvoid(summary, '\U{2029}');
    EmphasisAvoids(Headers(summary), '\r');
    EmphasisAvoids(Headers(summary), '\U{2028}');
    EmphasisAvoids(Headers(summary), '\U{2029}');
  }
}
