/** What the `formatSummary` pipeline of summary.js does to whole texts: emphasis pairs,
    line breaks, paragraphs and lists, for the order of rules as written and for the
    order with the list rules ahead of the line-break rules. */
module SummaryProofs {
  import opened Wrappers
  import opened JsText
  import opened SummaryFormat

  // ---------------------------------------------------------------------------
  // Emphasis
  // ---------------------------------------------------------------------------

  /** A span rule leaves a text without its delimiter's first character alone. */
  lemma {:induction false} SpansFree(s: string, d: string, open: string, close: string)
    requires d != [] && NoTerminator(d) && d[0] !in s
    ensures RewriteSpans(s, d, open, close) == s
    decreases |s|
  {
    if |s| > 0 {
      assert s[0] in s;
      SpansFree(s[1..], d, open, close);
      assert [s[0]] + s[1..] == s;
    }
  }

  /** Text without `*` and `_` passes the four emphasis rules unchanged. */
  lemma EmphasisFree(s: string)
    requires '*' !in s && '_' !in s
    ensures Emphasis(s) == s
  {
    SpansFree(s, "**", "<strong>", "</strong>");
    SpansFree(s, "__", "<strong>", "</strong>");
    SpansFree(s, "*", "<em>", "</em>");
    SpansFree(s, "_", "<em>", "</em>");
  }

  /** The lazy close finds the first delimiter after a stretch that cannot hold one. */
  lemma {:induction false} FindCloseAfterFree(x: string, y: string, d: string)
    requires d != [] && NoTerminator(d) && NoTerminator(x) && d[0] !in x && HasPrefix(y, d)
    ensures FindClose(x + y, d) == Some(|x|)
    decreases |x|
  {
    if x == [] {
      assert x + y == y;
    } else {
      var s := x + y;
      assert s[0] == x[0] && x[0] in x;
      assert s[1..] == x[1..] + y;
      FindCloseAfterFree(x[1..], y, d);
    }
  }

  /** `**text**` becomes a `<strong>` element holding the text (summary.js:92). */
  lemma PairedBoldIsStrong(x: string)
    requires NoTerminator(x) && '*' !in x && '_' !in x
    ensures Emphasis("**" + x + "**") == "<strong>" + x + "</strong>"
  {
    BoldSpan(x, "**");
    EmphasisRest("<strong>" + x + "</strong>");
  }

  /** `__text__` becomes a `<strong>` element holding the text too (summary.js:93): the
      `**` rule leaves it alone, and the `*` and `_` rules then find no delimiter. */
  lemma PairedUnderscoreBoldIsStrong(x: string)
    requires NoTerminator(x) && '*' !in x && '_' !in x
    ensures Emphasis("__" + x + "__") == "<strong>" + x + "</strong>"
  {
    var b := "<strong>" + x + "</strong>";
    UnderscoreBoldRules(x);
    WrappedAvoids("<strong>", x, "</strong>", '*');
    WrappedAvoids("<strong>", x, "</strong>", '_');
    SpansFree(b, "*", "<em>", "</em>");
    SpansFree(b, "_", "<em>", "</em>");
  }

  /** The two bold rules on `__text__`: the first finds no `*`, the second makes the
      element. */
  lemma UnderscoreBoldRules(x: string)
    requires NoTerminator(x) && '*' !in x && '_' !in x
    ensures RewriteSpans(RewriteSpans("__" + x + "__", "**", "<strong>", "</strong>"),
                         "__", "<strong>", "</strong>") == "<strong>" + x + "</strong>"
  {
    WrappedAvoids("__", x, "__", '*');
    SpansFree("__" + x + "__", "**", "<strong>", "</strong>");
    BoldSpan(x, "__");
  }

  lemma WrappedAvoids(a: string, x: string, b: string, z: char)
    requires z !in a && z !in x && z !in b
    ensures z !in a + x + b
  {
  }

  /** A bold rule alone on one span delimited by its own delimiter. */
  lemma BoldSpan(x: string, d: string)
    requires d == "**" || d == "__"
    requires NoTerminator(x) && d[0] !in x
    ensures RewriteSpans(d + x + d, d, "<strong>", "</strong>")
            == "<strong>" + x + "</strong>"
  {
    var s := d + x + d;
    assert s[..2] == d;
    assert s[2..] == x + d;
    FindCloseAfterFree(x, d, d);
    assert s[2..2 + |x|] == x;
    assert s[2 + |x| + 2..] == [];
  }

  /** The three emphasis rules after the first leave `**`-free text alone. */
  lemma EmphasisRest(b: string)
    requires '*' !in b && '_' !in b
    ensures RewriteSpans(RewriteSpans(RewriteSpans(b, "__", "<strong>", "</strong>"),
                                      "*", "<em>", "</em>"), "_", "<em>", "</em>") == b
  {
    SpansFree(b, "__", "<strong>", "</strong>");
    SpansFree(b, "*", "<em>", "</em>");
    SpansFree(b, "_", "<em>", "</em>");
  }

  // ---------------------------------------------------------------------------
  // Line breaks
  // ---------------------------------------------------------------------------

  lemma {:induction false} BreakParagraphsFree(a: string, b: string)
    requires '\n' !in a
    ensures BreakParagraphs(a + b) == a + BreakParagraphs(b)
    decreases |a|
  {
    if a == [] {
      assert a + b == b;
    } else {
      var s := a + b;
      assert s[0] == a[0] && a[0] in a;
      assert s[1..] == a[1..] + b;
      BreakParagraphsFree(a[1..], b);
    }
  }

  /** Text without a newline passes the line-break rules unchanged. */
  lemma BreaksFree(a: string)
    requires '\n' !in a
    ensures Breaks(a) == a
  {
    BreakParagraphsFree(a, []);
    assert a + [] == a;
    ReplaceNewlinesFree(a);
  }

  /** The newline rule of summary.js:101 on a line and what follows it. */
  lemma ReplaceNewlinesAtNewline(a: string, t: string)
    requires '\n' !in a
    ensures ReplaceNewlines(a + "\n" + t) == a + "<br>" + ReplaceNewlines(t)
  {
    var nt := ['\n'] + t;
    assert a + "\n" + t == a + nt;
    ReplaceNewlinesPrefixFree(a, nt);
    ReplaceNewlinesCons('\n', t);
    assert a + ("<br>" + ReplaceNewlines(t)) == a + "<br>" + ReplaceNewlines(t);
  }

  lemma BreakParagraphsAtNewline(a: string, b: string)
    requires '\n' !in a && (b == [] || b[0] != '\n')
    ensures BreakParagraphs(a + "\n" + b) == a + "\n" + BreakParagraphs(b)
  {
    AppendCons(a, '\n', b);
    BreakParagraphsFree(a, ['\n'] + b);
    BreakParagraphsSingleNewline(b);
    AppendCons(a, '\n', BreakParagraphs(b));
  }

  lemma AppendCons(a: string, c: char, b: string)
    ensures a + [c] + b == a + ([c] + b)
  {
  }

  lemma BreakParagraphsSingleNewline(b: string)
    requires b == [] || b[0] != '\n'
    ensures BreakParagraphs(['\n'] + b) == ['\n'] + BreakParagraphs(b)
  {
    var nb := ['\n'] + b;
    PrefixDiffers(nb, "\n\n", 1);
    assert nb[1..] == b;
  }

  /** A single newline (one not followed by another) becomes `<br>` (summary.js:100-101). */
  lemma BreaksAtNewline(a: string, b: string)
    requires '\n' !in a && (b == [] || b[0] != '\n')
    ensures Breaks(a + "\n" + b) == a + "<br>" + Breaks(b)
  {
    BreakParagraphsAtNewline(a, b);
    ReplaceNewlinesAtNewline(a, BreakParagraphs(b));
  }

  lemma BreakParagraphsAtBlankLine(a: string, b: string)
    requires '\n' !in a
    ensures BreakParagraphs(a + "\n\n" + b) == a + "</p><p>" + BreakParagraphs(b)
  {
    var nb := "\n\n" + b;
    assert a + "\n\n" + b == a + nb;
    BreakParagraphsFree(a, nb);
    assert nb[..2] == "\n\n";
    assert nb[2..] == b;
  }

  /** A blank line (two newlines in a row) becomes a paragraph break (summary.js:100). */
  lemma BreaksAtBlankLine(a: string, b: string)
    requires '\n' !in a
    ensures Breaks(a + "\n\n" + b) == a + "</p><p>" + Breaks(b)
  {
    BreakParagraphsAtBlankLine(a, b);
    var a' := a + "</p><p>";
    assert '\n' !in a';
    ReplaceNewlinesPrefixFree(a', BreakParagraphs(b));
  }

  // ---------------------------------------------------------------------------
  // Paragraph test and list grouping
  // ---------------------------------------------------------------------------

  /** Every `<` in `s` is followed by a character outside `letters`. */
  predicate NoTagOpen(s: string, letters: string)
  {
    forall i | 0 <= i < |s| - 1 :: s[i] == '<' ==> s[i + 1] !in letters
  }

  lemma NoTagOpenNotContains(s: string, letters: string, tag: string)
    requires NoTagOpen(s, letters) && |tag| >= 2 && tag[0] == '<' && tag[1] in letters
    ensures !Contains(s, tag)
  {
    forall i | 0 <= i <= |s| - |tag| ensures !OccursAt(s, tag, i) {
      if s[i] == '<' {
        assert s[i..i + |tag|][1] == s[i + 1];
      } else {
        assert s[i..i + |tag|][0] == s[i];
      }
    }
  }

  lemma NoTagOpenJoin(x: string, y: string, letters: string)
    requires NoTagOpen(x, letters) && NoTagOpen(y, letters)
    requires x == [] || x[|x| - 1] != '<'
    ensures NoTagOpen(x + y, letters)
  {
    var s := x + y;
    forall i | 0 <= i < |s| - 1 && s[i] == '<' ensures s[i + 1] !in letters {
      if i < |x| - 1 {
        assert s[i] == x[i] && s[i + 1] == x[i + 1];
      } else if i >= |x| {
        assert s[i] == y[i - |x|] && s[i + 1] == y[i - |x| + 1];
      }
    }
  }

  /** Text with no `<` at all. */
  lemma NoTagOpenPlain(x: string, letters: string)
    requires '<' !in x
    ensures NoTagOpen(x, letters)
    ensures x == [] || x[|x| - 1] != '<'
  {
    if x != [] {
      assert x[|x| - 1] in x;
    }
    forall i | 0 <= i < |x| - 1 ensures x[i] != '<' {
      assert x[i] in x;
    }
  }

  /** A text whose every `<` opens neither a `p` nor an `h` element is wrapped in a
      paragraph (summary.js:109-111). */
  lemma WrapParagraphOfTagless(s: string)
    requires NoTagOpen(s, "ph")
    ensures WrapParagraph(s) == Paragraph(s)
  {
    NoTagOpenNotContains(s, "ph", "<p>");
    NoTagOpenNotContains(s, "ph", "<h1>");
    NoTagOpenNotContains(s, "ph", "<h2>");
    NoTagOpenNotContains(s, "ph", "<h3>");
  }

  /** `FindLast` pinned down by its contract: the occurrence after which there is none. */
  lemma FindLastAt(u: string, d: string, p: nat)
    requires d != [] && NoTerminator(d) && NoTerminator(u) && OccursAt(u, d, p)
    requires forall j | p < j <= |u| - |d| :: !OccursAt(u, d, j)
    ensures FindLast(u, d) == Some(p)
  {
    FindLastIsLast(u, d);
    assert LineEnd(u) == |u| by {
      SummaryFormat.LineEndWithoutTerminator(u);
    }
  }

  /** A text too short to hold an item is not touched by the list grouping. */
  lemma {:induction false} WrapListRunsShort(t: string)
    requires |t| < 9
    ensures WrapListRuns(t) == t
    decreases |t|
  {
    if |t| > 0 {
      WrapListRunsShort(t[1..]);
      assert [t[0]] + t[1..] == t;
    }
  }

  /** A position that cannot open `<li>` is copied by the list grouping. */
  lemma WrapListRunsStep(t: string)
    requires |t| > 0 && !HasPrefix(t, "<li>")
    ensures WrapListRuns(t) == [t[0]] + WrapListRuns(t[1..])
  {
  }

  /** The list grouping copies the `<p>` that opens a paragraph. */
  lemma WrapListRunsParagraphOpen(t: string)
    ensures WrapListRuns("<p>" + t) == "<p>" + WrapListRuns(t)
  {
    var w := "<p>" + t;
    PrefixDiffers(w, "<li>", 1);
    WrapListRunsStep(w);
    assert w[1..] == "p>" + t;
    PrefixDiffers("p>" + t, "<li>", 0);
    WrapListRunsStep("p>" + t);
    assert ("p>" + t)[1..] == ">" + t;
    PrefixDiffers(">" + t, "<li>", 0);
    WrapListRunsStep(">" + t);
    assert (">" + t)[1..] == t;
  }

  /** Where an item opens, the list grouping wraps the item and the items after it. */
  lemma WrapListRunsAtItem(t: string, m: nat)
    requires |t| > 0 && RunLength(t) == Some(m)
    ensures WrapListRuns(t) == UnorderedList(t[..m]) + WrapListRuns(t[m..])
  {
  }

  /** The `</p>` that closes a paragraph holds no item and is copied. */
  lemma ParagraphCloseHoldsNoItem()
    ensures MoreItems("</p>") == 0
    ensures WrapListRuns("</p>") == "</p>"
  {
    assert LeadingSpace("</p>") == 0;
    assert ItemAt("</p>") == None;
    WrapListRunsShort("</p>");
  }

  /** Closing the last item and then the paragraph: the greedy close is that item's. */
  lemma LastCloseBeforeParagraphEnd(body: string)
    requires NoTerminator(body)
    ensures FindLast(body + "</li></p>", "</li>") == Some(|body|)
  {
    var tail := "</li></p>";
    var u := body + tail;
    var p := |body|;
    assert u[p..] == tail;
    ClosingTail(u, p);
    ClosingTailOneLine();
    NoTerminatorAppend(body, tail);
    FindLastAt(u, "</li>", p);
  }

  lemma ClosingTailOneLine()
    ensures NoTerminator("</li>") && NoTerminator("</li></p>")
  {
    NoTerminatorByChars("</li>");
    NoTerminatorByChars("</li></p>");
  }

  lemma NoTerminatorAppend(a: string, b: string)
    requires NoTerminator(a) && NoTerminator(b)
    ensures NoTerminator(a + b)
  {
    forall i | 0 <= i < |a + b| ensures !IsLineTerminator((a + b)[i]) {
      if i < |a| {
        assert (a + b)[i] == a[i];
      } else {
        assert (a + b)[i] == b[i - |a|];
      }
    }
  }

  /** In `</li></p>` only the first position starts `</li>`. */
  lemma ClosingTail(u: string, p: nat)
    requires p <= |u| && u[p..] == "</li></p>"
    ensures OccursAt(u, "</li>", p)
    ensures forall j | p < j <= |u| - 5 :: !OccursAt(u, "</li>", j)
  {
    var tail := u[p..];
    assert tail[..5] == "</li>";
    assert u[p..p + 5] == tail[..5];
    forall j | p < j <= |u| - 5 ensures !OccursAt(u, "</li>", j) {
      assert u[j] == tail[j - p];
      assert tail[j - p] != '<';
      assert u[j..j + 5][0] == u[j];
    }
  }

  /** One line holding list items: it opens with `<li>` and closes with `</li>`. */
  predicate ItemLine(s: string)
  {
    HasPrefix(s, "<li>") && |s| >= 9 && s[|s| - 5..] == "</li>" && NoTerminator(s)
  }

  lemma ItemAtParagraphEnd(s: string)
    requires ItemLine(s)
    ensures ItemAt(s + "</p>") == Some(|s|)
  {
    var t := s + "</p>";
    var body := s[4..|s| - 5];
    assert t[4..] == body + "</li></p>";
    forall i | 0 <= i < |body| ensures !IsLineTerminator(body[i]) {
      assert body[i] == s[i + 4];
    }
    LastCloseBeforeParagraphEnd(body);
    assert t[..4] == "<li>";
  }

  /** The one line of a paragraph that opens with `<li>` and closes with `</li>` becomes
      one list (summary.js:114-116). */
  lemma WrapRunInParagraph(s: string)
    requires ItemLine(s)
    ensures WrapListRuns(Paragraph(s)) == Paragraph(UnorderedList(s))
  {
    var t := s + "</p>";
    Associative("<p>", s, "</p>");
    WrapListRunsParagraphOpen(t);
    RunLengthAtParagraphEnd(s);
    WrapListRunsAtItem(t, |s|);
    PartsOfAppend(s, "</p>");
    ParagraphCloseHoldsNoItem();
    Associative("<p>", UnorderedList(s), "</p>");
  }

  /** The item line and the `</p>` after it are one whole match of the list pattern. */
  lemma RunLengthAtParagraphEnd(s: string)
    requires ItemLine(s)
    ensures RunLength(s + "</p>") == Some(|s|)
  {
    ItemAtParagraphEnd(s);
    PartsOfAppend(s, "</p>");
    ParagraphCloseHoldsNoItem();
  }

  // ---------------------------------------------------------------------------
  // Bulleted lines through the whole pipeline
  // ---------------------------------------------------------------------------


  /** Item text that none of the rules touches: one line, no `<`, no emphasis marks. */
  predicate Plain(x: string)
  {
    NoTerminator(x) && '<' !in x && '*' !in x && '_' !in x
  }

  /** One bulleted line `- x`. */
  function Bullet(x: string): string
  {
    "- " + x
  }

  /** The text `- a`, `- b`, ... with one item per line. */
  function Bulleted(items: seq<string>): string
    requires |items| > 0
    decreases |items|
  {
    if |items| == 1 then Bullet(items[0]) else Bullet(items[0]) + "\n" + Bulleted(items[1..])
  }

  /** The items as `<li>` lines, still separated by newlines. */
  function ItemLines(items: seq<string>): (r: string)
    requires |items| > 0
    ensures HasPrefix(r, "<li>")
    decreases |items|
  {
    if |items| == 1 then ListItem(items[0])
    else ListItem(items[0]) + "\n" + ItemLines(items[1..])
  }

  /** The items as `<li>` elements separated by `<br>`: a run of list items. */
  function ItemRun(items: seq<string>): (r: string)
    requires |items| > 0
    decreases |items|
  {
    if |items| == 1 then ListItem(items[0])
    else ListItem(items[0]) + "<br>" + ItemRun(items[1..])
  }

  lemma LineOfBullet(x: string)
    requires Plain(x)
    ensures NoTerminator(Bullet(x)) && '\n' !in Bullet(x) && '<' !in Bullet(x)
    ensures HeaderOf(Bullet(x)) == Bullet(x)
    ensures ListItemOf(Bullet(x)) == ListItem(x)
  {
    var l := Bullet(x);
    NoTerminatorByChars(x);
    assert l == ['-', ' '] + x;
    NoTerminatorByChars(l);
    assert l[0] == '-';
    assert l[..2] == "- ";
    assert l[2..] == x;
  }

  lemma {:induction false} BulletedAvoids(items: seq<string>, z: char)
    requires |items| > 0 && z != '-' && z != ' ' && z != '\n'
    requires forall i | 0 <= i < |items| :: z !in items[i]
    ensures z !in Bulleted(items)
    decreases |items|
  {
    assert Bullet(items[0]) == ['-', ' '] + items[0];
    if |items| > 1 {
      BulletedAvoids(items[1..], z);
    }
  }

  lemma {:induction false} HeadersOfBulleted(items: seq<string>)
    requires |items| > 0 && forall i | 0 <= i < |items| :: Plain(items[i])
    ensures Headers(Bulleted(items)) == Bulleted(items)
    decreases |items|
  {
    LineOfBullet(items[0]);
    if |items| == 1 {
      HeadersOneLine(Bullet(items[0]));
    } else {
      HeadersByLine(Bullet(items[0]), '\n', Bulleted(items[1..]));
      HeadersOfBulleted(items[1..]);
    }
  }

  lemma {:induction false} ListsOfBulleted(items: seq<string>)
    requires |items| > 0 && forall i | 0 <= i < |items| :: Plain(items[i])
    ensures Lists(Bulleted(items)) == ItemLines(items)
    decreases |items|
  {
    LineOfBullet(items[0]);
    if |items| == 1 {
      ListsOneLine(Bullet(items[0]));
    } else {
      ListsByLine(Bullet(items[0]), '\n', Bulleted(items[1..]));
      ListsOfBulleted(items[1..]);
    }
  }

  lemma {:induction false} BreaksOfItemLines(items: seq<string>)
    requires |items| > 0 && forall i | 0 <= i < |items| :: Plain(items[i])
    ensures Breaks(ItemLines(items)) == ItemRun(items)
    decreases |items|
  {
    var first := ListItem(items[0]);
    NoTerminatorByChars(items[0]);
    assert first == "<li>" + items[0] + "</li>";
    if |items| == 1 {
      BreaksFree(first);
    } else {
      var rest := ItemLines(items[1..]);
      assert rest[0] == '<';
      BreaksAtNewline(first, rest);
      BreaksOfItemLines(items[1..]);
    }
  }

  lemma LiteralsTagless()
    ensures NoTagOpen("<li>", "ph") && NoTagOpen("</li>", "ph") && NoTagOpen("<br>", "ph")
  {
  }

  /** A `<li>` element around text whose every `<` opens neither a `p` nor an `h`
      element opens none either. */
  lemma ItemTagless(x: string)
    requires NoTagOpen(x, "ph") && (x == [] || x[|x| - 1] != '<')
    ensures NoTagOpen(ListItem(x), "ph")
  {
    LiteralsTagless();
    NoTagOpenJoin("<li>", x, "ph");
    var lx := "<li>" + x;
    assert lx[|lx| - 1] == (if x == [] then '>' else x[|x| - 1]);
    NoTagOpenJoin(lx, "</li>", "ph");
  }

  lemma {:induction false} ItemRunTagless(items: seq<string>)
    requires |items| > 0 && forall i | 0 <= i < |items| :: Plain(items[i])
    ensures NoTagOpen(ItemRun(items), "ph")
    decreases |items|
  {
    var head := ListItem(items[0]);
    NoTagOpenPlain(items[0], "ph");
    ItemTagless(items[0]);
    if |items| > 1 {
      LiteralsTagless();
      ItemRunTagless(items[1..]);
      assert head[|head| - 1] == '>';
      NoTagOpenJoin(head, "<br>", "ph");
      NoTagOpenJoin(head + "<br>", ItemRun(items[1..]), "ph");
    }
  }

  /** The shape `WrapRunInParagraph` asks for, of one `<li>` element on one line. */
  lemma ListItemShape(x: string)
    requires NoTerminator(x)
    ensures var y := ListItem(x);
      ItemLine(y)
  {
    var y := ListItem(x);
    NoTerminatorByChars(x);
    NoTerminatorByChars(y);
    assert y[..4] == "<li>";
    assert y[|y| - 5..] == "</li>";
  }

  lemma {:induction false} ItemRunLine(items: seq<string>)
    requires |items| > 0 && forall i | 0 <= i < |items| :: Plain(items[i])
    ensures var r := ItemRun(items);
      ItemLine(r)
    decreases |items|
  {
    ListItemShape(items[0]);
    if |items| > 1 {
      ItemRunLine(items[1..]);
      RunJoinShape(ListItem(items[0]), ItemRun(items[1..]));
    }
  }

  /** Two such lines joined by `<br>` keep the shape. */
  lemma RunJoinShape(x: string, y: string)
    requires HasPrefix(x, "<li>") && |x| >= 9 && NoTerminator(x)
    requires |y| >= 9 && y[|y| - 5..] == "</li>" && NoTerminator(y)
    ensures var r := x + "<br>" + y;
      ItemLine(r)
  {
    var r := x + "<br>" + y;
    assert r[..4] == x[..4];
    assert r[|r| - 5..] == y[|y| - 5..];
    NoTerminatorByChars(x);
    NoTerminatorByChars(y);
    NoTerminatorByChars(r);
  }

  /** The shape `WrapRunInParagraph` asks for, and no `<p>` or `<h` anywhere. */
  lemma ItemRunShape(items: seq<string>)
    requires |items| > 0 && forall i | 0 <= i < |items| :: Plain(items[i])
    ensures var r := ItemRun(items);
      ItemLine(r)
      && NoTagOpen(r, "ph")
  {
    ItemRunLine(items);
    ItemRunTagless(items);
  }

  /** Bulleted lines, with the list rules ahead of the line-break rules: every line
      becomes its own `<li>`, and the run of items is one `<ul>` inside the paragraph. */
  lemma BulletedBecomesOneList(items: seq<string>, s: string)
    requires |items| > 0 && forall i | 0 <= i < |items| :: Plain(items[i])
    requires s == Bulleted(items)
    ensures FormatSummaryListsFirst(s) == Paragraph(UnorderedList(ItemRun(items)))
  {
    var r := ItemRun(items);
    assert Headers(s) == s && Emphasis(s) == s && Breaks(Lists(s)) == r by {
      BulletedStages(items);
    }
    assert ItemLine(r)
           && NoTagOpen(r, "ph") by {
      ItemRunShape(items);
    }
    ItemsBecomeOneList(s, r);
  }

  /** What each rule group does to bulleted plain lines: the header and emphasis rules
      leave them alone, the list rules make each line an item, the line-break rules join
      the items with `<br>`. */
  lemma BulletedStages(items: seq<string>)
    requires |items| > 0 && forall i | 0 <= i < |items| :: Plain(items[i])
    ensures Headers(Bulleted(items)) == Bulleted(items)
    ensures Emphasis(Bulleted(items)) == Bulleted(items)
    ensures Breaks(Lists(Bulleted(items))) == ItemRun(items)
  {
    HeadersOfBulleted(items);
    EmphasisOfBulleted(items);
    ListsOfBulleted(items);
    BreaksOfItemLines(items);
  }

  lemma EmphasisOfBulleted(items: seq<string>)
    requires |items| > 0 && forall i | 0 <= i < |items| :: Plain(items[i])
    ensures Emphasis(Bulleted(items)) == Bulleted(items)
  {
    BulletedAvoids(items, '*');
    BulletedAvoids(items, '_');
    EmphasisFree(Bulleted(items));
  }

  /** A text that the header and emphasis rules leave alone, and that the list and
      line-break rules turn into one line of items, becomes one list in one paragraph:
      in the order summary.js runs the rules when the line-break rules go first, and in
      the list-first order when the list rules do. */
  lemma ItemsBecomeOneList(s: string, r: string)
    requires Headers(s) == s && Emphasis(s) == s
    requires ItemLine(r)
    requires NoTagOpen(r, "ph")
    ensures Lists(Breaks(s)) == r ==> FormatSummary(s) == Paragraph(UnorderedList(r))
    ensures Breaks(Lists(s)) == r ==> FormatSummaryListsFirst(s) == Paragraph(UnorderedList(r))
  {
    WrapParagraphOfTagless(r);
    WrapRunInParagraph(r);
  }

  /** One bulleted line becomes a one-item list in a paragraph, in either order. */
  lemma OneBulletIsList(a: string)
    requires Plain(a)
    ensures FormatSummary(Bullet(a)) == Paragraph(UnorderedList(ListItem(a)))
    ensures FormatSummaryListsFirst(Bullet(a)) == Paragraph(UnorderedList(ListItem(a)))
  {
    assert Bulleted([a]) == Bullet(a);
    assert ItemRun([a]) == ListItem(a);
    HeadersOfBulleted([a]);
    EmphasisOfBulleted([a]);
    ItemRunShape([a]);
    LineOfBullet(a);
    ListsOneLine(Bullet(a));
    BreaksFree(Bullet(a));
    NoTerminatorByChars(ListItem(a));
    BreaksFree(ListItem(a));
    ItemsBecomeOneList(Bullet(a), ListItem(a));
  }

  // ---------------------------------------------------------------------------
  // Two bulleted lines: the rules as written against the corrected order
  // ---------------------------------------------------------------------------

  lemma TwoBulletsAreBulleted(a: string, b: string)
    ensures Bulleted([a, b]) == Bullet(a) + "\n" + Bullet(b)
  {
    assert [a, b][1..] == [b];
  }

  /** The header, emphasis and line-break rules leave two bulleted lines as one line
      joined by `<br>`. */
  lemma TwoBulletsJoined(a: string, b: string)
    requires Plain(a) && Plain(b)
    ensures Breaks(Emphasis(Headers(Bullet(a) + "\n" + Bullet(b)))) == Bullet(a) + "<br>" + Bullet(b)
  {
    TwoBulletsAreBulleted(a, b);
    HeadersOfBulleted([a, b]);
    EmphasisOfBulleted([a, b]);
    LineOfBullet(a);
    LineOfBullet(b);
    LinesJoined(Bullet(a) + "\n" + Bullet(b), Bullet(a), Bullet(b));
  }

  /** Two lines that the header and emphasis rules keep become one line, joined by
      `<br>`. */
  lemma LinesJoined(s: string, la: string, lb: string)
    requires s == la + "\n" + lb && '\n' !in la && '\n' !in lb
    requires Headers(s) == s && Emphasis(s) == s
    ensures Breaks(Emphasis(Headers(s))) == la + "<br>" + lb
  {
    BreaksAtNewline(la, lb);
    BreaksFree(lb);
  }

  /** The list rules then see one line, and make the whole of it one item. */
  lemma TwoBulletsOneItem(a: string, b: string)
    requires Plain(a) && Plain(b)
    ensures Lists(Bullet(a) + "<br>" + Bullet(b)) == ListItem(a + "<br>" + Bullet(b))
  {
    var rest := a + "<br>" + Bullet(b);
    var joined := Bullet(a) + "<br>" + Bullet(b);
    Associative("- ", a, "<br>");
    Associative("- ", a + "<br>", Bullet(b));
    assert joined == "- " + rest;
    PartsOfAppend("- ", rest);
    assert NoTerminator(joined) by {
      LineOfBullet(b);
      NoTerminatorByChars(a);
      NoTerminatorByChars(Bullet(b));
      NoTerminatorByChars(joined);
    }
    ListsOneLine(joined);
  }

  /** That item opens no `p` or `h` element and is one line. */
  lemma TwoBulletsItemShape(a: string, b: string)
    requires Plain(a) && Plain(b)
    ensures var y := ListItem(a + "<br>" + Bullet(b));
      ItemLine(y)
      && NoTagOpen(y, "ph")
  {
    var body := a + "<br>" + Bullet(b);
    JoinedBodyTagless(a, b);
    ItemTagless(body);
    LineOfBullet(b);
    NoTerminatorByChars(a);
    NoTerminatorByChars(Bullet(b));
    NoTerminatorByChars(body);
    ListItemShape(body);
  }

  lemma JoinedBodyTagless(a: string, b: string)
    requires Plain(a) && Plain(b)
    ensures var body := a + "<br>" + Bullet(b);
      NoTagOpen(body, "ph") && body[|body| - 1] != '<'
  {
    var lb := Bullet(b);
    LineOfBullet(b);
    LiteralsTagless();
    NoTagOpenPlain(a, "ph");
    NoTagOpenPlain(lb, "ph");
    NoTagOpenJoin(a, "<br>", "ph");
    var ab := a + "<br>";
    assert ab[|ab| - 1] == '>';
    NoTagOpenJoin(ab, lb, "ph");
    assert (ab + lb)[|ab + lb| - 1] == lb[|lb| - 1];
  }

  /** As written, two bulleted lines yield one `<li>`: the second line's `- ` marker
      follows a `<br>`, where the `^` of summary.js:104 no longer matches. */
  lemma TwoBulletsAsWritten(a: string, b: string)
    requires Plain(a) && Plain(b)
    ensures FormatSummary(Bullet(a) + "\n" + Bullet(b))
            == Paragraph(UnorderedList(ListItem(a + "<br>" + Bullet(b))))
  {
    TwoBulletsJoined(a, b);
    TwoBulletsOneItem(a, b);
    var y := ListItem(a + "<br>" + Bullet(b));
    TwoBulletsItemShape(a, b);
    WrapParagraphOfTagless(y);
    WrapRunInParagraph(y);
  }

  /** With the list rules first, the same two lines yield two items in one list. */
  lemma TwoBulletsCorrected(a: string, b: string)
    requires Plain(a) && Plain(b)
    ensures FormatSummaryListsFirst(Bullet(a) + "\n" + Bullet(b))
            == Paragraph(UnorderedList(ListItem(a) + "<br>" + ListItem(b)))
  {
    TwoBulletsAreBulleted(a, b);
    BulletedBecomesOneList([a, b], Bullet(a) + "\n" + Bullet(b));
    assert [a, b][1..] == [b];
  }

  /** One plain line that is neither a header nor a list item becomes one paragraph,
      under either order of the rules. */
  lemma PlainLineIsParagraph(x: string)
    requires Plain(x) && HeaderOf(x) == x && ListItemOf(x) == x
    ensures FormatSummary(x) == Paragraph(x)
    ensures FormatSummaryListsFirst(x) == Paragraph(x)
  {
    HeadersOneLine(x);
    EmphasisFree(x);
    NoTerminatorByChars(x);
    BreaksFree(x);
    ListsOneLine(x);
    NoTagOpenPlain(x, "ph");
    WrapParagraphOfTagless(x);
    WrapPlainParagraph(x);
  }

  lemma WrapPlainParagraph(x: string)
    requires '<' !in x
    ensures WrapListRuns(Paragraph(x)) == Paragraph(x)
  {
    assert Paragraph(x) == "<p>" + (x + "</p>");
    WrapListRunsParagraphOpen(x + "</p>");
    WrapListRunsPlain(x, "</p>");
    ParagraphCloseHoldsNoItem();
  }

  lemma {:induction false} WrapListRunsPlain(x: string, y: string)
    requires '<' !in x
    ensures WrapListRuns(x + y) == x + WrapListRuns(y)
    decreases |x|
  {
    if x == [] {
      assert x + y == y;
    } else {
      var c, x' := x[0], x[1..];
      assert c in x && x == [c] + x';
      assert '<' !in x' by {
        assert forall z | z in x' :: z in x;
      }
      var t := x' + y;
      assert x + y == [c] + t;
      WrapListRunsCons(c, t);
      WrapListRunsPlain(x', y);
      ConsAppend(c, x', WrapListRuns(y));
    }
  }

  lemma ConsAppend(c: char, a: string, b: string)
    ensures [c] + (a + b) == ([c] + a) + b
  {
  }

  /** A character other than `<` cannot start an item and is copied. */
  lemma WrapListRunsCons(c: char, t: string)
    requires c != '<'
    ensures WrapListRuns([c] + t) == [c] + WrapListRuns(t)
  {
    var s := [c] + t;
    PrefixDiffers(s, "<li>", 0);
    WrapListRunsStep(s);
    assert s[1..] == t;
  }
}
