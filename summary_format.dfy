/** The markdown-to-HTML formatter of the summary page (`formatSummary`,
    summary.js:83-119): a fixed chain of global regular-expression rewrites, each
    written here as an explicit left-to-right scan that does what that one pattern
    does in JavaScript and nothing more.

    Two kinds of pattern occur:
    - line-anchored rules `^<marker>(.*$)` with the `gm` flags (headers, list items):
      `^` holds at the start of the string and after any line terminator, and `.*`
      stops at the next line terminator, so each line is rewritten on its own;
    - lazy span rules `D(.*?)D` (bold, italic): from the leftmost opening `D`, the
      nearest closing `D` on the same line wins; with no closing `D` on that line
      the scan moves on by one character.
    The pipeline passes `<`, `>` and `&` through untouched: it neither escapes nor
    sanitizes. */
module SummaryFormat {
  import opened Wrappers
  import opened JsText

  // ---------------------------------------------------------------------------
  // Line-anchored rules: /^<marker>(.*$)/gm  ->  open + $1 + close
  // ---------------------------------------------------------------------------

  /** What a line-anchored rule looks for at the start of a line: a fixed text, or
      `\d+\. ` (one or more ASCII digits, a dot and a space). */
  datatype Marker = Literal(text: string) | Numbered

  predicate IsDigit(c: char) { '0' <= c <= '9' }

  /** The length of the run of ASCII digits that opens `s`. */
  function DigitRun(s: string): (n: nat)
    ensures n <= |s|
    ensures forall i | 0 <= i < n :: IsDigit(s[i])
    ensures n < |s| ==> !IsDigit(s[n])
    decreases |s|
  {
    if |s| > 0 && IsDigit(s[0]) then 1 + DigitRun(s[1..]) else 0
  }

  /** The length of the marker that opens `line`, if it opens with one. */
  function MarkerLength(line: string, m: Marker): (r: Option<nat>)
    ensures r.Some? ==> r.value <= |line|
  {
    match m
    case Literal(t) => if HasPrefix(line, t) then Some(|t|) else None
    case Numbered =>
      var d := DigitRun(line);
      if d > 0 && HasPrefix(line[d..], ". ") then Some(d + 2) else None
  }

  /** One line under a line-anchored rule. */
  function RewriteLine(line: string, m: Marker, open: string, close: string): string
  {
    match MarkerLength(line, m)
    case Some(k) => open + line[k..] + close
    case None => line
  }

  /** The index of the first line terminator in `s`, or `|s|` when there is none. */
  function LineEnd(s: string): (n: nat)
    ensures n <= |s| && NoTerminator(s[..n])
    ensures n < |s| ==> IsLineTerminator(s[n])
    decreases |s|
  {
    if |s| == 0 || IsLineTerminator(s[0]) then 0 else 1 + LineEnd(s[1..])
  }

  /** `s.replace(/^<m>(.*$)/gm, open + '$1' + close)` */
  function RewriteLines(s: string, m: Marker, open: string, close: string): string
    decreases |s|
  {
    var n := LineEnd(s);
    if n == |s| then
      RewriteLine(s, m, open, close)
    else
      RewriteLine(s[..n], m, open, close) + [s[n]] + RewriteLines(s[n + 1..], m, open, close)
  }

  /** One `.replace(/^<marker>(.*$)/gm, '<open>$1<close>')` call. */
  datatype Rule = Rule(marker: Marker, open: string, close: string)

  /** A chain of line-anchored replace calls, applied in order to the whole string. */
  function ApplyRules(s: string, rules: seq<Rule>): string
    decreases |rules|
  {
    if rules == [] then s
    else ApplyRules(RewriteLines(s, rules[0].marker, rules[0].open, rules[0].close), rules[1..])
  }

  /** summary.js:87-89, longest marker first. */
  const HeaderRules: seq<Rule> :=
    [Rule(Literal("### "), "<h3>", "</h3>"),
     Rule(Literal("## "), "<h2>", "</h2>"),
     Rule(Literal("# "), "<h1>", "</h1>")]

  /** summary.js:104-106 */
  const ListRules: seq<Rule> :=
    [Rule(Literal("- "), "<li>", "</li>"),
     Rule(Literal("* "), "<li>", "</li>"),
     Rule(Numbered, "<li>", "</li>")]

  function Headers(s: string): string
  {
    ApplyRules(s, HeaderRules)
  }

  function Lists(s: string): string
  {
    ApplyRules(s, ListRules)
  }

  // ---------------------------------------------------------------------------
  // Lazy span rules: /D(.*?)D/g  ->  open + $1 + close
  // ---------------------------------------------------------------------------

  /** Occurrences in `t[1..]` are the occurrences in `t` moved one place left. */
  lemma OccursShift(t: string, d: string, j: int)
    requires 1 <= j && |t| > 0
    ensures OccursAt(t, d, j) <==> OccursAt(t[1..], d, j - 1)
  {
    if j + |d| <= |t| {
      assert t[1..][j - 1..j - 1 + |d|] == t[j..j + |d|];
    }
  }

  /** Where the lazy `(.*?)D` tail closes in `t`: the first occurrence of `d` that is
      not preceded by a line terminator (`FindCloseIsFirst`). */
  function FindClose(t: string, d: string): (r: Option<nat>)
    requires d != []
    ensures r.Some? ==> r.value + |d| <= |t|
    decreases |t|
  {
    if HasPrefix(t, d) then
      Some(0)
    else if |t| == 0 || IsLineTerminator(t[0]) then
      None
    else
      match FindClose(t[1..], d)
      case Some(k) => Some(k + 1)
      case None => None
  }

  /** Occurrences in `t` at positions from 1 on are those of `t[1..]`, moved. */
  lemma OccursShiftAll(t: string, d: string)
    requires |t| > 0
    ensures forall j | 1 <= j <= |t| :: OccursAt(t, d, j) == OccursAt(t[1..], d, j - 1)
  {
    forall j | 1 <= j <= |t| ensures OccursAt(t, d, j) == OccursAt(t[1..], d, j - 1) {
      OccursShift(t, d, j);
    }
  }

  /** What the lazy close promises: the first occurrence of `d` on the line. */
  lemma {:induction false} FindCloseIsFirst(t: string, d: string)
    requires d != [] && NoTerminator(d)
    ensures var r := FindClose(t, d);
      && (r.Some? ==> OccursAt(t, d, r.value) && NoTerminator(t[..r.value]))
      && (r.Some? ==> forall j | 0 <= j < r.value :: !OccursAt(t, d, j))
      && (r.None? ==> forall j | 0 <= j <= LineEnd(t) :: !OccursAt(t, d, j))
    decreases |t|
  {
    if HasPrefix(t, d) {
      assert OccursAt(t, d, 0);
    } else if |t| == 0 || IsLineTerminator(t[0]) {
      assert LineEnd(t) == 0;
    } else {
      OccursShiftAll(t, d);
      FindCloseIsFirst(t[1..], d);
      assert !OccursAt(t, d, 0);
      match FindClose(t[1..], d)
      case Some(k) =>
        assert t[..k + 1] == [t[0]] + t[1..][..k];
      case None =>
        assert LineEnd(t) == 1 + LineEnd(t[1..]);
    }
  }

  /** `s.replace(/D(.*?)D/g, open + '$1' + close)` for the delimiter `d`. */
  function RewriteSpans(s: string, d: string, open: string, close: string): string
    requires d != [] && NoTerminator(d)
    decreases |s|
  {
    if |s| == 0 then
      []
    else if HasPrefix(s, d) && FindClose(s[|d|..], d).Some? then
      var k := FindClose(s[|d|..], d).value;
      open + s[|d|..|d| + k] + close + RewriteSpans(s[|d| + k + |d|..], d, open, close)
    else
      [s[0]] + RewriteSpans(s[1..], d, open, close)
  }

  /** summary.js:92-97: bold with `**` and `__`, then italic with `*` and `_`. */
  function Emphasis(s: string): string
  {
    var b1 := RewriteSpans(s, "**", "<strong>", "</strong>");
    var b2 := RewriteSpans(b1, "__", "<strong>", "</strong>");
    var i1 := RewriteSpans(b2, "*", "<em>", "</em>");
    RewriteSpans(i1, "_", "<em>", "</em>")
  }

  // ---------------------------------------------------------------------------
  // Line breaks, paragraph wrap and list grouping
  // ---------------------------------------------------------------------------

  /** `s.replace(/\n\n/g, '</p><p>')` */
  function BreakParagraphs(s: string): string
    decreases |s|
  {
    if |s| == 0 then []
    else if HasPrefix(s, "\n\n") then "</p><p>" + BreakParagraphs(s[2..])
    else [s[0]] + BreakParagraphs(s[1..])
  }

  /** summary.js:100-101 */
  function Breaks(s: string): string
  {
    ReplaceNewlines(BreakParagraphs(s))
  }

  /** The test of summary.js:109. */
  predicate HasBlockTag(s: string)
  {
    Contains(s, "<p>") || Contains(s, "<h1>") || Contains(s, "<h2>") || Contains(s, "<h3>")
  }

  /** The `<p>` element of summary.js:110. */
  function Paragraph(s: string): string
  {
    "<p>" + s + "</p>"
  }

  /** summary.js:109-111 */
  function WrapParagraph(s: string): (r: string)
    ensures r == s || r == Paragraph(s)
    ensures r != s <==> !HasBlockTag(s)
    ensures HasBlockTag(r)
  {
    if HasBlockTag(s) then
      s
    else
      assert OccursAt(Paragraph(s), "<p>", 0);
      Paragraph(s)
  }

  /** Where the greedy `.*<\/li>` tail closes in `t`: the last occurrence of `d` that is
      not preceded by a line terminator (`FindLastIsLast`). */
  function FindLast(t: string, d: string): (r: Option<nat>)
    requires d != []
    ensures r.Some? ==> r.value + |d| <= |t|
    decreases |t|
  {
    if |t| == 0 || IsLineTerminator(t[0]) then
      None
    else
      match FindLast(t[1..], d)
      case Some(k) => Some(k + 1)
      case None => if HasPrefix(t, d) then Some(0) else None
  }

  /** A delimiter without line terminators does not start at a line terminator. */
  lemma NotOccursAtTerminator(t: string, d: string, j: nat)
    requires d != [] && NoTerminator(d) && j < |t| && IsLineTerminator(t[j])
    ensures !OccursAt(t, d, j)
  {
    if j + |d| <= |t| {
      assert t[j..j + |d|][0] == t[j];
      assert !IsLineTerminator(d[0]);
    }
  }

  /** What the greedy close promises: the last occurrence of `d` on the line. */
  lemma {:induction false} FindLastIsLast(t: string, d: string)
    requires d != [] && NoTerminator(d)
    ensures var r := FindLast(t, d);
      && (r.Some? ==> OccursAt(t, d, r.value) && NoTerminator(t[..r.value]))
      && (r.Some? ==> forall j | r.value < j <= LineEnd(t) :: !OccursAt(t, d, j))
      && (r.None? ==> forall j | 0 <= j <= LineEnd(t) :: !OccursAt(t, d, j))
    decreases |t|
  {
    if |t| == 0 || IsLineTerminator(t[0]) {
      assert LineEnd(t) == 0;
      if |t| > 0 {
        NotOccursAtTerminator(t, d, 0);
      }
    } else {
      OccursShiftAll(t, d);
      FindLastIsLast(t[1..], d);
      assert LineEnd(t) == 1 + LineEnd(t[1..]);
      match FindLast(t[1..], d)
      case Some(k) =>
        assert t[..k + 1] == [t[0]] + t[1..][..k];
      case None =>
        if HasPrefix(t, d) {
          assert OccursAt(t, d, 0);
        }
    }
  }

  /** The length of `<li>.*<\/li>` at the start of `t`, if it matches there. */
  function ItemAt(t: string): (r: Option<nat>)
    ensures r.Some? ==> 9 <= r.value <= |t|
  {
    if HasPrefix(t, "<li>") && FindLast(t[4..], "</li>").Some? then
      Some(4 + FindLast(t[4..], "</li>").value + 5)
    else
      None
  }

  /** The length of the greedy tail `(?:\s*<li>.*<\/li>)*` at the start of `t`. */
  function MoreItems(t: string): (n: nat)
    ensures n <= |t|
    decreases |t|
  {
    var w := LeadingSpace(t);
    match ItemAt(t[w..])
    case Some(e) => w + e + MoreItems(t[w + e..])
    case None => 0
  }

  /** The length of the whole match of `(<li>.*<\/li>)(?:\s*<li>.*<\/li>)*` at the start
      of `t`: an item, then as many further items as follow. */
  function RunLength(t: string): (r: Option<nat>)
    ensures r.Some? ==> 9 <= r.value <= |t|
  {
    match ItemAt(t)
    case Some(e) => Some(e + MoreItems(t[e..]))
    case None => None
  }

  /** The `<li>` element that the list rules of summary.js:104-106 make of an item. */
  function ListItem(x: string): string
  {
    "<li>" + x + "</li>"
  }

  /** The `<ul>` element that a run of list items is wrapped in. */
  function UnorderedList(items: string): string
  {
    "<ul>" + items + "</ul>"
  }

  /** summary.js:114-116: `/(<li>.*<\/li>)(?:\s*<li>.*<\/li>)*\/g`, each match wrapped
      in `<ul>` ... `</ul>`. */
  function WrapListRuns(s: string): string
    decreases |s|
  {
    if |s| == 0 then
      []
    else
      match RunLength(s)
      case Some(m) => UnorderedList(s[..m]) + WrapListRuns(s[m..])
      case None => [s[0]] + WrapListRuns(s[1..])
  }

  /** `formatSummary` of summary.js:83-119, in the order it runs its rules: the list
      rules run after every newline has become `<br>`, so they can only match at the
      start of the text. */
  function FormatSummary(summary: string): string
  {
    var formatted := Lists(Breaks(Emphasis(Headers(summary))));
    WrapListRuns(WrapParagraph(formatted))
  }

  /** `formatSummary` with the list rules moved ahead of the line-break rules, so that
      they see the lines they are anchored to: the order the list rules evidently need. */
  function FormatSummaryListsFirst(summary: string): string
  {
    var formatted := Breaks(Lists(Emphasis(Headers(summary))));
    WrapListRuns(WrapParagraph(formatted))
  }

  // ---------------------------------------------------------------------------
  // Line-anchored rules act line by line
  // ---------------------------------------------------------------------------

  lemma {:induction false} LineEndAtTerminator(a: string, t: char, b: string)
    requires NoTerminator(a) && IsLineTerminator(t)
    ensures LineEnd(a + [t] + b) == |a|
    decreases |a|
  {
    if a != [] {
      assert (a + [t] + b)[1..] == a[1..] + [t] + b;
      LineEndAtTerminator(a[1..], t, b);
    }
  }

  lemma LineEndWithoutTerminator(a: string)
    requires NoTerminator(a)
    ensures LineEnd(a) == |a|
  {
  }

  lemma RewriteLinesSplit(a: string, t: char, b: string, m: Marker, open: string, close: string)
    requires NoTerminator(a) && IsLineTerminator(t)
    ensures RewriteLines(a + [t] + b, m, open, close)
            == RewriteLine(a, m, open, close) + [t] + RewriteLines(b, m, open, close)
  {
    var s := a + [t] + b;
    LineEndAtTerminator(a, t, b);
    assert s[..|a|] == a;
    assert s[|a| + 1..] == b;
  }

  lemma RewriteLinesWhole(a: string, m: Marker, open: string, close: string)
    requires NoTerminator(a)
    ensures RewriteLines(a, m, open, close) == RewriteLine(a, m, open, close)
  {
    LineEndWithoutTerminator(a);
  }

  lemma RewriteLineAvoids(line: string, m: Marker, open: string, close: string, z: char)
    requires z !in line && z !in open && z !in close
    ensures z !in RewriteLine(line, m, open, close)
  {
  }

  lemma NoTerminatorByChars(s: string)
    ensures NoTerminator(s) <==> '\n' !in s && '\r' !in s && '\U{2028}' !in s && '\U{2029}' !in s
  {
    if !NoTerminator(s) {
      var i :| 0 <= i < |s| && IsLineTerminator(s[i]);
      assert s[i] in s;
    }
  }

  lemma RewriteLineKeepsLine(line: string, m: Marker, open: string, close: string)
    requires NoTerminator(line) && NoTerminator(open) && NoTerminator(close)
    ensures NoTerminator(RewriteLine(line, m, open, close))
  {
    NoTerminatorByChars(line);
    NoTerminatorByChars(open);
    NoTerminatorByChars(close);
    RewriteLineAvoids(line, m, open, close, '\n');
    RewriteLineAvoids(line, m, open, close, '\r');
    RewriteLineAvoids(line, m, open, close, '\U{2028}');
    RewriteLineAvoids(line, m, open, close, '\U{2029}');
    NoTerminatorByChars(RewriteLine(line, m, open, close));
  }

  lemma {:induction false} RewriteLinesAvoids(s: string, m: Marker, open: string, close: string, z: char)
    requires z !in s && z !in open && z !in close
    ensures z !in RewriteLines(s, m, open, close)
    decreases |s|
  {
    var n := LineEnd(s);
    if n == |s| {
      RewriteLineAvoids(s, m, open, close, z);
    } else {
      RewriteLineAvoids(s[..n], m, open, close, z);
      RewriteLinesAvoids(s[n + 1..], m, open, close, z);
    }
  }

  /** The replacement texts of a rule chain contain no line terminator. */
  predicate RulesKeepLines(rules: seq<Rule>)
  {
    forall i | 0 <= i < |rules| :: NoTerminator(rules[i].open) && NoTerminator(rules[i].close)
  }

  /** A rule chain applied to one line. */
  function ApplyRulesToLine(line: string, rules: seq<Rule>): string
    decreases |rules|
  {
    if rules == [] then line
    else ApplyRulesToLine(RewriteLine(line, rules[0].marker, rules[0].open, rules[0].close), rules[1..])
  }

  lemma {:induction false} ApplyRulesToLineKeepsLine(line: string, rules: seq<Rule>)
    requires NoTerminator(line) && RulesKeepLines(rules)
    ensures NoTerminator(ApplyRulesToLine(line, rules))
    decreases |rules|
  {
    if rules != [] {
      RewriteLineKeepsLine(line, rules[0].marker, rules[0].open, rules[0].close);
      ApplyRulesToLineKeepsLine(RewriteLine(line, rules[0].marker, rules[0].open, rules[0].close), rules[1..]);
    }
  }

  lemma RuleChainsKeepLines()
    ensures RulesKeepLines(HeaderRules) && RulesKeepLines(ListRules)
  {
    HeaderRulesKeepLines();
    ListRulesKeepLines();
  }

  lemma HeaderRulesKeepLines()
    ensures RulesKeepLines(HeaderRules)
  {
    TagsKeepLines("h3");
    TagsKeepLines("h2");
    TagsKeepLines("h1");
  }

  /** The opening and closing tags of an element whose name is one line are one line. */
  lemma TagsKeepLines(name: string)
    requires NoTerminator(name)
    ensures NoTerminator("<" + name + ">") && NoTerminator("</" + name + ">")
  {
    var open := "<" + name + ">";
    var close := "</" + name + ">";
    forall i | 0 <= i < |open| ensures !IsLineTerminator(open[i]) {
      if 0 < i < |open| - 1 {
        assert open[i] == name[i - 1];
      }
    }
    forall i | 0 <= i < |close| ensures !IsLineTerminator(close[i]) {
      if 1 < i < |close| - 1 {
        assert close[i] == name[i - 2];
      }
    }
  }

  lemma ListRulesKeepLines()
    ensures RulesKeepLines(ListRules)
  {
    TagsKeepLines("li");
  }

  /** A chain of line-anchored rules never lets one line affect another. */
  lemma {:induction false} ApplyRulesByLine(a: string, t: char, b: string, rules: seq<Rule>)
    requires NoTerminator(a) && IsLineTerminator(t) && RulesKeepLines(rules)
    ensures ApplyRules(a + [t] + b, rules) == ApplyRulesToLine(a, rules) + [t] + ApplyRules(b, rules)
    decreases |rules|
  {
    if rules != [] {
      var r := rules[0];
      RewriteLinesSplit(a, t, b, r.marker, r.open, r.close);
      RewriteLineKeepsLine(a, r.marker, r.open, r.close);
      ApplyRulesByLine(RewriteLine(a, r.marker, r.open, r.close), t,
                       RewriteLines(b, r.marker, r.open, r.close), rules[1..]);
    }
  }

  lemma {:induction false} ApplyRulesWhole(a: string, rules: seq<Rule>)
    requires NoTerminator(a) && RulesKeepLines(rules)
    ensures ApplyRules(a, rules) == ApplyRulesToLine(a, rules)
    decreases |rules|
  {
    if rules != [] {
      var r := rules[0];
      RewriteLinesWhole(a, r.marker, r.open, r.close);
      RewriteLineKeepsLine(a, r.marker, r.open, r.close);
      ApplyRulesWhole(RewriteLine(a, r.marker, r.open, r.close), rules[1..]);
    }
  }

  lemma {:induction false} ApplyRulesAvoids(s: string, rules: seq<Rule>, z: char)
    requires z !in s
    requires forall i | 0 <= i < |rules| :: z !in rules[i].open && z !in rules[i].close
    ensures z !in ApplyRules(s, rules)
    decreases |rules|
  {
    if rules != [] {
      RewriteLinesAvoids(s, rules[0].marker, rules[0].open, rules[0].close, z);
      ApplyRulesAvoids(RewriteLines(s, rules[0].marker, rules[0].open, rules[0].close), rules[1..], z);
    }
  }

  /** What the three header rules of summary.js:87-89 do to one line: the longest
      marker wins, and the whole rest of the line goes inside the tag. */
  function HeaderOf(line: string): string
  {
    if HasPrefix(line, "### ") then "<h3>" + line[4..] + "</h3>"
    else if HasPrefix(line, "## ") then "<h2>" + line[3..] + "</h2>"
    else if HasPrefix(line, "# ") then "<h1>" + line[2..] + "</h1>"
    else line
  }

  lemma HeaderRulesOnLine(line: string)
    ensures ApplyRulesToLine(line, HeaderRules) == HeaderOf(line)
  {
    var l3 := RewriteLine(line, Literal("### "), "<h3>", "</h3>");
    var l2 := RewriteLine(l3, Literal("## "), "<h2>", "</h2>");
    var l1 := RewriteLine(l2, Literal("# "), "<h1>", "</h1>");
    assert HeaderRules[1..][1..] == [HeaderRules[2]];
    assert ApplyRulesToLine(line, HeaderRules) == l1;
    if HasPrefix(line, "### ") {
      assert l3[0] == '<';
      assert l2 == l3;
      assert l1 == l3;
    } else if HasPrefix(line, "## ") {
      assert l2[0] == '<';
    }
  }

  /** On a single line the three header passes of summary.js:87-89 act as `HeaderOf`. */
  lemma HeadersOneLine(a: string)
    requires NoTerminator(a)
    ensures Headers(a) == HeaderOf(a)
  {
    RuleChainsKeepLines();
    ApplyRulesWhole(a, HeaderRules);
    HeaderRulesOnLine(a);
  }

  /** A header never spans a line: the header passes rewrite the first line as
      `HeaderOf` says, keep the terminator, and go on with the next line. */
  lemma HeadersByLine(a: string, t: char, b: string)
    requires NoTerminator(a) && IsLineTerminator(t)
    ensures Headers(a + [t] + b) == HeaderOf(a) + [t] + Headers(b)
  {
    RuleChainsKeepLines();
    ApplyRulesByLine(a, t, b, HeaderRules);
    HeaderRulesOnLine(a);
  }

  /** `####` lines and `#` without a following space stay literal. */
  lemma UnmatchedHeadersStayLiteral(a: string)
    requires NoTerminator(a)
    requires HasPrefix(a, "####") || (HasPrefix(a, "#") && |a| > 1 && a[1] != ' ' && a[1] != '#')
    ensures Headers(a) == a
  {
    HeadersOneLine(a);
    if HasPrefix(a, "####") {
      assert a[..4][1] == a[1] && a[..4][2] == a[2] && a[..4][3] == a[3];
      PrefixDiffers(a, "### ", 3);
      PrefixDiffers(a, "## ", 2);
      PrefixDiffers(a, "# ", 1);
    } else {
      PrefixDiffers(a, "### ", 1);
      PrefixDiffers(a, "## ", 1);
      PrefixDiffers(a, "# ", 1);
    }
  }

  /** What the three list rules of summary.js:104-106 do to one line. */
  function ListItemOf(line: string): string
  {
    if HasPrefix(line, "- ") || HasPrefix(line, "* ") then
      "<li>" + line[2..] + "</li>"
    else if DigitRun(line) > 0 && HasPrefix(line[DigitRun(line)..], ". ") then
      "<li>" + line[DigitRun(line) + 2..] + "</li>"
    else
      line
  }

  lemma ListRulesOnLine(line: string)
    ensures ApplyRulesToLine(line, ListRules) == ListItemOf(line)
  {
    var l1 := RewriteLine(line, Literal("- "), "<li>", "</li>");
    var l2 := RewriteLine(l1, Literal("* "), "<li>", "</li>");
    var l3 := RewriteLine(l2, Numbered, "<li>", "</li>");
    assert ListRules[1..][1..] == [ListRules[2]];
    assert ApplyRulesToLine(line, ListRules) == l3;
    if HasPrefix(line, "- ") {
      assert l1[0] == '<';
      assert l2 == l1;
      assert DigitRun(l2) == 0;
    } else if HasPrefix(line, "* ") {
      assert l2[0] == '<';
      assert DigitRun(l2) == 0;
    }
  }

  /** On a single line the three list passes act as `ListItemOf`. */
  lemma ListsOneLine(a: string)
    requires NoTerminator(a)
    ensures Lists(a) == ListItemOf(a)
  {
    RuleChainsKeepLines();
    ApplyRulesWhole(a, ListRules);
    ListRulesOnLine(a);
  }

  /** The list passes, like the header passes, act line by line. */
  lemma ListsByLine(a: string, t: char, b: string)
    requires NoTerminator(a) && IsLineTerminator(t)
    ensures Lists(a + [t] + b) == ListItemOf(a) + [t] + Lists(b)
  {
    RuleChainsKeepLines();
    ApplyRulesByLine(a, t, b, ListRules);
    ListRulesOnLine(a);
  }
}
