/** The content script's extractor (content.js:23-90): it takes the main content text when
    it is long enough, falls back to the body clone and then to the live body, and
    cleans up whitespace; without a body it only trims the document's text. */
module Content {
  import opened Wrappers
  import opened JsText
  import opened PageText

  // ---------------------------------------------------------------------------
  // Cleanup (content.js:84-87)
  // ---------------------------------------------------------------------------

  /** The length of the run of newlines that opens `s`. */
  function NewlineRun(s: string): (n: nat)
    ensures n <= |s| && (n < |s| ==> s[n] != '\n')
    ensures forall i | 0 <= i < n :: s[i] == '\n'
    decreases |s|
  {
    if |s| > 0 && s[0] == '\n' then 1 + NewlineRun(s[1..]) else 0
  }

  /** `s.replace(/\n+/g, '\n')`: each run of newlines becomes one, so no two newlines
      are adjacent afterwards. */
  function CollapseNewlineRuns(s: string): (r: string)
    ensures |s| > 0 ==> |r| > 0 && r[0] == s[0]
    ensures forall i | 0 <= i < |r| - 1 :: !(r[i] == '\n' && r[i + 1] == '\n')
    decreases |s|
  {
    if s == [] then []
    else if s[0] == '\n' then
      var n := NewlineRun(s);
      "\n" + CollapseNewlineRuns(s[n..])
    else
      [s[0]] + CollapseNewlineRuns(s[1..])
  }

  /** `k` newlines. */
  function Newlines(k: nat): (r: string)
    ensures |r| == k && forall i | 0 <= i < k :: r[i] == '\n'
  {
    seq(k, _ => '\n')
  }

  /** The meaning of the rewrite: text before the first newline is kept, and a run of
      one or more newlines becomes exactly one. */
  lemma CollapseOneRun(a: string, k: nat, b: string)
    requires '\n' !in a && k >= 1 && (b == [] || b[0] != '\n')
    ensures CollapseNewlineRuns(a + Newlines(k) + b) == a + "\n" + CollapseNewlineRuns(b)
  {
    var t := Newlines(k) + b;
    Associative(a, Newlines(k), b);
    CollapsePrefixFree(a, t);
    NewlineRunOf(k, b);
    assert t[0] == '\n';
    assert t[k..] == b;
    Associative(a, "\n", CollapseNewlineRuns(b));
  }

  /** Text before the first newline passes through. */
  lemma {:induction false} CollapsePrefixFree(a: string, t: string)
    requires '\n' !in a
    ensures CollapseNewlineRuns(a + t) == a + CollapseNewlineRuns(t)
    decreases |a|
  {
    if a == [] {
      assert a + t == t;
    } else {
      var s := a + t;
      assert s[0] == a[0] && a[0] in a;
      assert s[1..] == a[1..] + t;
      DropAvoids(a, 1, '\n');
      CollapsePrefixFree(a[1..], t);
      Associative([a[0]], a[1..], CollapseNewlineRuns(t));
      assert [a[0]] + a[1..] == a;
    }
  }

  lemma {:induction false} NewlineRunOf(k: nat, b: string)
    requires b == [] || b[0] != '\n'
    ensures NewlineRun(Newlines(k) + b) == k
    decreases k
  {
    var s := Newlines(k) + b;
    if k == 0 {
      assert s == b;
    } else {
      assert s[0] == '\n';
      assert s[1..] == Newlines(k - 1) + b;
      NewlineRunOf(k - 1, b);
    }
  }

  /** Without a newline there is nothing to collapse. */
  lemma {:induction false} CollapseNewlineRunsFree(s: string)
    requires '\n' !in s
    ensures CollapseNewlineRuns(s) == s
    decreases |s|
  {
    if s != [] {
      DropAvoids(s, 1, '\n');
      CollapseNewlineRunsFree(s[1..]);
    }
  }

  /** content.js:84-87: collapse whitespace runs, collapse newline runs, trim. */
  function ContentClean(s: string): string
  {
    Trim(CollapseNewlineRuns(CollapseWhitespace(s)))
  }

  /** The newline step never changes anything: after the whitespace step no newline is
      left, so the chain is the `replace(/\s+/g, ' ').trim()` of popup.js. */
  lemma ContentCleanIsCleanup(s: string)
    ensures ContentClean(s) == Cleanup(s)
  {
    var c := CollapseWhitespace(s);
    assert '\n' !in c by {
      assert forall i | 0 <= i < |c| && IsWhitespace(c[i]) :: c[i] == ' ';
    }
    CollapseNewlineRunsFree(c);
  }

  /** The cleaned text has no newline, no two adjacent whitespace characters and no
      whitespace at either end, and cleaning it again changes nothing. */
  lemma ContentCleanProperties(s: string)
    ensures var r := ContentClean(s);
      && '\n' !in r
      && (forall i | 0 <= i < |r| - 1 :: !(IsWhitespace(r[i]) && IsWhitespace(r[i + 1])))
      && (r == [] || (!IsWhitespace(r[0]) && !IsWhitespace(r[|r| - 1])))
      && ContentClean(r) == r
  {
    ContentCleanIsCleanup(s);
    ContentCleanIsCleanup(Cleanup(s));
    CleanupIdempotent(s);
  }

  // ---------------------------------------------------------------------------
  // Candidate selection (content.js:24-81)
  // ---------------------------------------------------------------------------

  /** The texts of a page that has a body: what the selectors find in the body clone, the
      clone itself, and the live `document.body`. */
  datatype BodyView = BodyView(found: map<string, ElementText>, clone: ElementText, live: ElementText)

  /** The page: its body, if any, and the text of `document.documentElement`, if any. */
  datatype Document = Document(body: Option<BodyView>, documentElement: Option<string>)

  /** The text of the first matching content element, `''` when none matches. */
  function MainText(b: BodyView): string
  {
    match FirstSelected(b.found, ContentSelectors)
    case Some(e) => TextOf(e)
    case None => ""
  }

  /** A candidate is kept only when it is truthy and its trimmed length reaches `min`. */
  predicate LongEnough(s: string, min: nat)
  {
    s != "" && |Trim(s)| >= min
  }

  /** content.js:74-81: the main text when its trimmed length is at least 50, else the
      body clone's text; and the live body's text when that is shorter than 20. */
  function Candidate(b: BodyView): (r: string)
    ensures r == MainText(b) || r == TextOf(b.clone) || r == TextOf(b.live)
    ensures r != TextOf(b.live) ==> LongEnough(r, 20)
  {
    var first := if LongEnough(MainText(b), 50) then MainText(b) else TextOf(b.clone);
    if LongEnough(first, 20) then first else TextOf(b.live)
  }

  /** The three candidates in order: the main text wins when long enough; otherwise the
      clone's text when that reaches 20; otherwise the live body's text. */
  lemma CandidateOrder(b: BodyView)
    ensures LongEnough(MainText(b), 50) ==> Candidate(b) == MainText(b)
    ensures !LongEnough(MainText(b), 50) && LongEnough(TextOf(b.clone), 20) ==> Candidate(b) == TextOf(b.clone)
    ensures !LongEnough(MainText(b), 50) && !LongEnough(TextOf(b.clone), 20) ==> Candidate(b) == TextOf(b.live)
  {
  }

  /** What content.js:23-90 returns. */
  function ContentText(d: Document): string
  {
    match d.body
    case None => if d.documentElement.Some? then Trim(d.documentElement.value) else ""
    case Some(b) => ContentClean(Candidate(b))
  }

  /** content.js:23-90, reassigning `content` step by step. */
  method ExtractPageContent(d: Document) returns (content: string)
    ensures content == ContentText(d)
  {
    if d.body.None? {
      if d.documentElement.Some? {
        return Trim(d.documentElement.value);
      }
      return "";
    }
    var b := d.body.value;
    content := FindMainContent(b.found);
    if content == "" || |Trim(content)| < 50 {
      content := TextOf(b.clone);
    }
    if content == "" || |Trim(content)| < 20 {
      content := TextOf(b.live);
    }
    content := CollapseWhitespace(content);
    content := CollapseNewlineRuns(content);
    content := Trim(content);
  }

  /** With a body, the result is the words of the chosen candidate joined by single
      spaces, with no cap on its length. */
  lemma ContentTextKeepsWords(d: Document)
    requires d.body.Some?
    ensures IsClean(ContentText(d))
    ensures ContentText(d) == Join(Tokens(Candidate(d.body.value)))
  {
    ContentCleanIsCleanup(Candidate(d.body.value));
    CleanupJoinsTokens(Candidate(d.body.value));
  }

  /** Without a body only the ends of the document's text are trimmed: the result is a
      slice of it with only whitespace cut off, inner newlines and whitespace runs stay,
      and no cap applies, so a text with no whitespace at its ends comes back whole. */
  lemma NoBodyOnlyTrims(t: string)
    ensures var r := ContentText(Document(None, Some(t)));
      && (exists i, j :: 0 <= i <= j <= |t| && r == t[i..j]
                         && AllWhitespace(t[..i]) && AllWhitespace(t[j..]))
      && (r == [] || (!IsWhitespace(r[0]) && !IsWhitespace(r[|r| - 1])))
      && (t != [] && !IsWhitespace(t[0]) && !IsWhitespace(t[|t| - 1]) ==> r == t)
    ensures ContentText(Document(None, None)) == ""
  {
    TrimSlice(t);
    if t != [] && !IsWhitespace(t[0]) && !IsWhitespace(t[|t| - 1]) {
      assert [] + t + [] == t;
      TrimOfPadded([], t, []);
    }
  }

  /** For instance, a blank line inside the text survives, where the body path would
      have collapsed it into one space. */
  lemma NoBodyKeepsBlankLine()
    ensures ContentText(Document(None, Some(" a\n\nb "))) == "a\n\nb"
  {
    assert " a\n\nb " == " " + "a\n\nb" + " ";
    TrimOfPadded(" ", "a\n\nb", " ");
  }
}
