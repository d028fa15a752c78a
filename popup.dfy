/** The popup (popup.js): the click on "summarize" with its guards, the text the
    injected extractor returns, the retrying message to the content script, and the
    plain newline formatter used when the summary stays in the popup. */
module Popup {
  import opened Wrappers
  import opened JsText
  import opened Settings
  import opened PageText
  import opened Prompt
  import SummaryStore

  // ---------------------------------------------------------------------------
  // formatSummary of the popup (popup.js:271-274)
  // ---------------------------------------------------------------------------

  /** `summary.replace(/\n/g, '<br>')`: no newline is left, and each one adds three
      characters. */
  function FormatSummary(summary: string): (r: string)
    ensures '\n' !in r
    ensures |r| == |summary| + 3 * multiset(summary)['\n']
  {
    ReplaceNewlinesLength(summary);
    ReplaceNewlines(summary)
  }

  /** The inverse rewrite: every `<br>` back to a newline, scanning from the left. */
  function Unbreak(t: string): string
    decreases |t|
  {
    if t == [] then []
    else if HasPrefix(t, "<br>") then "\n" + Unbreak(t[4..])
    else [t[0]] + Unbreak(t[1..])
  }

  /** Every character other than a newline is kept, in order: on a text without `<`,
      turning each `<br>` back into a newline gives the summary back. */
  lemma {:induction false} FormatSummaryRoundTrip(summary: string)
    requires '<' !in summary
    ensures Unbreak(FormatSummary(summary)) == summary
    decreases |summary|
  {
    if summary != [] {
      var c, rest := summary[0], summary[1..];
      assert summary == [c] + rest;
      ReplaceNewlinesCons(c, rest);
      var r := ReplaceNewlines(rest);
      assert '<' !in rest by {
        DropAvoids(summary, 1, '<');
      }
      FormatSummaryRoundTrip(rest);
      if c == '\n' {
        var t := "<br>" + r;
        assert HasPrefix(t, "<br>") && t[4..] == r;
      } else {
        var t := [c] + r;
        assert t[0] == c && t[1..] == r;
        PrefixFirst(t, "<br>");
      }
    }
  }

  lemma PrefixFirst(t: string, p: string)
    requires p != []
    ensures HasPrefix(t, p) ==> t[0] == p[0]
  {
    if HasPrefix(t, p) {
      assert t[..|p|][0] == t[0];
    }
  }

  // ---------------------------------------------------------------------------
  // extractPageContent of the popup (popup.js:278-325)
  // ---------------------------------------------------------------------------

  const MaxContentLength := 15000

  /** popup.js:320-322: text longer than 15000 characters keeps its first 15000 and gets
      `...` appended. */
  function Truncate(s: string): (r: string)
    ensures |r| <= MaxContentLength + 3
    ensures |s| <= MaxContentLength ==> r == s
    ensures |s| > MaxContentLength ==>
              |r| == MaxContentLength + 3 && r[..MaxContentLength] == s[..MaxContentLength]
              && r[MaxContentLength..] == "..."
  {
    if |s| > MaxContentLength then s[..MaxContentLength] + "..." else s
  }

  /** Cutting twice cuts once: the result of a cut is cut to itself. */
  lemma TruncateIdempotent(s: string)
    ensures Truncate(Truncate(s)) == Truncate(s)
  {
    if |s| > MaxContentLength {
      var r := Truncate(s);
      assert r[..MaxContentLength] + "..." == r;
    }
  }

  /** The text before cleanup: the main content element's text, or the body clone's when
      no selector matches or the match has no text (popup.js:300-314). */
  function PageSource(found: map<string, ElementText>, body: ElementText): string
  {
    match FirstSelected(found, ContentSelectors)
    case Some(e) => if TextOf(e) != "" then TextOf(e) else TextOf(body)
    case None => TextOf(body)
  }

  /** What the injected extractor returns. */
  function PopupPageText(found: map<string, ElementText>, body: ElementText): string
  {
    Truncate(Cleanup(PageSource(found, body)))
  }

  /** popup.js:278-325: the selector loop, the body fallback, cleanup and the cap. */
  method ExtractPageContent(found: map<string, ElementText>, body: ElementText) returns (content: string)
    ensures content == PopupPageText(found, body)
  {
    content := FindMainContent(found);
    if content == "" {
      content := TextOf(body);
    }
    content := Cleanup(content);
    if |content| > MaxContentLength {
      content := content[..MaxContentLength] + "...";
    }
  }

  /** The extracted text is the source's words joined by single spaces, whole when it
      fits and cut to 15000 characters and `...` otherwise. */
  lemma PopupPageTextShape(found: map<string, ElementText>, body: ElementText)
    ensures var c := Cleanup(PageSource(found, body));
      var r := PopupPageText(found, body);
      && |r| <= MaxContentLength + 3
      && c == Join(Tokens(PageSource(found, body)))
      && (|c| <= MaxContentLength ==> r == c && IsClean(r))
      && (|c| > MaxContentLength ==> r == c[..MaxContentLength] + "...")
  {
    CleanupJoinsTokens(PageSource(found, body));
  }

  // ---------------------------------------------------------------------------
  // sendMessageWithRetry (popup.js:328-342)
  // ---------------------------------------------------------------------------

  /** How one `tabs.sendMessage` ends: a response with its `content` (the empty string
      also stands for a missing or `null` content), no response at all, or a rejection
      with its error message. */
  datatype Reply = Response(content: string) | NoResponse | Rejected(error: string)

  const NoContentError := "No content in response"

  /** One attempt of the loop body: a truthy `content` is returned, anything else becomes
      an error. */
  function Attempt(r: Reply): (a: Result<string, string>)
    ensures a.Ok? <==> r.Response? && r.content != ""
    ensures a.Ok? ==> a.value == r.content
    ensures r.Rejected? ==> a == Err(r.error)
  {
    match r
    case Response(c) => if c != "" then Ok(c) else Err(NoContentError)
    case NoResponse => Err(NoContentError)
    case Rejected(e) => Err(e)
  }

  /** The first of the first `n` attempts that succeeds. */
  function FirstAnswered(replies: seq<Reply>, n: nat): (k: Option<nat>)
    requires n <= |replies|
    ensures k.Some? ==> k.value < n && Attempt(replies[k.value]).Ok?
    ensures k.Some? ==> forall j | 0 <= j < k.value :: Attempt(replies[j]).Err?
    ensures k.None? ==> forall j | 0 <= j < n :: Attempt(replies[j]).Err?
  {
    if n == 0 then None
    else match FirstAnswered(replies, n - 1)
      case Some(k) => Some(k)
      case None => if Attempt(replies[n - 1]).Ok? then Some(n - 1) else None
  }

  /** How the promise settles: with the content, with an error, or with `undefined` when
      `retries` is not positive and the loop never runs. */
  datatype Delivery = Delivered(content: string) | Thrown(error: string) | Undefined

  /** What the loop does with these replies: how it settles, how many attempts it makes
      and how many times it waits. */
  function Retry(replies: seq<Reply>, retries: int): (Delivery, nat, nat)
    requires retries <= |replies|
  {
    if retries <= 0 then (Undefined, 0, 0)
    else match FirstAnswered(replies, retries)
      case Some(k) => (Delivered(Attempt(replies[k]).value), k + 1, k)
      case None => (Thrown(Attempt(replies[retries - 1]).error), retries, retries - 1)
  }

  /** The default `retries` of popup.js:328, which both callers (popup.js:62 and 87) use. */
  const DefaultRetries := 3

  /** popup.js:328-342. `replies[i]` is how the message of attempt `i` ends; each wait of
      500 ms is counted in `waits`. The callers pass `DefaultRetries`. */
  method SendMessageWithRetry(replies: seq<Reply>, retries: int)
    returns (result: Delivery, attempts: nat, waits: nat)
    requires retries <= |replies|
    ensures (result, attempts, waits) == Retry(replies, retries)
  {
    var i := 0;
    waits := 0;
    while i < retries
      invariant 0 <= i <= |replies| && (retries > 0 ==> i < retries)
      invariant FirstAnswered(replies, i) == None
      invariant waits == i
    {
      var attempt := Attempt(replies[i]);
      if attempt.Ok? {
        assert FirstAnswered(replies, i + 1) == Some(i);
        FirstAnsweredExtends(replies, i + 1, retries);
        return Delivered(attempt.value), i + 1, waits;
      }
      if i == retries - 1 {
        return Thrown(attempt.error), i + 1, waits;
      }
      waits := waits + 1;
      i := i + 1;
    }
    return Undefined, 0, 0;
  }

  /** Once an attempt has succeeded, looking at more attempts finds the same one. */
  lemma {:induction false} FirstAnsweredExtends(replies: seq<Reply>, n: nat, m: nat)
    requires n <= m <= |replies| && FirstAnswered(replies, n).Some?
    ensures FirstAnswered(replies, m) == FirstAnswered(replies, n)
    decreases m - n
  {
    if n < m {
      FirstAnsweredExtends(replies, n, m - 1);
    }
  }

  /** At most `retries` attempts; a wait between two attempts and never after the last;
      the first content is returned and every earlier attempt failed; when all fail, the
      error of the last attempt is thrown. */
  lemma RetryPromises(replies: seq<Reply>, retries: int)
    requires retries <= |replies|
    ensures var (result, attempts, waits) := Retry(replies, retries);
      && attempts <= (if retries > 0 then retries else 0)
      && (attempts > 0 ==> waits == attempts - 1)
      && (attempts == 0 <==> result == Undefined)
      && (result.Delivered? ==>
            && Attempt(replies[attempts - 1]) == Ok(result.content)
            && forall j | 0 <= j < attempts - 1 :: Attempt(replies[j]).Err?)
      && (result.Thrown? ==>
            && attempts == retries
            && (forall j | 0 <= j < retries :: Attempt(replies[j]).Err?)
            && Attempt(replies[retries - 1]) == Err(result.error))
  {
  }

  // ---------------------------------------------------------------------------
  // The click on "summarize" (popup.js:24-137)
  // ---------------------------------------------------------------------------

  /** The active tab. */
  datatype Tab = Tab(title: string, url: string)

  /** How a click ends. `OpenSummary`: the summary was stored under `key` and the
      summary page opened with it. */
  datatype ClickOutcome =
    | AskForKey
    | ShowError(message: string)
    | OpenSummary(key: string, data: SummaryStore.SummaryData)
    | ShowInPopup(html: string)

  const MissingKeyMessage := "Please configure your OpenAI API key in settings"
  const ExtractFailedMessage := "Could not extract content from page. Please refresh the page and try again."
  const NoContentMessage := "No content found on this page"

  /** `settings.openaiApiKey?.trim()`, with the empty string for a missing key. */
  function ApiKey(st: SyncStore): string
  {
    if st.openaiApiKey.Some? then Trim(st.openaiApiKey.value) else ""
  }

  /** popup.js:24-137, with the prompt texts `texts` (popup.js passes `PopupTexts`).
      `extracted` is what the two extraction routes gave (`None`: both
      failed), `api` answers a request with the summary or with an error message,
      `now` and `stamp` are the clock readings of popup.js:104 and 109. */
  function Click(texts: Texts, st: SyncStore, tab: Tab, extracted: Option<string>,
                 api: Request -> Result<string, string>, now: nat, stamp: string): ClickOutcome
  {
    var key := ApiKey(st);
    if key == "" then AskForKey
    else if extracted.None? then ShowError("Error: " + ExtractFailedMessage)
    else if Trim(extracted.value) == "" then ShowError("Error: " + NoContentMessage)
    else match api(SummaryRequest(texts, key, st, extracted.value))
      case Err(m) => ShowError("Error: " + m)
      case Ok(summary) =>
        if On(st.autoOpen) then
          OpenSummary(SummaryStore.SummaryKey(now), SummaryStore.SummaryData(summary, tab.title, tab.url, stamp))
        else
          ShowInPopup(FormatSummary(summary))
  }

  /** A missing or blank key stops the click before anything else: the outcome does not
      depend on the page or on the API. */
  lemma MissingKeyStopsFirst(texts: Texts, st: SyncStore, tab: Tab, e1: Option<string>, e2: Option<string>,
                             api1: Request -> Result<string, string>, api2: Request -> Result<string, string>,
                             now: nat, stamp: string)
    requires st.openaiApiKey.None? || AllWhitespace(st.openaiApiKey.value)
    ensures Click(texts, st, tab, e1, api1, now, stamp) == AskForKey
    ensures Click(texts, st, tab, e1, api1, now, stamp) == Click(texts, st, tab, e2, api2, now, stamp)
  {
    if st.openaiApiKey.Some? {
      TrimOfWhitespace(st.openaiApiKey.value);
    }
  }

  /** Blank page text never reaches the API: with a key set it ends in the no-content
      error, whatever the API would answer. */
  lemma BlankContentNotSent(texts: Texts, st: SyncStore, tab: Tab, text: string,
                            api: Request -> Result<string, string>, now: nat, stamp: string)
    requires ApiKey(st) != "" && AllWhitespace(text)
    ensures Click(texts, st, tab, Some(text), api, now, stamp) == ShowError("Error: " + NoContentMessage)
  {
    TrimOfWhitespace(text);
  }

  /** Past the guards, the API sees the trimmed key, the settings and the page text, and
      the outcome depends on nothing else it could be asked. */
  lemma ClickAsksOnce(texts: Texts, st: SyncStore, tab: Tab, text: string,
                      api1: Request -> Result<string, string>, api2: Request -> Result<string, string>,
                      now: nat, stamp: string)
    requires api1(SummaryRequest(texts, ApiKey(st), st, text)) == api2(SummaryRequest(texts, ApiKey(st), st, text))
    ensures Click(texts, st, tab, Some(text), api1, now, stamp) == Click(texts, st, tab, Some(text), api2, now, stamp)
  {
  }

  /** popup.js:24-137 over the local store: the summary is saved under a fresh key and
      `latest_summary` before the summary page opens; any other outcome writes nothing. */
  method OnSummarizeClick(texts: Texts, store: SummaryStore.Store, st: SyncStore, tab: Tab, extracted: Option<string>,
                          api: Request -> Result<string, string>, now: nat, stamp: string)
    returns (outcome: ClickOutcome)
    modifies store
    ensures outcome == Click(texts, st, tab, extracted, api, now, stamp)
    ensures outcome.OpenSummary? ==>
              store.entries == old(store.entries)[outcome.key := SummaryStore.Record(outcome.data)]
                                                 [SummaryStore.LatestKey := SummaryStore.Text(outcome.key)]
    ensures !outcome.OpenSummary? ==> store.entries == old(store.entries)
  {
    var apiKey := ApiKey(st);
    if apiKey == "" {
      return AskForKey;
    }
    if extracted.None? {
      return ShowError("Error: " + ExtractFailedMessage);
    }
    var pageContent := extracted.value;
    if Trim(pageContent) == "" {
      return ShowError("Error: " + NoContentMessage);
    }
    var answer := api(SummaryRequest(texts, apiKey, st, pageContent));
    if answer.Err? {
      return ShowError("Error: " + answer.error);
    }
    var summary := answer.value;
    if st.autoOpen != Some(false) {
      var key := store.Save(summary, tab.title, tab.url, now, stamp);
      outcome := OpenSummary(key, SummaryStore.SummaryData(summary, tab.title, tab.url, stamp));
    } else {
      outcome := ShowInPopup(FormatSummary(summary));
    }
  }

  /** On success with `autoOpen` not `false`, the summary is stored under the key made
      of the click's time, with the tab's title and url and the time stamp. */
  lemma ClickStoresUnderFreshKey(texts: Texts, st: SyncStore, tab: Tab, extracted: Option<string>,
                                 api: Request -> Result<string, string>, now: nat, stamp: string)
    ensures var o := Click(texts, st, tab, extracted, api, now, stamp);
      o.OpenSummary? ==>
        && On(st.autoOpen)
        && o.key == SummaryStore.SummaryKey(now)
        && (o.data.title, o.data.url, o.data.timestamp) == (tab.title, tab.url, stamp)
  {
  }

  /** A summary the popup stores is what the summary page then shows, by its key, and the
      page leaves the store without it. */
  lemma StoredSummaryIsShown(m: map<string, SummaryStore.Value>, key: string, data: SummaryStore.SummaryData, now: nat)
    requires key == SummaryStore.SummaryKey(now)
    ensures var saved := m[key := SummaryStore.Record(data)][SummaryStore.LatestKey := SummaryStore.Text(key)];
      SummaryStore.Load(saved, key).0 == SummaryStore.Shown(SummaryStore.Display(data))
  {
    SummaryStore.SaveThenOpenByKey(m, data, now);
  }
}
