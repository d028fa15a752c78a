/** The consume-once summary store: popup.js writes a summary under a fresh key and
    points `latest_summary` at it (popup.js:104-116); the summary page reads it once,
    by the key in its address or through `latest_summary`, and removes what it read
    (summary.js:16-52). The extension's local storage is a map from keys to values. */
module SummaryStore {
  import opened Wrappers
  import opened JsText
  import opened SummaryFormat
  import opened SummaryMarkup

  /** The record popup.js stores. The ISO time stamp is kept as the string it is. */
  datatype SummaryData = SummaryData(summary: string, title: string, url: string, timestamp: string)

  /** A stored value: a summary record, or the key string kept under `latest_summary`. */
  datatype Value = Record(data: SummaryData) | Text(text: string)

  /** JavaScript truthiness of a stored value: every object is truthy, a string unless
      it is empty. */
  predicate Truthy(v: Value)
  {
    v.Record? || v.text != ""
  }

  /** A value used as a property name: a string is itself. popup.js:115 always stores a
      string under `latest_summary`, so a record is never used as a key; the model gives it
      the string `[object Object]`, though `chrome.storage.local.get` might reject it
      instead. */
  function AsKey(v: Value): (k: string)
    ensures v.Text? ==> k == v.text
  {
    match v
    case Text(t) => t
    case Record(_) => "[object Object]"
  }

  const LatestKey := "latest_summary"
  const NotFoundMessage := "Summary data not found. It may have expired."
  const NoSummaryMessage := "No summary data found. Please try generating the summary again."

  /** The key popup.js:104 makes of the current time in milliseconds. */
  function SummaryKey(now: nat): (k: string)
    ensures k != LatestKey && k != ""
  {
    var k := "summary_" + NatToString(now);
    assert k[0] == 's' && LatestKey[0] == 'l';
    k
  }

  /** The page header and body of `displaySummary` (summary.js:54-75). */
  datatype Page = Page(title: string, url: string, backLink: Option<string>, body: string)

  /** summary.js:56-57 and 64-75: the title falls back to `Unknown Page`, the url to the
      empty string, the back link exists only for a truthy url, and the body is
      `formatSummary` of the summary, rules in the order summary.js:85-116 runs them,
      so it holds no newline. */
  function Display(d: SummaryData): (p: Page)
    ensures p.title == (if d.title != "" then d.title else "Unknown Page")
    ensures p.url == d.url
    ensures p.backLink.Some? <==> d.url != ""
    ensures p.backLink.Some? ==> p.backLink.value == d.url
    ensures p.body == FormatSummary(d.summary) && '\n' !in p.body
  {
    FormatSummaryHasNoNewline(d.summary);
    Page(if d.title != "" then d.title else "Unknown Page",
         d.url,
         if d.url != "" then Some(d.url) else None,
         FormatSummary(d.summary))
  }

  /** What the summary page ends with. `Crashed`: the value found is a non-empty string
      instead of a record, so `formatSummary(undefined)` throws inside `displaySummary`
      and the removal after it is never reached. */
  datatype Outcome = Shown(page: Page) | Failed(message: string) | Crashed

  function Show(v: Value): Outcome
  {
    if v.Record? then Shown(Display(v.data)) else Crashed
  }

  /** summary.js:20-31: the key from the address. */
  function LoadByKey(m: map<string, Value>, key: string): (Outcome, map<string, Value>)
  {
    if key in m && Truthy(m[key]) then
      (Show(m[key]), if m[key].Record? then m - {key} else m)
    else
      (Failed(NotFoundMessage), m)
  }

  /** summary.js:32-50: through `latest_summary`. */
  function LoadLatest(m: map<string, Value>): (Outcome, map<string, Value>)
  {
    if LatestKey in m && Truthy(m[LatestKey]) then
      var k := AsKey(m[LatestKey]);
      if k in m && Truthy(m[k]) then
        (Show(m[k]), if m[k].Record? then m - {k, LatestKey} else m)
      else
        (Failed(NoSummaryMessage), m)
    else
      (Failed(NoSummaryMessage), m)
  }

  /** summary.js:16-51. `param` is the `key` parameter of the address; the empty string
      stands for both a missing and an empty parameter, which JavaScript treats alike. */
  function Load(m: map<string, Value>, param: string): (Outcome, map<string, Value>)
  {
    if param != "" then LoadByKey(m, param) else LoadLatest(m)
  }

  /** The store itself: `chrome.storage.local` as a map that the two pages update. */
  class Store {
    var entries: map<string, Value>

    constructor()
      ensures entries == map[]
    {
      entries := map[];
    }

    /** popup.js:103-116: store the summary under `summary_<now>` and point
        `latest_summary` at that key. */
    method Save(summary: string, title: string, url: string, now: nat, stamp: string)
      returns (key: string)
      modifies this
      ensures key == SummaryKey(now)
      ensures entries == old(entries)[key := Record(SummaryData(summary, title, url, stamp))]
                                     [LatestKey := Text(key)]
    {
      key := SummaryKey(now);
      entries := entries[key := Record(SummaryData(summary, title, url, stamp))];
      entries := entries[LatestKey := Text(key)];
    }

    /** summary.js:16-51: read once, then remove what was shown. */
    method Open(param: string) returns (outcome: Outcome)
      modifies this
      ensures (outcome, entries) == Load(old(entries), param)
    {
      if param != "" {
        if param in entries && Truthy(entries[param]) {
          var v := entries[param];
          outcome := Show(v);
          if v.Record? {
            entries := entries - {param};
          }
        } else {
          outcome := Failed(NotFoundMessage);
        }
      } else if LatestKey in entries && Truthy(entries[LatestKey]) {
        var k := AsKey(entries[LatestKey]);
        if k in entries && Truthy(entries[k]) {
          var v := entries[k];
          outcome := Show(v);
          if v.Record? {
            entries := entries - {k, LatestKey};
          }
        } else {
          outcome := Failed(NoSummaryMessage);
        }
      } else {
        outcome := Failed(NoSummaryMessage);
      }
    }
  }

  // ---------------------------------------------------------------------------
  // Properties of the store
  // ---------------------------------------------------------------------------

  /** Loading by key removes that key and nothing else, and only when a summary was
      shown; otherwise the store is unchanged. */
  lemma LoadByKeyRemovesOnlyKey(m: map<string, Value>, key: string)
    ensures var (outcome, m') := LoadByKey(m, key);
      && (outcome.Shown? ==> m' == m - {key})
      && (!outcome.Shown? ==> m' == m)
      && (forall k | k in m && k != key :: k in m' && m'[k] == m[k])
  {
  }

  /** A missing or empty entry yields the expiry message and removes nothing. */
  lemma LoadByKeyMissing(m: map<string, Value>, key: string)
    requires key !in m || !Truthy(m[key])
    ensures LoadByKey(m, key) == (Failed(NotFoundMessage), m)
  {
  }

  /** The fallback removes both the summary it shows and `latest_summary`, and nothing
      else. */
  lemma LoadLatestRemovesBoth(m: map<string, Value>)
    ensures var (outcome, m') := LoadLatest(m);
      && (outcome.Shown? ==> LatestKey in m && m' == m - {AsKey(m[LatestKey]), LatestKey})
      && (!outcome.Shown? ==> m' == m)
  {
  }

  /** Whatever was stored before, a summary saved at time `now` is shown by the page
      opened with its key, with the store back to what it was without that key. */
  lemma SaveThenOpenByKey(m: map<string, Value>, d: SummaryData, now: nat)
    ensures var key := SummaryKey(now);
      var saved := m[key := Record(d)][LatestKey := Text(key)];
      Load(saved, key) == (Shown(Display(d)), m[LatestKey := Text(key)] - {key})
  {
    var key := SummaryKey(now);
    var saved := m[key := Record(d)][LatestKey := Text(key)];
    assert saved[key] == Record(d);
    assert saved - {key} == m[LatestKey := Text(key)] - {key};
  }

  /** The same summary is shown through `latest_summary` when the address has no key, and
      both entries are gone afterwards. */
  lemma SaveThenOpenLatest(m: map<string, Value>, d: SummaryData, now: nat)
    ensures var key := SummaryKey(now);
      var saved := m[key := Record(d)][LatestKey := Text(key)];
      Load(saved, "") == (Shown(Display(d)), m - {key, LatestKey})
  {
    var key := SummaryKey(now);
    var saved := m[key := Record(d)][LatestKey := Text(key)];
    assert saved[LatestKey] == Text(key) && saved[key] == Record(d);
    assert saved - {key, LatestKey} == m - {key, LatestKey};
  }

  /** A summary is shown at most once: opening the same key a second time finds nothing. */
  lemma OpenTwice(m: map<string, Value>, key: string)
    requires key != ""
    requires Load(m, key).0.Shown?
    ensures Load(Load(m, key).1, key) == (Failed(NotFoundMessage), Load(m, key).1)
  {
  }
}
