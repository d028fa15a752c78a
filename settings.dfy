/** The settings that the options page writes to `chrome.storage.sync` and the popup
    reads back (options.js:11-26 and 31-37, popup.js:26-33). A key that was never
    written reads as `undefined`, modelled as `None`. */
module Settings {
  import opened Wrappers

  /** A JavaScript number as these settings hold it: `NaN` or an integer. */
  datatype Num = NaN | Int(value: int)

  /** JavaScript truthiness of a number: neither `NaN` nor zero. */
  predicate NumTruthy(n: Num)
  {
    n.Int? && n.value != 0
  }

  /** `flag !== false`: on unless stored as exactly `false`. */
  predicate On(flag: Option<bool>)
  {
    flag != Some(false)
  }

  /** `stored || fallback` for a string setting: the empty string and `undefined` are
      both falsy. */
  function StringOr(stored: Option<string>, fallback: string): (r: string)
    ensures stored.Some? && stored.value != "" ==> r == stored.value
    ensures stored.None? || stored.value == "" ==> r == fallback
  {
    if stored.Some? && stored.value != "" then stored.value else fallback
  }

  /** The keys of `chrome.storage.sync` the extension uses. */
  datatype SyncStore = SyncStore(
    openaiApiKey: Option<string>,
    openaiModel: Option<string>,
    maxTokens: Option<Num>,
    includeFacts: Option<bool>,
    structuredFormat: Option<bool>,
    autoOpen: Option<bool>,
    translateTo: Option<string>)
}
