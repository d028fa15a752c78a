/** The options page (options.js): it fills its form from the synced settings with
    defaults, and on save it validates the form in a fixed order and writes the
    settings only when every check passes. */
module Options {
  import opened Wrappers
  import opened JsText
  import opened Settings

  // ---------------------------------------------------------------------------
  // parseInt and String of a number
  // ---------------------------------------------------------------------------

  /** The value of `c` as a digit in base `radix` (10 or 16), when it is one. */
  function DigitValue(c: char, radix: nat): (d: Option<nat>)
    requires radix == 10 || radix == 16
    ensures d.Some? ==> d.value < radix
    ensures radix == 10 ==> (d.Some? <==> '0' <= c <= '9')
  {
    if '0' <= c <= '9' then Some(c as nat - '0' as nat)
    else if radix == 16 && 'a' <= c <= 'f' then Some(c as nat - 'a' as nat + 10)
    else if radix == 16 && 'A' <= c <= 'F' then Some(c as nat - 'A' as nat + 10)
    else None
  }

  predicate IsDigit(c: char, radix: nat)
    requires radix == 10 || radix == 16
  {
    DigitValue(c, radix).Some?
  }

  predicate AllDigits(ds: string, radix: nat)
    requires radix == 10 || radix == 16
  {
    forall i | 0 <= i < |ds| :: IsDigit(ds[i], radix)
  }

  /** The length of the run of digits that opens `s`. */
  function DigitRun(s: string, radix: nat): (n: nat)
    requires radix == 10 || radix == 16
    ensures n <= |s| && AllDigits(s[..n], radix)
    ensures n < |s| ==> !IsDigit(s[n], radix)
    decreases |s|
  {
    if |s| > 0 && IsDigit(s[0], radix) then 1 + DigitRun(s[1..], radix) else 0
  }

  /** The number a run of digits denotes, most significant digit first. */
  function DigitsValue(ds: string, radix: nat): nat
    requires radix == 10 || radix == 16
    requires AllDigits(ds, radix)
    decreases |ds|
  {
    if ds == [] then 0
    else DigitsValue(ds[..|ds| - 1], radix) * radix + DigitValue(ds[|ds| - 1], radix).value
  }

  /** `parseInt(s)` without a radix: leading whitespace is skipped and one sign is taken;
      the rest is read by `ParseUnsigned`. */
  function ParseInt(s: string): Num
  {
    var t := s[LeadingSpace(s)..];
    if |t| > 0 && (t[0] == '-' || t[0] == '+') then ParseUnsigned(t[1..], t[0] == '-')
    else ParseUnsigned(t, false)
  }

  /** After the sign: `0x`/`0X` selects base 16, and the longest run of digits that
      follows is read; without a digit the result is `NaN`. Whatever follows the digits
      is ignored. */
  function ParseUnsigned(u: string, negative: bool): Num
  {
    var hex := HasPrefix(u, "0x") || HasPrefix(u, "0X");
    var radix := if hex then 16 else 10;
    var v := if hex then u[2..] else u;
    var k := DigitRun(v, radix);
    if k == 0 then NaN
    else
      var m: int := DigitsValue(v[..k], radix);
      Int(if negative then -m else m)
  }

  /** `String(i)` for an integer. */
  function IntToString(i: int): (r: string)
    ensures |r| > 0 && (r[0] == '-' || '0' <= r[0] <= '9')
  {
    if i < 0 then "-" + NatToString(-i) else NatToString(i)
  }

  lemma {:induction false} DigitsOfNat(n: nat)
    ensures AllDigits(NatToString(n), 10)
    ensures DigitsValue(NatToString(n), 10) == n
    decreases n
  {
    var r := NatToString(n);
    if n >= 10 {
      DigitsOfNat(n / 10);
      assert r[..|r| - 1] == NatToString(n / 10);
      assert r[|r| - 1] == DigitChar(n % 10);
    }
  }

  lemma {:induction false} DigitRunAppend(a: string, b: string, radix: nat)
    requires radix == 10 || radix == 16
    requires AllDigits(a, radix)
    requires b == [] || !IsDigit(b[0], radix)
    ensures DigitRun(a + b, radix) == |a|
    decreases |a|
  {
    if a != [] {
      assert (a + b)[0] == a[0];
      assert (a + b)[1..] == a[1..] + b;
      DigitRunAppend(a[1..], b, radix);
    } else {
      assert a + b == b;
    }
  }

  /** A run of decimal digits followed by text that cannot continue it is read in
      base 10. */
  lemma ParseDecimal(d: string, rest: string, negative: bool)
    requires d != [] && AllDigits(d, 10)
    requires rest == [] || !('0' <= rest[0] <= '9' || rest[0] == 'x' || rest[0] == 'X')
    ensures var m: int := DigitsValue(d, 10);
      ParseUnsigned(d + rest, negative) == Int(if negative then -m else m)
  {
    var u := d + rest;
    if |u| >= 2 {
      assert u[1] == if |d| >= 2 then d[1] else rest[0];
    }
    NotHex(u);
    DigitRunAppend(d, rest, 10);
    assert u[..|d|] == d;
  }

  lemma NotHex(u: string)
    requires |u| >= 2 ==> u[1] != 'x' && u[1] != 'X'
    ensures !HasPrefix(u, "0x") && !HasPrefix(u, "0X")
  {
    if |u| >= 2 {
      assert u[..2][1] == u[1];
    }
  }

  /** Reading back what `String` wrote: `parseInt` returns the integer, also when other
      text follows that cannot continue the number. */
  lemma ParseIntOfString(i: int, rest: string)
    requires rest == [] || !('0' <= rest[0] <= '9' || rest[0] == 'x' || rest[0] == 'X')
    ensures ParseInt(IntToString(i) + rest) == Int(i)
  {
    if i < 0 {
      ParseIntOfNegative(-i, rest);
    } else {
      ParseIntOfNatural(i, rest);
    }
  }

  lemma ParseIntOfNatural(m: nat, rest: string)
    requires rest == [] || !('0' <= rest[0] <= '9' || rest[0] == 'x' || rest[0] == 'X')
    ensures ParseInt(NatToString(m) + rest) == Int(m)
  {
    var d := NatToString(m);
    DigitsOfNat(m);
    ParseDecimal(d, rest, false);
    assert (d + rest)[0] == d[0];
    ParseIntUnspaced(d + rest);
  }

  lemma ParseIntOfNegative(m: nat, rest: string)
    requires m > 0
    requires rest == [] || !('0' <= rest[0] <= '9' || rest[0] == 'x' || rest[0] == 'X')
    ensures ParseInt("-" + NatToString(m) + rest) == Int(-(m as int))
  {
    var d := NatToString(m);
    DigitsOfNat(m);
    ParseDecimal(d, rest, true);
    NegativeSign(d + rest);
    Associative("-", d, rest);
  }

  lemma NegativeSign(u: string)
    ensures ParseInt("-" + u) == ParseUnsigned(u, true)
  {
    var s := "-" + u;
    assert s[0] == '-' && s[1..] == u;
    ParseIntUnspaced(s);
  }

  lemma ParseIntUnspaced(s: string)
    requires s != [] && !IsWhitespace(s[0])
    ensures ParseInt(s) == if s[0] == '-' || s[0] == '+' then ParseUnsigned(s[1..], s[0] == '-')
                           else ParseUnsigned(s, false)
  {
    assert LeadingSpace(s) == 0;
    assert s[0..] == s;
  }

  /** `parseInt` finds no number in a text without a decimal digit. */
  lemma ParseIntWithoutDigit(s: string)
    requires forall i | 0 <= i < |s| :: !('0' <= s[i] <= '9')
    ensures ParseInt(s) == NaN
  {
    var t := s[LeadingSpace(s)..];
    var u := if |t| > 0 && (t[0] == '-' || t[0] == '+') then t[1..] else t;
    assert forall i | 0 <= i < |u| :: !('0' <= u[i] <= '9');
    NoDigitUnsigned(u, |t| > 0 && t[0] == '-');
  }

  lemma NoDigitUnsigned(u: string, negative: bool)
    requires forall i | 0 <= i < |u| :: !('0' <= u[i] <= '9')
    ensures ParseUnsigned(u, negative) == NaN
  {
    assert !HasPrefix(u, "0x") && !HasPrefix(u, "0X") by {
      if |u| >= 2 {
        assert u[0] != '0';
      }
    }
    assert u == [] || !IsDigit(u[0], 10);
  }

  // ---------------------------------------------------------------------------
  // Validation on save
  // ---------------------------------------------------------------------------

  /** The settings object that options.js:31-37 collects from the form. */
  datatype Collected = Collected(
    openaiApiKey: string,
    maxTokens: Num,
    includeFacts: bool,
    structuredFormat: bool,
    autoOpen: bool)

  const EnterKeyMessage := "Please enter your OpenAI API key"
  const KeyPrefixMessage := "API key should start with \"sk-\""
  const RangeMessage := "Maximum tokens must be between 500 and 4000"
  const SavedMessage := "Settings saved successfully! \U{2713}"

  /** `n < 500 || n > 4000`: both comparisons are false for `NaN`. */
  predicate OutOfRange(n: Num)
  {
    n.Int? && (n.value < 500 || n.value > 4000)
  }

  /** The guards of options.js:39-54, each ending the handler with its message. */
  function Validate(s: Collected): (r: Result<Collected, string>)
    ensures r.Ok? <==> s.openaiApiKey != "" && HasPrefix(s.openaiApiKey, "sk-") && !OutOfRange(s.maxTokens)
    ensures r.Ok? ==> r.value == s
    ensures r.Err? ==> r.error in {EnterKeyMessage, KeyPrefixMessage, RangeMessage}
  {
    if s.openaiApiKey == "" then Err(EnterKeyMessage)
    else if !HasPrefix(s.openaiApiKey, "sk-") then Err(KeyPrefixMessage)
    else if OutOfRange(s.maxTokens) then Err(RangeMessage)
    else Ok(s)
  }

  /** The checks run in order and the first that fails decides the message, whatever
      the later fields hold. */
  lemma FirstFailureDecides(s: Collected)
    ensures s.openaiApiKey == "" ==> Validate(s) == Err(EnterKeyMessage)
    ensures s.openaiApiKey != "" && !HasPrefix(s.openaiApiKey, "sk-") ==> Validate(s) == Err(KeyPrefixMessage)
    ensures HasPrefix(s.openaiApiKey, "sk-") && OutOfRange(s.maxTokens) ==> Validate(s) == Err(RangeMessage)
  {
  }

  /** A form value that `parseInt` cannot read passes the range check. */
  lemma UnparsedMaxTokensPasses(key: string, text: string, f1: bool, f2: bool, f3: bool)
    requires HasPrefix(key, "sk-")
    requires forall i | 0 <= i < |text| :: !('0' <= text[i] <= '9')
    ensures Validate(Collected(key, ParseInt(text), f1, f2, f3)).Ok?
  {
    ParseIntWithoutDigit(text);
  }

  /** The bounds are inclusive: 500 and 4000 pass, 499 and 4001 do not. */
  lemma RangeIsInclusive(key: string, f1: bool, f2: bool, f3: bool)
    requires HasPrefix(key, "sk-")
    ensures Validate(Collected(key, Int(500), f1, f2, f3)).Ok?
    ensures Validate(Collected(key, Int(4000), f1, f2, f3)).Ok?
    ensures Validate(Collected(key, Int(499), f1, f2, f3)) == Err(RangeMessage)
    ensures Validate(Collected(key, Int(4001), f1, f2, f3)) == Err(RangeMessage)
  {
  }

  // ---------------------------------------------------------------------------
  // The form and the store
  // ---------------------------------------------------------------------------

  /** The values of the five form controls. */
  datatype Form = Form(
    apiKey: string,
    maxTokens: string,
    includeFacts: bool,
    structuredFormat: bool,
    autoOpen: bool)

  /** `result.maxTokens || 2000`, as the text the number field shows. */
  function MaxTokensText(stored: Option<Num>): string
  {
    if stored.Some? && NumTruthy(stored.value) then IntToString(stored.value.value) else "2000"
  }

  /** options.js:19-26: the key only when one is stored, otherwise the field keeps what it
      had; `maxTokens` falls back to 2000; each flag is on unless stored as `false`. */
  function Loaded(st: SyncStore, before: Form): (f: Form)
    ensures st.openaiApiKey.Some? && st.openaiApiKey.value != "" ==> f.apiKey == st.openaiApiKey.value
    ensures st.openaiApiKey.None? || st.openaiApiKey.value == "" ==> f.apiKey == before.apiKey
    ensures f.includeFacts == On(st.includeFacts) && f.structuredFormat == On(st.structuredFormat)
    ensures f.autoOpen == On(st.autoOpen)
  {
    Form(StringOr(st.openaiApiKey, before.apiKey),
         MaxTokensText(st.maxTokens),
         On(st.includeFacts), On(st.structuredFormat), On(st.autoOpen))
  }

  /** The number field shows 2000 for every falsy stored value (none, 0 and `NaN`), and
      otherwise the stored number, which `parseInt` reads back unchanged. */
  lemma MaxTokensDefault(stored: Option<Num>)
    ensures ParseInt(MaxTokensText(stored)) ==
              if stored.Some? && NumTruthy(stored.value) then stored.value else Int(2000)
  {
    if stored.Some? && NumTruthy(stored.value) {
      ParseIntOfString(stored.value.value, "");
      assert IntToString(stored.value.value) + "" == IntToString(stored.value.value);
    } else {
      ParseIntOfString(2000, "");
      TwoThousand();
    }
  }

  lemma TwoThousand()
    ensures IntToString(2000) + "" == "2000"
  {
    assert NatToString(2) == "2";
    assert NatToString(20) == NatToString(2) + "0";
    assert NatToString(200) == NatToString(20) + "0";
    assert NatToString(2000) == NatToString(200) + "0";
  }

  /** options.js:31-37: the trimmed key, the parsed number and the three check boxes. */
  function Collect(f: Form): (s: Collected)
    ensures s.openaiApiKey == Trim(f.apiKey)
  {
    Collected(Trim(f.apiKey), ParseInt(f.maxTokens), f.includeFacts, f.structuredFormat, f.autoOpen)
  }

  /** `chrome.storage.sync.set(settings)` merges: the model and the language stay. */
  function Merge(st: SyncStore, s: Collected): (st': SyncStore)
    ensures st'.openaiModel == st.openaiModel && st'.translateTo == st.translateTo
  {
    st.(openaiApiKey := Some(s.openaiApiKey), maxTokens := Some(s.maxTokens),
        includeFacts := Some(s.includeFacts), structuredFormat := Some(s.structuredFormat),
        autoOpen := Some(s.autoOpen))
  }

  /** options.js:30-64: the store after a click on save, and the status line. */
  function Saved(st: SyncStore, f: Form): (SyncStore, string)
  {
    match Validate(Collect(f))
    case Ok(s) => (Merge(st, s), SavedMessage)
    case Err(m) => (st, m)
  }

  /** The store is written only when every check passes: a rejected form leaves it as
      it was, and the status line shows the first failure. */
  lemma SaveWritesOnlyValid(st: SyncStore, f: Form)
    ensures Saved(st, f).0 != st ==> Validate(Collect(f)).Ok?
    ensures Validate(Collect(f)).Err? ==> Saved(st, f) == (st, Validate(Collect(f)).error)
    ensures Validate(Collect(f)).Ok? ==> Saved(st, f).1 == SavedMessage
  {
  }

  /** A key that has been trimmed trims to itself. */
  lemma TrimOfTrimmed(s: string)
    requires s == [] || (!IsWhitespace(s[0]) && !IsWhitespace(s[|s| - 1]))
    ensures Trim(s) == s
  {
    assert LeadingSpace(s) == 0;
    assert s[0..] == s;
    assert TrailingSpace(s) == 0;
    assert s[..|s|] == s;
  }

  /** Save, then reload: the form shows what was saved, and the number field reads back
      as the saved number, or as 2000 when the saved value did not parse. */
  lemma SaveThenLoad(st: SyncStore, f: Form)
    requires Validate(Collect(f)).Ok?
    ensures var f1 := Loaded(Saved(st, f).0, f);
      var s := Collect(f);
      && f1.apiKey == s.openaiApiKey
      && (f1.includeFacts, f1.structuredFormat, f1.autoOpen) == (s.includeFacts, s.structuredFormat, s.autoOpen)
      && ParseInt(f1.maxTokens) == (if s.maxTokens.Int? then s.maxTokens else Int(2000))
  {
    var s := Collect(f);
    var st1 := Saved(st, f).0;
    assert st1 == Merge(st, s);
    MaxTokensDefault(st1.maxTokens);
  }

  /** Save, reload, save again: the second save changes nothing but a `maxTokens` that
      did not parse, which becomes 2000. */
  lemma SaveLoadSave(st: SyncStore, f: Form)
    requires Validate(Collect(f)).Ok?
    ensures var st1 := Saved(st, f).0;
      var f1 := Loaded(st1, f);
      Saved(st1, f1) == (st1.(maxTokens := Some(ParseInt(f1.maxTokens))), SavedMessage)
  {
    var s := Collect(f);
    var st1 := Saved(st, f).0;
    var f1 := Loaded(st1, f);
    SaveThenLoad(st, f);
    TrimSlice(f.apiKey);
    TrimOfTrimmed(s.openaiApiKey);
    assert Collect(f1) == s.(maxTokens := ParseInt(f1.maxTokens));
  }

  /** The options page: its form controls, its status line and the synced store. */
  class OptionsPage {
    var apiKeyInput: string
    var maxTokensInput: string
    var includeFactsCheckbox: bool
    var structuredFormatCheckbox: bool
    var autoOpenCheckbox: bool
    var status: string
    var store: SyncStore

    function CurrentForm(): Form
      reads this
    {
      Form(apiKeyInput, maxTokensInput, includeFactsCheckbox, structuredFormatCheckbox, autoOpenCheckbox)
    }

    /** A freshly opened page over the given store, before its settings are loaded. */
    constructor(st: SyncStore)
      ensures store == st && status == ""
      ensures CurrentForm() == Form("", "", false, false, false)
    {
      apiKeyInput, maxTokensInput := "", "";
      includeFactsCheckbox, structuredFormatCheckbox, autoOpenCheckbox := false, false, false;
      status := "";
      store := st;
    }

    /** options.js:12-27 */
    method LoadSettings()
      modifies this
      ensures CurrentForm() == Loaded(old(store), old(CurrentForm()))
      ensures store == old(store) && status == old(status)
    {
      if store.openaiApiKey.Some? && store.openaiApiKey.value != "" {
        apiKeyInput := store.openaiApiKey.value;
      }
      maxTokensInput := MaxTokensText(store.maxTokens);
      includeFactsCheckbox := store.includeFacts != Some(false);
      structuredFormatCheckbox := store.structuredFormat != Some(false);
      autoOpenCheckbox := store.autoOpen != Some(false);
    }

    /** options.js:30-64 */
    method SaveSettings()
      modifies this
      ensures (store, status) == Saved(old(store), old(CurrentForm()))
      ensures CurrentForm() == old(CurrentForm())
    {
      var settings := Collected(Trim(apiKeyInput), ParseInt(maxTokensInput),
                                includeFactsCheckbox, structuredFormatCheckbox, autoOpenCheckbox);
      if settings.openaiApiKey == "" {
        status := EnterKeyMessage;
        return;
      }
      if !HasPrefix(settings.openaiApiKey, "sk-") {
        status := KeyPrefixMessage;
        return;
      }
      if OutOfRange(settings.maxTokens) {
        status := RangeMessage;
        return;
      }
      store := Merge(store, settings);
      status := SavedMessage;
    }
  }
}
