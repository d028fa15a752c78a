/** The request popup.js sends to the chat completions API (popup.js:151-260): the system
    prompt assembled block by block from the settings, the language-name lookup, and
    the fixed request parameters. */
module Prompt {
  import opened Wrappers
  import opened JsText
  import opened Settings

  // ---------------------------------------------------------------------------
  // The texts of the prompt (popup.js:153-200, 230, 248-254)
  // ---------------------------------------------------------------------------

  const BaseText :=
    "You are an expert content analyst tasked with creating COMPREHENSIVE and COMPLETE summaries of web page content. Your goal is to ensure NO important information is missed or omitted.\n" +
    "\n" +
    "CRITICAL REQUIREMENTS:\n" +
    "1. READ EVERY PARAGRAPH thoroughly - each paragraph likely contains unique valuable information\n" +
    "2. REPRESENT EVERY MAJOR SECTION of the content in your summary\n" +
    "3. DO NOT SKIP any important facts, examples, statistics, quotes, names, dates, or key details\n" +
    "4. PRESERVE the logical flow and structure of the original content\n" +
    "5. If the content has multiple topics/sections, ensure ALL are covered proportionally\n" +
    "\n" +
    "SUMMARY APPROACH:\n" +
    "- Start with the main topic/purpose of the content\n" +
    "- Cover each major section or argument presented\n" +
    "- Include supporting evidence, examples, and data points\n" +
    "- Mention key people, organizations, dates, and numbers\n" +
    "- Capture conclusions, recommendations, or outcomes\n" +
    "- Maintain the author's intent and emphasis"

  const DetailText :=
    "\n" +
    "\n" +
    "DETAIL LEVEL: MAXIMUM\n" +
    "- Include ALL specific facts, statistics, percentages, amounts, dates\n" +
    "- Preserve ALL examples, case studies, and illustrations\n" +
    "- Capture ALL quotes and attributions\n" +
    "- List ALL key people, organizations, products mentioned\n" +
    "- Include ALL actionable items, recommendations, or conclusions"

  const FormattingText :=
    "\n" +
    "\n" +
    "FORMATTING REQUIREMENTS:\n" +
    "- Use clear headers (##, ###) to organize different sections\n" +
    "- Use bullet points for lists of items or key points\n" +
    "- Use numbered lists for sequential steps or processes\n" +
    "- Use **bold** for emphasis on critical information\n" +
    "- Maintain logical hierarchy and flow"

  const QualityText :=
    "\n" +
    "\n" +
    "QUALITY CHECK: Before finalizing, verify that:\n" +
    "\U{2713} Every major paragraph/section from the original is represented\n" +
    "\U{2713} No important facts or details were omitted\n" +
    "\U{2713} The summary captures the full scope and depth of the content\n" +
    "\U{2713} Someone reading only your summary would understand the complete picture\n" +
    "\n" +
    "Remember: It's better to include too much information than to miss something important. Comprehensive coverage is more valuable than brevity."

  const UserIntro :=
    "Please create a COMPREHENSIVE summary of the following web page content. \n" +
    "\n" +
    "IMPORTANT: Ensure you cover EVERY major section and paragraph. Do not skip any important information, facts, examples, or details. Each significant part of the content should be represented in your summary.\n" +
    "\n" +
    "Web page content to summarize:\n" +
    "\n"

  /** The sentence popup.js:230 appends when a language is chosen. */
  function TranslationText(name: string): string
  {
    " IMPORTANT: Write the entire summary in " + name + ". Translate all content to " + name +
    " while maintaining the original meaning and structure."
  }

  /** The fixed texts of the prompt, gathered so that the assembly can be reasoned about
      without their contents. */
  datatype Texts = Texts(base: string, detail: string, formatting: string, quality: string,
                         userIntro: string)

  const PopupTexts := Texts(BaseText, DetailText, FormattingText, QualityText, UserIntro)

  // ---------------------------------------------------------------------------
  // Language names (popup.js:204-229)
  // ---------------------------------------------------------------------------

  const LanguageNames: map<string, string> := map[
    "en" := "English", "es" := "Spanish", "fr" := "French", "de" := "German",
    "it" := "Italian", "pt" := "Portuguese", "ru" := "Russian", "uk" := "Ukrainian",
    "ja" := "Japanese", "ko" := "Korean", "zh" := "Chinese", "ar" := "Arabic",
    "hi" := "Hindi", "nl" := "Dutch", "sv" := "Swedish", "da" := "Danish",
    "no" := "Norwegian", "fi" := "Finnish", "pl" := "Polish", "tr" := "Turkish",
    "th" := "Thai", "vi" := "Vietnamese"]

  /** `languageNames[code] || code`: a code in the table names its language, any other
      code is used as it is. */
  function LanguageName(code: string): (name: string)
    ensures code in LanguageNames ==> name == LanguageNames[code]
    ensures code !in LanguageNames ==> name == code
  {
    if code in LanguageNames then LanguageNames[code] else code
  }

  /** The table is case-sensitive: `es` names Spanish,
      while `ES` and `xx` are passed through. */
  lemma LanguageNameExamples()
    ensures LanguageName("es") == "Spanish" && LanguageName("uk") == "Ukrainian"
    ensures LanguageName("ES") == "ES" && LanguageName("xx") == "xx"
  {
    assert "ES" !in LanguageNames && "xx" !in LanguageNames;
  }

  // ---------------------------------------------------------------------------
  // The system prompt
  // ---------------------------------------------------------------------------

  /** The blocks the system prompt is made of, in the order popup.js appends them. */
  datatype Block = Base | Detail | Formatting | Quality | Translation(language: string)

  function Rank(b: Block): nat
  {
    match b
    case Base => 0
    case Detail => 1
    case Formatting => 2
    case Quality => 3
    case Translation(_) => 4
  }

  function BlockText(texts: Texts, b: Block): string
  {
    match b
    case Base => texts.base
    case Detail => texts.detail
    case Formatting => texts.formatting
    case Quality => texts.quality
    case Translation(name) => TranslationText(name)
  }

  /** `settings.translateTo` is truthy. */
  predicate Translates(st: SyncStore)
  {
    st.translateTo.Some? && st.translateTo.value != ""
  }

  /** A block that is there only when `present` holds. */
  function Opt(present: bool, b: Block): seq<Block>
  {
    if present then [b] else []
  }

  /** The translation block, when a language is set. */
  function TranslationBlock(st: SyncStore): seq<Block>
  {
    if Translates(st) then [Translation(LanguageName(st.translateTo.value))] else []
  }

  /** popup.js:153-231, block by block. */
  function PromptBlocks(st: SyncStore): seq<Block>
  {
    [Base] + Opt(On(st.includeFacts), Detail) + Opt(On(st.structuredFormat), Formatting)
    + [Quality] + TranslationBlock(st)
  }

  /** The prompt opens with the base text and holds the quality check; the detail block
      is there exactly when `includeFacts` is not `false`, the formatting block exactly
      when `structuredFormat` is not `false`, and the translation sentence exactly when a
      language is set, as the last block. The blocks keep their fixed order. */
  lemma PromptBlocksShape(st: SyncStore)
    ensures var bs := PromptBlocks(st);
      && |bs| >= 2 && bs[0] == Base && Quality in bs
      && (Detail in bs <==> On(st.includeFacts))
      && (Formatting in bs <==> On(st.structuredFormat))
      && (bs[|bs| - 1].Translation? <==> Translates(st))
      && (Translates(st) ==> bs[|bs| - 1] == Translation(LanguageName(st.translateTo.value)))
      && (!Translates(st) ==> bs[|bs| - 1] == Quality)
      && (forall i, j | 0 <= i < j < |bs| :: Rank(bs[i]) < Rank(bs[j]))
  {
    var tail := TranslationBlock(st);
    var bs := PromptBlocks(st);
    match (On(st.includeFacts), On(st.structuredFormat))
    case (true, true) => assert bs == [Base, Detail, Formatting, Quality] + tail;
    case (true, false) => assert bs == [Base, Detail, Quality] + tail;
    case (false, true) => assert bs == [Base, Formatting, Quality] + tail;
    case (false, false) => assert bs == [Base, Quality] + tail;
  }

  /** The text of a sequence of blocks, one after the other. */
  function Render(texts: Texts, bs: seq<Block>): string
    decreases |bs|
  {
    if bs == [] then "" else BlockText(texts, bs[0]) + Render(texts, bs[1..])
  }

  lemma {:induction false} RenderAppend(texts: Texts, a: seq<Block>, b: seq<Block>)
    ensures Render(texts, a + b) == Render(texts, a) + Render(texts, b)
    decreases |a|
  {
    if a == [] {
      assert a + b == b;
    } else {
      assert (a + b)[0] == a[0];
      assert (a + b)[1..] == a[1..] + b;
      RenderAppend(texts, a[1..], b);
      Associative(BlockText(texts, a[0]), Render(texts, a[1..]), Render(texts, b));
    }
  }

  lemma RenderOne(texts: Texts, bs: seq<Block>, b: Block)
    ensures Render(texts, bs + [b]) == Render(texts, bs) + BlockText(texts, b)
  {
    RenderAppend(texts, bs, [b]);
    RenderSingle(texts, b);
  }

  lemma RenderSingle(texts: Texts, b: Block)
    ensures Render(texts, [b]) == BlockText(texts, b)
  {
    assert [b][1..] == [];
    assert BlockText(texts, b) + "" == BlockText(texts, b);
  }

  /** popup.js:153-231: `systemPrompt` built with `+=`, one block at a time; popup.js
      passes `PopupTexts`. */
  method BuildSystemPrompt(texts: Texts, st: SyncStore) returns (prompt: string)
    ensures prompt == Render(texts, PromptBlocks(st))
  {
    ghost var blocks := [Base];
    prompt := texts.base;
    assert prompt == Render(texts, blocks);
    if st.includeFacts != Some(false) {
      RenderOne(texts, blocks, Detail);
      blocks, prompt := blocks + [Detail], prompt + texts.detail;
    }
    assert blocks == [Base] + Opt(On(st.includeFacts), Detail);
    if st.structuredFormat != Some(false) {
      RenderOne(texts, blocks, Formatting);
      blocks, prompt := blocks + [Formatting], prompt + texts.formatting;
    }
    assert blocks == [Base] + Opt(On(st.includeFacts), Detail) + Opt(On(st.structuredFormat), Formatting);
    RenderOne(texts, blocks, Quality);
    blocks, prompt := blocks + [Quality], prompt + texts.quality;
    ghost var stem := blocks;
    if st.translateTo.Some? && st.translateTo.value != "" {
      var languageName := LanguageName(st.translateTo.value);
      RenderOne(texts, blocks, Translation(languageName));
      blocks, prompt := blocks + [Translation(languageName)], prompt + TranslationText(languageName);
    }
    assert blocks == stem + TranslationBlock(st);
  }

  predicate HasSuffix(s: string, p: string)
  {
    |p| <= |s| && s[|s| - |p|..] == p
  }

  /** The prompt always opens with the base text, and it ends with the translation
      sentence when a language is set and with the quality check otherwise. */
  lemma SystemPromptEnds(texts: Texts, st: SyncStore)
    ensures HasPrefix(Render(texts, PromptBlocks(st)), texts.base)
    ensures Translates(st) ==>
              HasSuffix(Render(texts, PromptBlocks(st)), TranslationText(LanguageName(st.translateTo.value)))
    ensures !Translates(st) ==> HasSuffix(Render(texts, PromptBlocks(st)), texts.quality)
  {
    var bs := PromptBlocks(st);
    PromptBlocksShape(st);
    var n := |bs|;
    RenderOne(texts, bs[..n - 1], bs[n - 1]);
    assert bs[..n - 1] + [bs[n - 1]] == bs;
    var p := Render(texts, bs);
    var last := BlockText(texts, bs[n - 1]);
    assert p[|p| - |last|..] == last;
    assert p == texts.base + Render(texts, bs[1..]);
  }

  // ---------------------------------------------------------------------------
  // The request
  // ---------------------------------------------------------------------------

  datatype Message = Message(role: string, content: string)

  datatype Request = Request(
    url: string,
    authorization: string,
    model: string,
    messages: seq<Message>,
    maxTokens: nat,
    temperature: real)

  const ApiUrl := "https://api.openai.com/v1/chat/completions"
  const DefaultModel := "gpt-4o-mini"
  const ResponseTokens := 1500

  /** popup.js:233-260: the model falls back to `gpt-4o-mini`, at most 1500 tokens are
      asked for at temperature 0.7, the key goes into the bearer header, and the page
      content ends the user message. */
  function SummaryRequest(texts: Texts, apiKey: string, st: SyncStore, content: string): (r: Request)
    ensures r.model == (if st.openaiModel.Some? && st.openaiModel.value != "" then st.openaiModel.value
                        else DefaultModel)
    ensures r.maxTokens == 1500 && r.temperature == 0.7
    ensures r.authorization == "Bearer " + apiKey
    ensures |r.messages| == 2 && r.messages[0] == Message("system", Render(texts, PromptBlocks(st)))
    ensures r.messages[1] == Message("user", texts.userIntro + content)
    ensures HasSuffix(r.messages[1].content, content)
  {
    var user := texts.userIntro + content;
    AppendHasSuffix(texts.userIntro, content);
    Request(ApiUrl, "Bearer " + apiKey, StringOr(st.openaiModel, DefaultModel),
            [Message("system", Render(texts, PromptBlocks(st))), Message("user", user)],
            ResponseTokens, 0.7)
  }

  lemma AppendHasSuffix(a: string, b: string)
    ensures HasSuffix(a + b, b)
  {
    assert (a + b)[|a + b| - |b|..] == b;
  }

  /** The `maxTokens` setting of the options page plays no part in the request: two
      stores that differ only there give the same request. */
  lemma RequestIgnoresMaxTokens(texts: Texts, apiKey: string, st: SyncStore, content: string, n: Option<Num>)
    ensures SummaryRequest(texts, apiKey, st.(maxTokens := n), content) == SummaryRequest(texts, apiKey, st, content)
  {
    assert PromptBlocks(st.(maxTokens := n)) == PromptBlocks(st);
  }
}
