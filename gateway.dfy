/**
 * The `translate-text` handler of the main process: validation in a fixed
 * order, script detection, the pair of language labels, the proxy URL,
 * the request sent to the completion endpoint and the reply returned to
 * the renderer. The completion call itself is foreign: its outcome is an
 * input, and a handler that makes no call returns no request.
 */
module Gateway {
  import opened Js
  import opened Schema

  /** How the completion call settled: the first choice's message content (possibly `null`), or a thrown error. */
  datatype ApiOutcome = Completion(content: Option<JsString>) | ApiFailure(message: JsString)

  /** What the handler sends to the completion endpoint. */
  datatype ApiRequest = ApiRequest(
    apiKey: JsString,
    proxyUrl: Option<JsString>,
    model: JsString,
    systemPrompt: JsString,
    userText: JsString,
    maxTokens: nat)

  /** The object the handler resolves with. */
  datatype Reply =
    | Translated(translatedText: Option<JsString>, sourceLanguage: JsString, targetLanguage: JsString)
    | Failed(error: JsString)

  /** The request made, if any, and the reply. */
  datatype Handled = Handled(request: Option<ApiRequest>, reply: Reply)

  const MaxTextLength: nat := 3000
  const MaxTokens: nat := 2000

  const Model: JsString := Literal("gpt-4o-mini")

  const NoApiKeyError: JsString := Literal("APIキーが設定されていません。設定画面でAPIキーを設定してください。")
  const TooLongError: JsString := Literal("翻訳できるテキストは3000文字までです。")
  const ApiErrorPrefix: JsString := Literal("翻訳エラー: ")

  // ---------------------------------------------------------------------
  // Script detection and language labels

  /** A code unit in one of the five ranges of the detection pattern. */
  predicate IsJapaneseUnit(u: CodeUnit) {
    || (0x3000 <= u <= 0x303F)
    || (0x3040 <= u <= 0x309F)
    || (0x30A0 <= u <= 0x30FF)
    || (0xFF00 <= u <= 0xFF9F)
    || (0x4E00 <= u <= 0x9FAF)
  }

  /** The detection pattern's `test`: some code unit of `text` lies in one of the ranges. */
  function ContainsJapanese(text: JsString): (r: bool)
    ensures r <==> exists i :: 0 <= i < |text| && IsJapaneseUnit(text[i])
  {
    if text == [] then false
    else if IsJapaneseUnit(text[0]) then true
    else
      var r := ContainsJapanese(text[1..]);
      assert forall i :: 1 <= i < |text| ==> text[i] == text[1..][i - 1];
      r
  }

  /** 日本語 */
  function JapaneseLabel(): (l: JsString)
    ensures |l| == 3
  {
    Literal("日本語")
  }

  /** 英語 */
  function EnglishLabel(): (l: JsString)
    ensures |l| == 2
  {
    Literal("英語")
  }

  /** The (source, target) labels for a detection result. */
  function Labels(japanese: bool): (labels: (JsString, JsString))
    ensures labels.0 != labels.1
    ensures japanese ==> labels == (JapaneseLabel(), EnglishLabel())
    ensures !japanese ==> labels == (EnglishLabel(), JapaneseLabel())
  {
    if japanese then (JapaneseLabel(), EnglishLabel()) else (EnglishLabel(), JapaneseLabel())
  }

  /** The system instruction, naming the target language twice. */
  function SystemPrompt(target: JsString): (prompt: JsString)
    ensures |prompt| > |PromptHead()| + |target|
    ensures prompt[|PromptHead()|..|PromptHead()| + |target|] == target
  {
    var prompt := PromptHead() + target + Literal("に翻訳してください。\n      - 元の文脈や意味を保ちながら、自然な")
      + target + Literal("に翻訳してください。\n      - 専門用語や固有名詞は適切に処理してください。\n      - 翻訳結果のみを返してください。説明は不要です。");
    assert prompt[|PromptHead()|..|PromptHead()| + |target|] == target;
    prompt
  }

  function PromptHead(): JsString {
    Literal("あなたは高性能な翻訳AIです。与えられたテキストを")
  }

  // ---------------------------------------------------------------------
  // Proxy URL

  const Colon: CodeUnit := 0x3A
  const At: CodeUnit := 0x40

  function HttpScheme(): (s: JsString)
    ensures |s| == 7
  {
    Literal("http://")
  }

  /** The proxy URL: built only when the proxy is enabled and has a host; credentials go in as they are. */
  function ProxyUrl(config: ProxyConfig): (url: Option<JsString>)
    ensures url.Some? <==> config.enabled && config.host != []
    ensures url.Some? ==>
      url.value == HttpScheme() + config.username + [Colon] + config.password + [At] + config.host + [Colon] + Decimal(config.port)
  {
    if config.enabled && config.host != [] then
      Some(HttpScheme() + config.username + [Colon] + config.password + [At] + config.host + [Colon] + Decimal(config.port))
    else None
  }

  /** Empty credentials are not left out: the authority keeps a bare `:@`, and the port reads back from the tail. */
  lemma ProxyUrlWithoutCredentials(config: ProxyConfig)
    requires config.enabled && config.host != []
    requires config.username == [] && config.password == []
    ensures var url := ProxyUrl(config).value; var n := |Decimal(config.port)|;
      && url[..9] == HttpScheme() + [Colon, At]
      && url[9..|url| - n - 1] == config.host
      && ParseInt(url[|url| - n..]) == Some(config.port)
  {
    var head := HttpScheme() + [] + [Colon] + [] + [At];
    var port := Decimal(config.port);
    var url := ProxyUrl(config).value;
    assert url == head + config.host + ([Colon] + port);
    Slices(head, config.host, [Colon] + port);
    assert head == HttpScheme() + [Colon, At];
    Slices([Colon], port, []);
    assert url[|url| - |port|..] == port;
    ParseIntDecimal(config.port);
  }

  /** The three parts of a concatenation can be sliced back out of it. */
  lemma Slices(a: JsString, b: JsString, c: JsString)
    ensures var u := a + b + c;
      && u[..|a|] == a
      && u[|a|..|u| - |c|] == b
      && u[|u| - |c|..] == c
  {
  }

  // ---------------------------------------------------------------------
  // The handler

  /**
   * The `translate-text` handler, given the decrypted key and the stored
   * proxy settings: key check, then length check, then the call.
   */
  function TranslateText(apiKey: JsString, proxy: ProxyConfig, text: JsString, api: ApiOutcome): (h: Handled)
    ensures h.request.None? <==> apiKey == [] || |text| > MaxTextLength
    ensures apiKey == [] ==> h.reply == Failed(NoApiKeyError)
    ensures apiKey != [] && |text| > MaxTextLength ==> h.reply == Failed(TooLongError)
    ensures h.request.Some? ==>
      && h.request.value.apiKey == apiKey
      && h.request.value.userText == text
      && h.request.value.proxyUrl == ProxyUrl(proxy)
      && h.request.value.model == Model
      && h.request.value.maxTokens == MaxTokens
    ensures h.reply.Failed? ==> h.reply.error != []
  {
    if apiKey == [] then Handled(None, Failed(NoApiKeyError))
    else if |text| > MaxTextLength then Handled(None, Failed(TooLongError))
    else
      var japanese := ContainsJapanese(text);
      var (source, target) := Labels(japanese);
      var request := ApiRequest(apiKey, ProxyUrl(proxy), Model, SystemPrompt(target), text, MaxTokens);
      match api
      case Completion(content) => Handled(Some(request), Translated(content, source, target))
      case ApiFailure(message) => Handled(Some(request), Failed(ApiErrorPrefix + message))
  }

  /** A rejected request makes no call: its result is the same whatever the endpoint would have done. */
  lemma RejectionMakesNoCall(apiKey: JsString, proxy: ProxyConfig, text: JsString, a1: ApiOutcome, a2: ApiOutcome)
    requires apiKey == [] || |text| > MaxTextLength
    ensures TranslateText(apiKey, proxy, text, a1) == TranslateText(apiKey, proxy, text, a2)
  {
  }

  /** Text of exactly the limit passes the length check; one code unit more does not. */
  lemma LengthLimitIsInclusive(apiKey: JsString, proxy: ProxyConfig, text: JsString, api: ApiOutcome)
    requires apiKey != []
    ensures |text| == MaxTextLength ==> TranslateText(apiKey, proxy, text, api).request.Some?
    ensures |text| == MaxTextLength + 1 ==> TranslateText(apiKey, proxy, text, api) == Handled(None, Failed(TooLongError))
  {
  }

  /**
   * The labels of a successful reply are complementary and follow the
   * detection, and the prompt asks for the language the reply reports
   * as its target.
   */
  lemma LabelsFollowDetection(apiKey: JsString, proxy: ProxyConfig, text: JsString, api: ApiOutcome)
    requires apiKey != [] && |text| <= MaxTextLength
    ensures var h := TranslateText(apiKey, proxy, text, api);
      && h.request.Some?
      && (api.Completion? ==> && h.reply.Translated?
                              && h.reply.sourceLanguage != h.reply.targetLanguage
                              && h.request.value.systemPrompt == SystemPrompt(h.reply.targetLanguage)
                              && h.reply.translatedText == api.content)
      && (api.Completion? && ContainsJapanese(text) ==>
            h.reply.sourceLanguage == JapaneseLabel() && h.reply.targetLanguage == EnglishLabel())
      && (api.Completion? && !ContainsJapanese(text) ==>
            h.reply.sourceLanguage == EnglishLabel() && h.reply.targetLanguage == JapaneseLabel())
      && (api.ApiFailure? ==> h.reply == Failed(ApiErrorPrefix + api.message))
  {
  }

  /** Empty text is not rejected by the handler: it is sent to the endpoint like any other. */
  lemma EmptyTextIsSent(apiKey: JsString, proxy: ProxyConfig, api: ApiOutcome)
    requires apiKey != []
    ensures TranslateText(apiKey, proxy, [], api).request.Some?
    ensures TranslateText(apiKey, proxy, [], api).request.value.systemPrompt == SystemPrompt(JapaneseLabel())
  {
  }

  /** Text made only of code units below U+3000 (all of ASCII, for one) is detected as English. */
  lemma {:induction false} BelowIdeographicIsEnglish(text: JsString)
    requires forall i :: 0 <= i < |text| ==> text[i] < 0x3000
    ensures !ContainsJapanese(text)
  {
  }

  /** "Hello, world." when the endpoint answers こんにちは、世界。 */
  lemma HelloWorldExample(apiKey: JsString, proxy: ProxyConfig)
    requires apiKey != []
    ensures var answer := Literal("こんにちは、世界。");
      TranslateText(apiKey, proxy, Literal("Hello, world."), Completion(Some(answer))).reply
        == Translated(Some(answer), EnglishLabel(), JapaneseLabel())
  {
    BelowIdeographicIsEnglish(Literal("Hello, world."));
  }
}
