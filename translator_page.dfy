/**
 * The translator page: its state, the guards on translate, clear and
 * copy, pasting, the double Ctrl+C shortcut and the translate button's
 * enable rule. Every awaited call's outcome is a parameter; the calls the
 * page makes to the outside world are recorded in `calls`, oldest first.
 */
module TranslatorPage {
  import opened Js
  import Gateway
  import Schema

  /** The object `translateText` resolves with, as the renderer declares it: every field optional. */
  datatype TranslateResponse = TranslateResponse(
    translatedText: Option<JsString>,
    sourceLanguage: Option<JsString>,
    targetLanguage: Option<JsString>,
    error: Option<JsString>)

  /** A call the page makes outside itself. */
  datatype Call =
    | OpenSettings
    | TranslateCall(text: JsString)
    | CopyCall(text: JsString)
    | ReadClipboard

  const EmptyTextError: JsString := Literal("翻訳するテキストを入力してください。")
  const ApiKeyNotSetError: JsString := Literal("APIキーが設定されていません。設定画面で設定してください。")
  const TranslateExceptionPrefix: JsString := Literal("翻訳中にエラーが発生しました: ")

  /** The key the shortcut listens for, and the window in milliseconds within which a second press pastes. */
  const CopyKey: JsString := [0x63]
  const CopyThreshold: int := 500

  /** A string field used as a condition: truthy when present and not `''`. */
  predicate Truthy(o: Option<JsString>) {
    o.Some? && o.value != []
  }

  /** The main process's reply as the page receives it. */
  function Received(r: Gateway.Reply): (response: TranslateResponse)
    ensures r.Failed? <==> response.error.Some?
    ensures r.Failed? ==> response.error.value == r.error
    ensures r.Translated? ==>
      && response.translatedText == r.translatedText
      && response.sourceLanguage == Some(r.sourceLanguage)
      && response.targetLanguage == Some(r.targetLanguage)
  {
    match r
    case Translated(text, source, target) => TranslateResponse(text, Some(source), Some(target), None)
    case Failed(e) => TranslateResponse(None, None, None, Some(e))
  }

  /** Every failure the gateway reports reaches the page as an error it shows, and only failures do. */
  lemma GatewayFailuresAreShown(apiKey: JsString, proxy: Schema.ProxyConfig, text: JsString, api: Gateway.ApiOutcome)
    ensures var r := Gateway.TranslateText(apiKey, proxy, text, api).reply;
      Truthy(Received(r).error) <==> r.Failed?
  {
  }

  class Page {
    var sourceText: JsString
    var translatedText: JsString
    var sourceLanguage: JsString
    var targetLanguage: JsString
    var isTranslating: bool
    var error: Option<JsString>
    var showCopyIndicator: bool
    var isApiKeySet: bool
    /** The time of the last Ctrl+C, kept by the shortcut listener between key presses. */
    var lastCopyTime: int
    ghost var calls: seq<Call>

    constructor ()
      ensures sourceText == [] && translatedText == [] && sourceLanguage == [] && targetLanguage == []
      ensures !isTranslating && error == None && !showCopyIndicator && !isApiKeySet
      ensures lastCopyTime == 0 && calls == []
    {
      sourceText, translatedText, sourceLanguage, targetLanguage := [], [], [], [];
      isTranslating, error, showCopyIndicator, isApiKeySet := false, None, false, false;
      lastCopyTime := 0;
      calls := [];
    }

    /** Whether the translate button is enabled. */
    function TranslateEnabled(): (enabled: bool)
      reads this
      ensures enabled <==> !isTranslating && !IsBlank(sourceText)
    {
      !(isTranslating || Trim(sourceText) == [])
    }

    /** The check on mount: remember whether a key is set, and open the settings when none is. */
    method CheckApiKey(fetched: Settled<JsString>)
      modifies this`isApiKeySet, this`calls
      ensures fetched.Fulfilled? ==>
        && isApiKeySet == (fetched.value != [])
        && calls == old(calls) + (if fetched.value == [] then [OpenSettings] else [])
      ensures fetched.Rejected? ==> isApiKeySet == old(isApiKeySet) && calls == old(calls)
    {
      if fetched.Fulfilled? {
        isApiKeySet := fetched.value != [];
        if fetched.value == [] {
          calls := calls + [OpenSettings];
        }
      }
    }

    /** Typing in the source area. */
    method EditSource(text: JsString)
      modifies this`sourceText
      ensures sourceText == text
    {
      sourceText := text;
    }

    /**
     * The part of `handleTranslate` before its `await`: the two guards,
     * then the busy flag and the call.
     */
    method StartTranslate() returns (proceed: bool)
      modifies this`error, this`isTranslating, this`calls
      ensures proceed <==> !IsBlank(sourceText) && isApiKeySet
      ensures IsBlank(sourceText) ==>
        error == Some(EmptyTextError) && isTranslating == old(isTranslating) && calls == old(calls)
      ensures !IsBlank(sourceText) && !isApiKeySet ==>
        error == Some(ApiKeyNotSetError) && isTranslating == old(isTranslating) && calls == old(calls) + [OpenSettings]
      ensures proceed ==>
        isTranslating && error == None && calls == old(calls) + [TranslateCall(sourceText)]
    {
      var blank := Trim(sourceText) == [];
      if blank {
        error := Some(EmptyTextError);
        return false;
      }
      if !isApiKeySet {
        error := Some(ApiKeyNotSetError);
        calls := calls + [OpenSettings];
        return false;
      }
      isTranslating := true;
      error := None;
      calls := calls + [TranslateCall(sourceText)];
      proceed := true;
    }

    /**
     * The part of `handleTranslate` after its `await`: an error reply or a
     * rejection sets `error` and leaves the result alone; otherwise the
     * result replaces the old one field by field. The busy flag is cleared
     * whatever happened.
     */
    method FinishTranslate(response: Settled<TranslateResponse>)
      modifies this`error, this`isTranslating, this`translatedText, this`sourceLanguage, this`targetLanguage
      ensures !isTranslating
      ensures response.Fulfilled? && Truthy(response.value.error) ==>
        && error == response.value.error
        && translatedText == old(translatedText)
        && sourceLanguage == old(sourceLanguage)
        && targetLanguage == old(targetLanguage)
      ensures response.Fulfilled? && !Truthy(response.value.error) ==>
        && error == old(error)
        && translatedText == OrEmpty(response.value.translatedText)
        && sourceLanguage == OrEmpty(response.value.sourceLanguage)
        && targetLanguage == OrEmpty(response.value.targetLanguage)
      ensures response.Rejected? ==>
        && error == Some(TranslateExceptionPrefix + response.reason)
        && translatedText == old(translatedText)
        && sourceLanguage == old(sourceLanguage)
        && targetLanguage == old(targetLanguage)
    {
      match response {
        case Fulfilled(result) =>
          if Truthy(result.error) {
            error := result.error;
          } else {
            translatedText := OrEmpty(result.translatedText);
            sourceLanguage := OrEmpty(result.sourceLanguage);
            targetLanguage := OrEmpty(result.targetLanguage);
          }
        case Rejected(reason) =>
          error := Some(TranslateExceptionPrefix + reason);
      }
      isTranslating := false;
    }

    /** `handleTranslate` from click to `finally`. */
    method HandleTranslate(response: Settled<TranslateResponse>) returns (called: bool)
      modifies this`error, this`isTranslating, this`translatedText, this`sourceLanguage, this`targetLanguage, this`calls
      ensures called <==> !IsBlank(sourceText) && old(isApiKeySet)
      ensures !called ==>
        && isTranslating == old(isTranslating)
        && translatedText == old(translatedText)
        && sourceLanguage == old(sourceLanguage)
        && targetLanguage == old(targetLanguage)
        && error == Some(if IsBlank(sourceText) then EmptyTextError else ApiKeyNotSetError)
        && calls == old(calls) + (if IsBlank(sourceText) then [] else [OpenSettings])
      ensures called ==>
        && !isTranslating
        && calls == old(calls) + [TranslateCall(sourceText)]
      ensures called && response.Fulfilled? && !Truthy(response.value.error) ==>
        && error == None
        && translatedText == OrEmpty(response.value.translatedText)
        && sourceLanguage == OrEmpty(response.value.sourceLanguage)
        && targetLanguage == OrEmpty(response.value.targetLanguage)
      ensures called && response.Fulfilled? && Truthy(response.value.error) ==>
        && error == response.value.error
        && translatedText == old(translatedText)
        && sourceLanguage == old(sourceLanguage)
        && targetLanguage == old(targetLanguage)
      ensures called && response.Rejected? ==>
        && error == Some(TranslateExceptionPrefix + response.reason)
        && translatedText == old(translatedText)
        && sourceLanguage == old(sourceLanguage)
        && targetLanguage == old(targetLanguage)
    {
      called := StartTranslate();
      if called {
        FinishTranslate(response);
      }
    }

    /** `handleClear`: both texts and the error go; the language labels stay. */
    method HandleClear()
      modifies this`sourceText, this`translatedText, this`error
      ensures sourceText == [] && translatedText == [] && error == None
    {
      sourceText := [];
      translatedText := [];
      error := None;
    }

    /** `handleCopy`: nothing at all without a result; otherwise a copy call, and the indicator once it succeeds. */
    method HandleCopy(written: Completion)
      modifies this`showCopyIndicator, this`calls
      ensures translatedText == [] ==> showCopyIndicator == old(showCopyIndicator) && calls == old(calls)
      ensures translatedText != [] ==>
        && calls == old(calls) + [CopyCall(translatedText)]
        && showCopyIndicator == (written.Done? || old(showCopyIndicator))
    {
      if translatedText == [] {
        return;
      }
      calls := calls + [CopyCall(translatedText)];
      if written.Done? {
        showCopyIndicator := true;
      }
    }

    /** `handlePaste`: read the clipboard, and take its text only when there is some. */
    method HandlePaste(clipboard: Settled<JsString>)
      modifies this`sourceText, this`calls
      ensures calls == old(calls) + [ReadClipboard]
      ensures sourceText == if clipboard.Fulfilled? && clipboard.value != [] then clipboard.value else old(sourceText)
    {
      calls := calls + [ReadClipboard];
      if clipboard.Fulfilled? && clipboard.value != [] {
        sourceText := clipboard.value;
      }
    }

    /**
     * The keydown listener: a Ctrl+C (or Cmd+C) within the threshold of
     * the previous one is taken over and pastes; every Ctrl+C restarts the
     * window. The result says whether the default action was prevented.
     */
    method OnKeyDown(ctrlKey: bool, metaKey: bool, key: JsString, now: int, clipboard: Settled<JsString>)
      returns (prevented: bool)
      modifies this`lastCopyTime, this`sourceText, this`calls
      ensures var shortcut := (ctrlKey || metaKey) && key == CopyKey;
        && (prevented <==> shortcut && now - old(lastCopyTime) < CopyThreshold)
        && lastCopyTime == (if shortcut then now else old(lastCopyTime))
      ensures calls == old(calls) + (if prevented then [ReadClipboard] else [])
      ensures sourceText ==
        if prevented && clipboard.Fulfilled? && clipboard.value != [] then clipboard.value else old(sourceText)
    {
      prevented := false;
      if (ctrlKey || metaKey) && key == CopyKey {
        if now - lastCopyTime < CopyThreshold {
          prevented := true;
          HandlePaste(clipboard);
        }
        lastCopyTime := now;
      }
    }
  }

  /** Two Ctrl+C presses less than the threshold apart paste; the first of them never does on a fresh listener after the threshold. */
  method DoublePress(page: Page, t: int, gap: int, clipboard: Settled<JsString>) returns (first: bool, second: bool)
    requires page.lastCopyTime == 0 && t >= CopyThreshold
    modifies page`lastCopyTime, page`sourceText, page`calls
    ensures !first
    ensures second <==> gap < CopyThreshold
    ensures page.lastCopyTime == t + gap
  {
    first := page.OnKeyDown(true, false, CopyKey, t, clipboard);
    second := page.OnKeyDown(true, false, CopyKey, t + gap, clipboard);
  }
}
