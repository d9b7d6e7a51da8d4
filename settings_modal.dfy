/**
 * The settings form: loading the saved values with their fallbacks, the
 * port text and its parsing back, and the flags `handleSave` moves
 * through. Awaited outcomes are parameters; the calls the form makes are
 * recorded in `calls`, oldest first.
 */
module SettingsModal {
  import opened Js
  import opened Schema

  /** The proxy settings as the form reads them back: it guards every field but `enabled`. */
  datatype LoadedProxy = LoadedProxy(
    enabled: bool,
    host: Option<JsString>,
    port: Option<int>,
    username: Option<JsString>,
    password: Option<JsString>)

  /** A call the form makes outside itself. */
  datatype Call =
    | SaveApiKeyCall(apiKey: JsString)
    | SaveProxyConfigCall(config: ProxyConfig)
    | ThemeChangeCall(theme: Theme)
    | CloseAfterDelay
    | Close

  const SaveErrorPrefix: JsString := Literal("設定の保存に失敗しました: ")

  /** The port field's initial and fallback text, '8080'. */
  function DefaultPortText(): (text: JsString)
    ensures text == Decimal(DefaultPort)
  {
    var text := Literal("8080");
    assert Decimal(DefaultPort) == Digits(808) + [Zero];
    assert Digits(808) == Digits(80) + [Zero + 8];
    text
  }

  /** The port field after loading: the stored number as text, or '8080' when there is none. */
  function PortText(port: Option<int>): (text: JsString)
    ensures text != []
    ensures port.None? ==> text == DefaultPortText()
    ensures port.Some? ==> ParseInt(text) == Some(port.value)
  {
    match port
    case None => DefaultPortText()
    case Some(p) => ParseIntDecimal(p); Decimal(p)
  }

  /** The port the form saves: the parsed field, or 8080 when parsing gives `NaN` or 0. */
  function SavedPort(text: JsString): (port: int)
    ensures port != 0
    ensures ParseInt(text).Some? && ParseInt(text).value != 0 ==> port == ParseInt(text).value
    ensures ParseInt(text).None? || ParseInt(text) == Some(0) ==> port == DefaultPort
  {
    match ParseInt(text)
    case Some(n) => if n != 0 then n else DefaultPort
    case None => DefaultPort
  }

  /** A stored port survives being loaded into the form and saved again, except 0, which becomes 8080. */
  lemma PortSurvivesReload(port: Option<int>)
    ensures SavedPort(PortText(port)) == match port case Some(p) => (if p != 0 then p else DefaultPort) case None => DefaultPort
  {
    if port.None? {
      ParseIntDecimal(DefaultPort);
    }
  }

  class Form {
    var apiKey: JsString
    var proxyEnabled: bool
    var proxyHost: JsString
    var proxyPort: JsString
    var proxyUsername: JsString
    var proxyPassword: JsString
    var isSaving: bool
    var saveError: Option<JsString>
    var saveSuccess: bool
    ghost var calls: seq<Call>

    constructor ()
      ensures apiKey == [] && !proxyEnabled && proxyHost == [] && proxyPort == DefaultPortText()
      ensures proxyUsername == [] && proxyPassword == []
      ensures !isSaving && saveError == None && !saveSuccess && calls == []
    {
      apiKey, proxyEnabled, proxyHost, proxyPort := [], false, [], DefaultPortText();
      proxyUsername, proxyPassword := [], [];
      isSaving, saveError, saveSuccess := false, None, false;
      calls := [];
    }

    /** The proxy settings the form would save: the fields as they are, with the port parsed. */
    function ProxyConfigToSave(): (config: ProxyConfig)
      reads this`proxyEnabled, this`proxyHost, this`proxyPort, this`proxyUsername, this`proxyPassword
      ensures config.enabled == proxyEnabled && config.host == proxyHost
      ensures config.username == proxyUsername && config.password == proxyPassword
      ensures config.port == SavedPort(proxyPort) && config.port != 0
    {
      ProxyConfig(proxyEnabled, proxyHost, SavedPort(proxyPort), proxyUsername, proxyPassword)
    }

    /**
     * `loadSettings`: a non-empty saved key replaces the field; proxy
     * settings, when there are any, replace the proxy fields with their
     * fallbacks. A rejected call ends the load where it happens.
     */
    method LoadSettings(savedKey: Settled<JsString>, proxy: Settled<Option<LoadedProxy>>)
      modifies this`apiKey, this`proxyEnabled, this`proxyHost, this`proxyPort, this`proxyUsername, this`proxyPassword
      ensures apiKey == if savedKey.Fulfilled? && savedKey.value != [] then savedKey.value else old(apiKey)
      ensures savedKey.Fulfilled? && proxy.Fulfilled? && proxy.value.Some? ==>
        var p := proxy.value.value;
        && proxyEnabled == p.enabled
        && proxyHost == OrEmpty(p.host)
        && proxyPort == PortText(p.port)
        && proxyUsername == OrEmpty(p.username)
        && proxyPassword == OrEmpty(p.password)
      ensures !(savedKey.Fulfilled? && proxy.Fulfilled? && proxy.value.Some?) ==>
        && proxyEnabled == old(proxyEnabled)
        && proxyHost == old(proxyHost)
        && proxyPort == old(proxyPort)
        && proxyUsername == old(proxyUsername)
        && proxyPassword == old(proxyPassword)
    {
      if savedKey.Fulfilled? {
        if savedKey.value != [] {
          apiKey := savedKey.value;
        }
        if proxy.Fulfilled? && proxy.value.Some? {
          ShowProxy(proxy.value.value);
        }
      }
    }

    /** The proxy fields take the stored settings, with `''` and '8080' where a value is missing. */
    method ShowProxy(p: LoadedProxy)
      modifies this`proxyEnabled, this`proxyHost, this`proxyPort, this`proxyUsername, this`proxyPassword
      ensures proxyEnabled == p.enabled
      ensures proxyHost == OrEmpty(p.host)
      ensures proxyPort == PortText(p.port)
      ensures proxyUsername == OrEmpty(p.username)
      ensures proxyPassword == OrEmpty(p.password)
    {
      proxyEnabled := p.enabled;
      proxyHost := OrEmpty(p.host);
      proxyPort := PortText(p.port);
      proxyUsername := OrEmpty(p.username);
      proxyPassword := OrEmpty(p.password);
    }

    /** Editing the port field. */
    method EditPort(text: JsString)
      modifies this`proxyPort
      ensures proxyPort == text
    {
      proxyPort := text;
    }

    /** The theme selector hands the choice to the application shell. */
    method SelectTheme(theme: Theme)
      modifies this`calls
      ensures calls == old(calls) + [ThemeChangeCall(theme)]
    {
      calls := calls + [ThemeChangeCall(theme)];
    }

    /** The cancel button closes the form without saving. */
    method HandleCancel()
      modifies this`calls
      ensures calls == old(calls) + [Close]
    {
      calls := calls + [Close];
    }

    /** The start of `handleSave`: busy, no error, no success. */
    method BeginSave()
      modifies this`isSaving, this`saveError, this`saveSuccess
      ensures isSaving && saveError == None && !saveSuccess
    {
      isSaving := true;
      saveError := None;
      saveSuccess := false;
    }

    /**
     * The rest of `handleSave`: the key is saved, then the proxy settings;
     * success schedules the close, the first failure stops the sequence
     * and is reported. `isSaving` is cleared on every path.
     */
    method FinishSave(keySaved: Completion, proxySaved: Completion)
      modifies this`isSaving, this`saveError, this`saveSuccess, this`calls
      ensures !isSaving
      ensures calls == old(calls) + [SaveApiKeyCall(apiKey)]
        + (if keySaved.Done? then [SaveProxyConfigCall(old(ProxyConfigToSave()))] else [])
        + (if keySaved.Done? && proxySaved.Done? then [CloseAfterDelay] else [])
      ensures keySaved.Done? && proxySaved.Done? ==> saveSuccess && saveError == old(saveError)
      ensures keySaved.Threw? ==>
        saveError == Some(SaveErrorPrefix + keySaved.message) && saveSuccess == old(saveSuccess)
      ensures keySaved.Done? && proxySaved.Threw? ==>
        saveError == Some(SaveErrorPrefix + proxySaved.message) && saveSuccess == old(saveSuccess)
    {
      var config := ProxyConfigToSave();
      calls := calls + [SaveApiKeyCall(apiKey)];
      if keySaved.Threw? {
        saveError := Some(SaveErrorPrefix + keySaved.message);
      } else {
        calls := calls + [SaveProxyConfigCall(config)];
        if proxySaved.Threw? {
          saveError := Some(SaveErrorPrefix + proxySaved.message);
        } else {
          saveSuccess := true;
          calls := calls + [CloseAfterDelay];
        }
      }
      isSaving := false;
    }

    /** `handleSave` from click to `finally`: success and error exclude each other and the busy flag is down. */
    method HandleSave(keySaved: Completion, proxySaved: Completion)
      modifies this`isSaving, this`saveError, this`saveSuccess, this`calls
      ensures !isSaving
      ensures saveSuccess <==> keySaved.Done? && proxySaved.Done?
      ensures saveSuccess ==> saveError == None
      ensures keySaved.Threw? ==> saveError == Some(SaveErrorPrefix + keySaved.message)
      ensures keySaved.Done? && proxySaved.Threw? ==> saveError == Some(SaveErrorPrefix + proxySaved.message)
      ensures calls == old(calls) + [SaveApiKeyCall(apiKey)]
        + (if keySaved.Done? then [SaveProxyConfigCall(old(ProxyConfigToSave()))] else [])
        + (if keySaved.Done? && proxySaved.Done? then [CloseAfterDelay] else [])
    {
      BeginSave();
      FinishSave(keySaved, proxySaved);
    }
  }
}
