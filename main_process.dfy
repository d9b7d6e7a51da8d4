/**
 * The main process's persisted settings and the IPC handlers that read
 * and overwrite them field by field.
 */
module MainProcess {
  import opened Js
  import opened Schema
  import opened Vault
  import Gateway

  /** The message the store's schema check throws when `theme` is outside its enum. */
  const ThemeSchemaError: JsString := Literal("Config schema violation: `theme` must be equal to one of the allowed values")

  /** The settings document, with the foreign platform the vault runs on. */
  class SettingsStore {
    const platform: Platform
    var encryptedApiKey: JsString
    var proxyConfig: ProxyConfig
    var theme: Theme

    /** A store with nothing saved yet holds the schema's defaults. */
    constructor (platform: Platform)
      ensures this.platform == platform
      ensures encryptedApiKey == [] && proxyConfig == DefaultProxyConfig && theme == DefaultTheme
    {
      this.platform := platform;
      encryptedApiKey := [];
      proxyConfig := DefaultProxyConfig;
      theme := DefaultTheme;
    }

    /** `getApiKey`, answered by `get-api-key`: the decrypted key, `''` when none is stored or it cannot be read. */
    method GetApiKey() returns (apiKey: JsString)
      ensures apiKey == StoredApiKey(platform, encryptedApiKey)
      ensures encryptedApiKey == [] ==> apiKey == []
    {
      apiKey := StoredApiKey(platform, encryptedApiKey);
    }

    /**
     * `setApiKey`, behind `save-api-key`: only the ciphertext changes; it
     * is read back as the key just saved. `encrypt` throws when no CPU is
     * listed or the key has an unpaired surrogate, and then nothing is
     * written.
     */
    method SaveApiKey(apiKey: JsString, salt: Salt) returns (outcome: Completion)
      modifies this`encryptedApiKey
      ensures Encrypt(platform, apiKey, salt).Ciphertext? ==>
        encryptedApiKey == Encrypt(platform, apiKey, salt).value && outcome == Done
      ensures Encrypt(platform, apiKey, salt).EncryptError? ==>
        encryptedApiKey == old(encryptedApiKey) && outcome == Threw(Encrypt(platform, apiKey, salt).error)
      ensures outcome == Done <==> platform.host.firstCpuModel.Some? && WellFormedUtf16(apiKey)
      ensures CipherRoundTrips(platform) && outcome == Done && encryptedApiKey != [] ==>
        StoredApiKey(platform, encryptedApiKey) == apiKey
    {
      var ciphertext := Encrypt(platform, apiKey, salt);
      if ciphertext.EncryptError? {
        return Threw(ciphertext.error);
      }
      encryptedApiKey := ciphertext.value;
      outcome := Done;
      if CipherRoundTrips(platform) {
        StoredApiKeyRoundTrip(platform, apiKey, salt);
      }
    }

    /** `save-proxy-config`: the whole object replaces the stored one. */
    method SaveProxyConfig(config: ProxyConfig) returns (outcome: Completion)
      modifies this`proxyConfig
      ensures proxyConfig == config && outcome == Done
    {
      proxyConfig := config;
      outcome := Done;
    }

    /** `get-proxy-config`. */
    method GetProxyConfig() returns (config: ProxyConfig)
      ensures config == proxyConfig
    {
      config := proxyConfig;
    }

    /** `save-theme`: a name outside the enum is refused by the schema check and nothing changes. */
    method SaveTheme(name: JsString) returns (outcome: Completion)
      modifies this`theme
      ensures ParseTheme(name).Some? ==> theme == ParseTheme(name).value && outcome == Done
      ensures ParseTheme(name).None? ==> theme == old(theme) && outcome == Threw(ThemeSchemaError)
    {
      var parsed := ParseTheme(name);
      if parsed.None? {
        return Threw(ThemeSchemaError);
      }
      theme := parsed.value;
      outcome := Done;
    }

    /** `get-theme`: the stored name, which always passes the enum check. */
    method GetTheme() returns (name: JsString)
      ensures ParseTheme(name) == Some(theme)
    {
      name := ThemeName(theme);
      ParseThemeName(theme, name);
    }

    /** The `translate-text` handler: the gateway run on the stored key and proxy settings. */
    method TranslateText(text: JsString, api: Gateway.ApiOutcome) returns (h: Gateway.Handled)
      ensures h == Gateway.TranslateText(StoredApiKey(platform, encryptedApiKey), proxyConfig, text, api)
      ensures encryptedApiKey == [] ==> h == Gateway.Handled(None, Gateway.Failed(Gateway.NoApiKeyError))
    {
      var apiKey := GetApiKey();
      h := Gateway.TranslateText(apiKey, proxyConfig, text, api);
    }
  }

  /**
   * Saving a key and then translating: the save succeeds exactly when a
   * CPU is listed and the key is well-formed, and then, under the
   * cipher's round trip, the translation runs on the saved key, unless
   * encryption produced an empty ciphertext, which reads as no key at
   * all. Saving `''`, as the settings form does with a blank field,
   * leads to the missing-key error. A failed save keeps the stored key.
   */
  method SaveThenTranslate(store: SettingsStore, apiKey: JsString, salt: Salt, text: JsString, api: Gateway.ApiOutcome)
    returns (saved: Completion, h: Gateway.Handled)
    requires CipherRoundTrips(store.platform)
    modifies store
    ensures store.proxyConfig == old(store.proxyConfig) && store.theme == old(store.theme)
    ensures saved == Done <==> store.platform.host.firstCpuModel.Some? && WellFormedUtf16(apiKey)
    ensures saved == Done && store.encryptedApiKey != [] ==> h == Gateway.TranslateText(apiKey, store.proxyConfig, text, api)
    ensures saved == Done && store.encryptedApiKey == [] ==> h == Gateway.Handled(None, Gateway.Failed(Gateway.NoApiKeyError))
    ensures saved == Done && apiKey == [] ==> h == Gateway.Handled(None, Gateway.Failed(Gateway.NoApiKeyError))
    ensures saved != Done ==>
      && saved == Threw(Encrypt(store.platform, apiKey, salt).error)
      && store.encryptedApiKey == old(store.encryptedApiKey)
  {
    saved := store.SaveApiKey(apiKey, salt);
    h := store.TranslateText(text, api);
  }
}
